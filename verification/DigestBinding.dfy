/**
 What the digest binds. Drafts are stored with trimmed texts, and the names of their parameters
 are those of the template whose signature they carry. Over all such drafts the joined text
 determines the draft, the recipients and the consents exactly when no text may hold the
 separator and no template has a name that continues another one with an equals sign.
 */
module DigestBinding {
  import opened Wrappers
  import opened Trimming
  import opened Decimals
  import opened Digest

  datatype Input = Input(id: nat, version: nat, draft: Draft, rows: seq<Selection>, events: seq<nat>)

  function TextOf(x: Input): string {
    Of(x.id, x.version, x.draft, x.rows, x.events)
  }

  /** The parameter names behind each template signature. */
  type Templates = map<string, set<string>>

  function NamesOf(parameters: seq<Parameter>): set<string> {
    set i | 0 <= i < |parameters| :: parameters[i].name
  }

  predicate NamesUnique(parameters: seq<Parameter>) {
    forall i, j | 0 <= i < j < |parameters| :: parameters[i].name != parameters[j].name
  }

  /** A draft as creating and editing leave it. */
  predicate Stored(templates: Templates, d: Draft) {
    && Trimmed(d.title)
    && (d.reference.Some? ==> Trimmed(d.reference.value))
    && (d.mediaRef.Some? ==> d.mediaRef.value != "")
    && (forall i | 0 <= i < |d.parameters| :: Trimmed(d.parameters[i].name) && Trimmed(d.parameters[i].value))
    && NamesUnique(d.parameters)
    && d.signature in templates && NamesOf(d.parameters) == templates[d.signature]
  }

  predicate PlainTexts(d: Draft, rows: seq<Selection>) {
    && Plain(d.title) && Plain(OrEmpty(d.reference)) && Plain(OrEmpty(d.mediaRef))
    && (forall i | 0 <= i < |d.parameters| :: Plain(d.parameters[i].name) && Plain(d.parameters[i].value))
    && (forall i | 0 <= i < |rows| :: Plain(rows[i].phone))
  }

  /** What a validation can issue a token for; `separators` says whether texts may hold the separator. */
  predicate Admissible(templates: Templates, separators: bool, x: Input) {
    && Stored(templates, x.draft)
    && x.rows != [] && |x.events| == |x.rows|
    && (separators || PlainTexts(x.draft, x.rows))
  }

  ghost predicate Binds(templates: Templates, separators: bool) {
    forall x, y | Admissible(templates, separators, x) && Admissible(templates, separators, y)
                  && TextOf(x) == TextOf(y) :: x == y
  }

  /** A name that is another one, an equals sign and more that no trimming would remove. */
  predicate Continues(a: string, b: string) {
    a + "=" <= b && (|b| == |a| + 1 || !IsSpace(b[|a| + 1]))
  }

  predicate NoneContinues(names: set<string>) {
    forall a, b | a in names && b in names :: !Continues(a, b)
  }

  /** Signatures are plain hexadecimal and templates can be drafted at all only with trimmed names. */
  predicate Draftable(templates: Templates) {
    forall s | s in templates :: Plain(s) && forall n | n in templates[s] :: Trimmed(n)
  }

  /** A template all of whose names are separator-free; no other has a draft without separators. */
  predicate PlainNames(names: set<string>) {
    forall n | n in names :: Plain(n)
  }

  // ---- The joined text determines separator-free parts ----

  lemma {:induction false} JoinUnique(a: seq<string>, b: seq<string>)
    requires a != [] && b != [] && Join(a) == Join(b)
    requires forall i | 0 <= i < |a| :: Plain(a[i])
    requires forall i | 0 <= i < |b| :: Plain(b[i])
    ensures a == b
  {
    var lastA, lastB := |a| - 1, |b| - 1;
    if |a| > 1 && |b| > 1 {
      LastPartUnique(Join(a[..lastA]), a[lastA], Join(b[..lastB]), b[lastB]);
      JoinUnique(a[..lastA], b[..lastB]);
    } else if |a| > 1 {
      HoldsSeparator(a);
    } else if |b| > 1 {
      HoldsSeparator(b);
    }
  }

  lemma HoldsSeparator(a: seq<string>)
    requires |a| > 1
    ensures SEPARATOR in Join(a)
  {
    var prefix := Join(a[..|a| - 1]);
    assert Join(a)[|prefix|] == SEPARATOR;
  }

  predicate NoColon(s: string) {
    ':' !in s
  }

  lemma FirstColon(x: string, u: string, y: string, v: string)
    requires NoColon(x) && NoColon(y) && x + ":" + u == y + ":" + v
    ensures x == y && u == v
  {
    var whole := x + ":" + u;
    assert whole[|x|] == ':' && whole[|y|] == ':';
    assert forall k | 0 <= k < |x| :: whole[k] == x[k];
    assert forall k | 0 <= k < |y| :: whole[k] == y[k];
    assert x == whole[..|x|] && u == whole[|x| + 1..];
  }

  lemma DecimalUnique(m: nat, n: nat)
    requires Decimal(m) == Decimal(n)
    ensures m == n
  {
    DecimalRoundTrip(m);
    DecimalRoundTrip(n);
  }

  lemma SelectionUnique(i: nat, r: Selection, s: Selection)
    requires SelectionText(i, r) == SelectionText(i, s)
    ensures r == s
  {
    var u, v := Decimal(r.customer) + ":" + r.phone, Decimal(s.customer) + ":" + s.phone;
    assert SelectionText(i, r) == Decimal(i) + ":" + u;
    assert SelectionText(i, s) == Decimal(i) + ":" + v;
    FirstColon(Decimal(i), u, Decimal(i), v);
    FirstColon(Decimal(r.customer), r.phone, Decimal(s.customer), s.phone);
    DecimalUnique(r.customer, s.customer);
  }

  /** Equal parameter texts mean equal parameters, or one name continues the other. */
  lemma ParameterUnique(p: Parameter, q: Parameter)
    requires ParameterText(p) == ParameterText(q) && Trimmed(p.value) && Trimmed(q.value)
    ensures p == q || Continues(p.name, q.name) || Continues(q.name, p.name)
  {
    var text := ParameterText(p);
    if |p.name| < |q.name| {
      ShorterContinues(p, q);
    } else if |q.name| < |p.name| {
      ShorterContinues(q, p);
    } else {
      assert p.name == text[..|p.name|] && q.name == text[..|q.name|];
      assert p.value == text[|p.name| + 1..] && q.value == text[|q.name| + 1..];
    }
  }

  lemma ShorterContinues(p: Parameter, q: Parameter)
    requires ParameterText(p) == ParameterText(q) && Trimmed(p.value) && |p.name| < |q.name|
    ensures Continues(p.name, q.name)
  {
    var text := ParameterText(p);
    assert q.name == text[..|q.name|];
    assert p.name + "=" == text[..|p.name| + 1];
    assert text[..|q.name|][..|p.name| + 1] == text[..|p.name| + 1];
    if |q.name| > |p.name| + 1 {
      assert q.name[|p.name| + 1] == text[|p.name| + 1] == p.value[0];
    }
  }

  // ---- Plain texts are bound ----

  function Parts(x: Input): (values: seq<string>)
    ensures |values| == 6 + |x.draft.parameters| + |x.rows| + |x.events|
  {
    Heading(x.id, x.version, x.draft, x.rows) + ConsentTexts(x.events)
  }

  /** Which text stands where. */
  function PartOf(x: Input, k: nat): string
    requires |x.events| == |x.rows| && k < 6 + |x.draft.parameters| + |x.rows| + |x.events|
  {
    var p, r := |x.draft.parameters|, |x.rows|;
    if k < 6 then Head(x)[k]
    else if k < 6 + p then ParameterText(x.draft.parameters[k - 6])
    else if k < 6 + p + r then SelectionText(k - 6 - p, x.rows[k - 6 - p])
    else ConsentText(k - 6 - p - r, x.events[k - 6 - p - r])
  }

  function SelectionText(i: nat, row: Selection): string {
    Decimal(i) + ":" + Decimal(row.customer) + ":" + row.phone
  }

  lemma PartAt(x: Input, k: nat)
    requires |x.events| == |x.rows| && k < |Parts(x)|
    ensures Parts(x)[k] == PartOf(x, k)
  {
  }

  lemma SelectionPlain(i: nat, row: Selection)
    requires Plain(row.phone)
    ensures Plain(SelectionText(i, row))
  {
  }

  lemma PartsPlain(x: Input)
    requires PlainTexts(x.draft, x.rows) && Plain(x.draft.signature) && |x.events| == |x.rows|
    ensures forall k | 0 <= k < |Parts(x)| :: Plain(Parts(x)[k])
  {
    var p := |x.draft.parameters|;
    forall k | 0 <= k < |Parts(x)| ensures Plain(Parts(x)[k]) {
      PartAt(x, k);
      if 6 + p <= k < 6 + p + |x.rows| {
        SelectionPlain(k - 6 - p, x.rows[k - 6 - p]);
      }
    }
  }

  lemma {:induction false} NameCount(parameters: seq<Parameter>)
    requires NamesUnique(parameters)
    ensures |NamesOf(parameters)| == |parameters|
  {
    if parameters != [] {
      var before := parameters[..|parameters| - 1];
      NameCount(before);
      assert NamesOf(parameters) == NamesOf(before) + {parameters[|parameters| - 1].name} by {
        assert forall i | 0 <= i < |before| :: before[i] == parameters[i];
      }
    }
  }

  lemma SamePart(x: Input, y: Input, k: nat)
    requires Parts(x) == Parts(y) && |x.events| == |x.rows| && |y.events| == |y.rows| && k < |Parts(x)|
    ensures PartOf(x, k) == PartOf(y, k)
  {
    PartAt(x, k);
    PartAt(y, k);
  }

  lemma SameParameter(x: Input, y: Input, names: set<string>, i: nat)
    requires Parts(x) == Parts(y) && |x.events| == |x.rows| && |y.events| == |y.rows|
    requires i < |x.draft.parameters| == |y.draft.parameters| && NoneContinues(names)
    requires x.draft.parameters[i].name in names && y.draft.parameters[i].name in names
    requires Trimmed(x.draft.parameters[i].value) && Trimmed(y.draft.parameters[i].value)
    ensures x.draft.parameters[i] == y.draft.parameters[i]
  {
    SamePart(x, y, 6 + i);
    ParameterUnique(x.draft.parameters[i], y.draft.parameters[i]);
  }

  lemma SameSelected(x: Input, y: Input, i: nat)
    requires Parts(x) == Parts(y) && |x.events| == |x.rows| && |y.events| == |y.rows|
    requires |x.draft.parameters| == |y.draft.parameters| && i < |x.rows| == |y.rows|
    ensures x.rows[i] == y.rows[i] && x.events[i] == y.events[i]
  {
    var p, r := |x.draft.parameters|, |x.rows|;
    SamePart(x, y, 6 + p + i);
    SelectionUnique(i, x.rows[i], y.rows[i]);
    SamePart(x, y, 6 + p + r + i);
    ConsentTextUnique(i, x.events[i], y.events[i]);
  }

  lemma SameParts(x: Input, y: Input, names: set<string>)
    requires Parts(x) == Parts(y) && |x.events| == |x.rows| && |y.events| == |y.rows|
    requires NamesUnique(x.draft.parameters) && NamesUnique(y.draft.parameters)
    requires NamesOf(x.draft.parameters) == names == NamesOf(y.draft.parameters) && NoneContinues(names)
    requires forall i | 0 <= i < |x.draft.parameters| :: Trimmed(x.draft.parameters[i].value)
    requires forall i | 0 <= i < |y.draft.parameters| :: Trimmed(y.draft.parameters[i].value)
    ensures x.draft.parameters == y.draft.parameters && x.rows == y.rows && x.events == y.events
  {
    NameCount(x.draft.parameters);
    NameCount(y.draft.parameters);
    forall i | 0 <= i < |x.draft.parameters| ensures x.draft.parameters[i] == y.draft.parameters[i] {
      SameParameter(x, y, names, i);
    }
    forall i | 0 <= i < |x.rows| ensures x.rows[i] == y.rows[i] && x.events[i] == y.events[i] {
      SameSelected(x, y, i);
    }
  }

  lemma PlainParts(x: Input, y: Input)
    requires PlainTexts(x.draft, x.rows) && Plain(x.draft.signature) && |x.events| == |x.rows|
    requires PlainTexts(y.draft, y.rows) && Plain(y.draft.signature) && |y.events| == |y.rows|
    requires TextOf(x) == TextOf(y)
    ensures Parts(x) == Parts(y)
  {
    PartsPlain(x);
    PartsPlain(y);
    JoinUnique(Parts(x), Parts(y));
  }

  function Head(x: Input): seq<string> {
    [Decimal(x.id), Decimal(x.version), x.draft.title, OrEmpty(x.draft.reference), x.draft.signature,
     OrEmpty(x.draft.mediaRef)]
  }

  lemma SameHead(x: Input, y: Input)
    requires Parts(x) == Parts(y) && |x.events| == |x.rows| && |y.events| == |y.rows|
    ensures Head(x) == Head(y)
  {
    forall k: nat | k < 6 ensures Head(x)[k] == Head(y)[k] {
      SamePart(x, y, k);
    }
  }

  /** Separator-free texts under templates without continued names are bound, ids and counts included. */
  lemma PlainTextsBound(templates: Templates, x: Input, y: Input)
    requires Draftable(templates) && Admissible(templates, false, x) && Admissible(templates, false, y)
    requires forall s | s in templates && PlainNames(templates[s]) :: NoneContinues(templates[s])
    requires TextOf(x) == TextOf(y)
    ensures x == y
  {
    PlainParts(x, y);
    SameHead(x, y);
    SameHeading(x, y);
    NamesArePlain(templates, x);
    SameParts(x, y, templates[x.draft.signature]);
  }

  lemma NamesArePlain(templates: Templates, x: Input)
    requires Admissible(templates, false, x)
    ensures PlainNames(templates[x.draft.signature])
  {
  }

  lemma SameHeading(x: Input, y: Input)
    requires Head(x) == Head(y)
    requires x.draft.reference.Some? ==> x.draft.reference.value != ""
    requires y.draft.reference.Some? ==> y.draft.reference.value != ""
    requires x.draft.mediaRef.Some? ==> x.draft.mediaRef.value != ""
    requires y.draft.mediaRef.Some? ==> y.draft.mediaRef.value != ""
    ensures x.id == y.id && x.version == y.version && x.draft == y.draft.(parameters := x.draft.parameters)
  {
    var a, b := Head(x), Head(y);
    assert a[0] == b[0] && a[1] == b[1] && a[2] == b[2] && a[3] == b[3] && a[4] == b[4] && a[5] == b[5];
    DecimalUnique(x.id, y.id);
    DecimalUnique(x.version, y.version);
  }

  // ---- Inputs that collide ----

  const ROWS: seq<Selection> := [Selection(1, "+5491155550000")]
  const EVENTS: seq<nat> := [7]

  function Example(signature: string, title: string, reference: Option<string>, parameters: seq<Parameter>): Input {
    Input(1, 1, Draft(title, reference, signature, None, parameters), ROWS, EVENTS)
  }

  lemma NamesFront(p: Parameter, rest: seq<Parameter>)
    requires NamesUnique(rest) && p.name !in NamesOf(rest)
    ensures NamesUnique([p] + rest) && NamesOf([p] + rest) == {p.name} + NamesOf(rest)
  {
    var all := [p] + rest;
    forall i | 0 <= i < |rest|
      ensures all[i + 1] == rest[i] && rest[i].name in NamesOf(rest) && rest[i].name in NamesOf(all)
    {
      assert all[i + 1].name == rest[i].name;
    }
    assert all[0].name in NamesOf(all);
    forall n | n in NamesOf(all) ensures n in {p.name} + NamesOf(rest) {
      var i :| 0 <= i < |all| && all[i].name == n;
      assert i > 0 ==> rest[i - 1].name == n;
    }
  }

  /** Some list of parameters with given names, each once. */
  lemma {:induction false} ParametersFor(names: set<string>) returns (parameters: seq<Parameter>)
    requires forall n | n in names :: Trimmed(n)
    ensures NamesUnique(parameters) && NamesOf(parameters) == names
    ensures forall i | 0 <= i < |parameters| :: Trimmed(parameters[i].name) && parameters[i].value == "v"
  {
    if names == {} {
      parameters := [];
    } else {
      var n :| n in names;
      var rest := ParametersFor(names - {n});
      NamesFront(Parameter(n, "v"), rest);
      parameters := [Parameter(n, "v")] + rest;
    }
  }

  lemma {:induction false} JoinFront(u: string, t: seq<string>)
    requires t != []
    ensures Join([u] + t) == u + [SEPARATOR] + Join(t)
  {
    if |t| == 1 {
      assert ([u] + t)[..1] == [u];
    } else {
      var before := t[..|t| - 1];
      assert ([u] + t)[..|[u] + t| - 1] == [u] + before;
      JoinFront(u, before);
    }
  }

  lemma JoinTwo(u: string, v: string, rest: seq<string>)
    requires rest != []
    ensures Join([u] + ([v] + rest)) == u + ([SEPARATOR] + (v + ([SEPARATOR] + Join(rest))))
  {
    JoinFront(v, rest);
    JoinFront(u, [v] + rest);
    assert u + [SEPARATOR] + (v + [SEPARATOR] + Join(rest)) == u + ([SEPARATOR] + (v + ([SEPARATOR] + Join(rest))));
  }

  lemma JoinMoves(a: string, b: string, c: string, rest: seq<string>)
    requires rest != []
    ensures Join([a + [SEPARATOR] + b] + ([c] + rest)) == Join([a] + ([b + [SEPARATOR] + c] + rest))
  {
    var end := [SEPARATOR] + Join(rest);
    JoinTwo(a + [SEPARATOR] + b, c, rest);
    JoinTwo(a, b + [SEPARATOR] + c, rest);
    assert (a + [SEPARATOR] + b) + ([SEPARATOR] + (c + end)) == a + ([SEPARATOR] + ((b + [SEPARATOR] + c) + end));
  }

  /** The parts of an example, with its title and reference in front of the rest. */
  function Rest(signature: string, parameters: seq<Parameter>): (rest: seq<string>)
    ensures rest != []
  {
    Parts(Example(signature, "", None, parameters))[4..]
  }

  lemma ExampleParts(signature: string, title: string, reference: string, parameters: seq<Parameter>)
    ensures Parts(Example(signature, title, Some(reference), parameters))
         == [Decimal(1)] + ([Decimal(1)] + ([title] + ([reference] + Rest(signature, parameters))))
  {
  }

  const LONG_TITLE: string := "a" + [SEPARATOR] + "b"
  const LONG_REFERENCE: string := "b" + [SEPARATOR] + "c"

  /** The title and the external reference stand side by side: a separator can move between them. */
  lemma SeparatorMoves(signature: string, parameters: seq<Parameter>)
    ensures TextOf(Example(signature, LONG_TITLE, Some("c"), parameters))
         == TextOf(Example(signature, "a", Some(LONG_REFERENCE), parameters))
  {
    var rest := Rest(signature, parameters);
    ExampleParts(signature, LONG_TITLE, "c", parameters);
    ExampleParts(signature, "a", LONG_REFERENCE, parameters);
    JoinMoves("a", "b", "c", rest);
    var x, y := [LONG_TITLE] + (["c"] + rest), ["a"] + ([LONG_REFERENCE] + rest);
    JoinFront(Decimal(1), x);
    JoinFront(Decimal(1), y);
    JoinFront(Decimal(1), [Decimal(1)] + x);
    JoinFront(Decimal(1), [Decimal(1)] + y);
  }

  lemma MovedAdmissible(templates: Templates, s: string) returns (x: Input, y: Input)
    requires Draftable(templates) && s in templates
    ensures Admissible(templates, true, x) && Admissible(templates, true, y) && TextOf(x) == TextOf(y) && x != y
  {
    var parameters := ParametersFor(templates[s]);
    x := Example(s, LONG_TITLE, Some("c"), parameters);
    y := Example(s, "a", Some(LONG_REFERENCE), parameters);
    assert |x.draft.title| == 3 && |y.draft.title| == 1;
    SeparatorMoves(s, parameters);
  }

  function Traded(a: string, v: string, b: string, w: string, rest: seq<Parameter>): seq<Parameter> {
    [Parameter(a, v)] + ([Parameter(b, w)] + rest)
  }

  /** The two lists write the same texts. */
  lemma ValuesTrade(signature: string, a: string, more: string, rest: seq<Parameter>)
    ensures TextOf(Example(signature, "Promo", None, Traded(a, more + "=x", a + "=" + more, "y", rest)))
         == TextOf(Example(signature, "Promo", None, Traded(a + "=" + more, "x", a, more + "=y", rest)))
  {
    var p, q := Traded(a, more + "=x", a + "=" + more, "y", rest), Traded(a + "=" + more, "x", a, more + "=y", rest);
    assert ParameterText(p[0]) == a + "=" + more + "=x" == ParameterText(q[0]);
    assert ParameterText(p[1]) == a + "=" + more + "=y" == ParameterText(q[1]);
    forall i | 0 <= i < |p| ensures ParameterText(p[i]) == ParameterText(q[i]) {
      assert i >= 2 ==> p[i] == rest[i - 2] == q[i];
    }
    var x, y := Example(signature, "Promo", None, p), Example(signature, "Promo", None, q);
    assert Heading(1, 1, x.draft, ROWS) == Heading(1, 1, y.draft, ROWS);
  }

  lemma TradedStored(templates: Templates, s: string, a: string, v: string, b: string, w: string, rest: seq<Parameter>)
    requires s in templates && PlainNames(templates[s]) && Plain(s) && forall n | n in templates[s] :: Trimmed(n)
    requires a in templates[s] && b in templates[s] && a != b
    requires NamesUnique(rest) && NamesOf(rest) == templates[s] - {a, b}
    requires forall i | 0 <= i < |rest| :: Trimmed(rest[i].name) && rest[i].value == "v"
    requires Trimmed(v) && Trimmed(w) && Plain(v) && Plain(w)
    ensures Admissible(templates, false, Example(s, "Promo", None, Traded(a, v, b, w, rest)))
  {
    var p := Traded(a, v, b, w, rest);
    NamesFront(Parameter(b, w), rest);
    NamesFront(Parameter(a, v), [Parameter(b, w)] + rest);
    assert {a} + ({b} + NamesOf(rest)) == templates[s];
    forall i | 0 <= i < |p|
      ensures Trimmed(p[i].name) && Trimmed(p[i].value) && Plain(p[i].name) && Plain(p[i].value)
    {
      assert p[i].name in NamesOf(p);
      assert i >= 2 ==> p[i] == rest[i - 2];
    }
  }

  /** A continued name lets two parameters trade their values. */
  lemma TradedAdmissible(templates: Templates, s: string, a: string, b: string) returns (x: Input, y: Input)
    requires Draftable(templates) && s in templates && PlainNames(templates[s])
    requires a in templates[s] && b in templates[s] && Continues(a, b)
    ensures Admissible(templates, false, x) && Admissible(templates, false, y) && TextOf(x) == TextOf(y) && x != y
  {
    var rest := ParametersFor(templates[s] - {a, b});
    var more := b[|a| + 1..];
    assert b == a + "=" + more;
    assert forall i | 0 <= i < |more| :: more[i] == b[|a| + 1 + i];
    assert templates[s] - {b, a} == templates[s] - {a, b};
    TradedStored(templates, s, a, more + "=x", b, "y", rest);
    TradedStored(templates, s, b, "x", a, more + "=y", rest);
    ValuesTrade(s, a, more, rest);
    x := Example(s, "Promo", None, Traded(a, more + "=x", b, "y", rest));
    y := Example(s, "Promo", None, Traded(b, "x", a, more + "=y", rest));
    assert x.draft.parameters[0].name == a && y.draft.parameters[0].name == b;
  }

  // ---- The exact condition ----

  /** The digest binds every draft exactly when texts hold no separator and no name continues another. */
  lemma DigestBindsIff(templates: Templates, separators: bool)
    requires templates != map[] && Draftable(templates)
    ensures Binds(templates, separators)
            <==> !separators && forall s | s in templates && PlainNames(templates[s]) :: NoneContinues(templates[s])
  {
    if separators {
      var s :| s in templates;
      var x, y := MovedAdmissible(templates, s);
    } else if s :| s in templates && PlainNames(templates[s]) && !NoneContinues(templates[s]) {
      var a, b :| a in templates[s] && b in templates[s] && Continues(a, b);
      var x, y := TradedAdmissible(templates, s, a, b);
    } else {
      forall x, y | Admissible(templates, false, x) && Admissible(templates, false, y) && TextOf(x) == TextOf(y)
        ensures x == y
      {
        PlainTextsBound(templates, x, y);
      }
    }
  }

  const FIRST: seq<Parameter> := [Parameter("a", "b=x"), Parameter("a=b", "y")]
  const SECOND: seq<Parameter> := [Parameter("a=b", "x"), Parameter("a", "b=y")]

  lemma FirstAndSecond()
    ensures FIRST == Traded("a", "b" + "=x", "a=b", "y", []) && SECOND == Traded("a=b", "x", "a", "b" + "=y", [])
    ensures "a" + "=" + "b" == "a=b" && "a" != "a=b"
            && {"a", "a=b"} - {"a", "a=b"} == NamesOf([]) == {"a", "a=b"} - {"a=b", "a"}
  {
    assert |"a"| == 1 && |"a=b"| == 3;
    assert "b" + "=x" == "b=x" && "b" + "=y" == "b=y";
  }

  /** A template with the names a and a=b: trading their values leaves the joined text alone. */
  lemma ParametersNotBound(signature: string)
    requires Plain(signature)
    ensures var templates := map[signature := {"a", "a=b"}];
            var x, y := Example(signature, "Promo", None, FIRST), Example(signature, "Promo", None, SECOND);
            Admissible(templates, false, x) && Admissible(templates, false, y) && TextOf(x) == TextOf(y) && x != y
  {
    var templates := map[signature := {"a", "a=b"}];
    FirstAndSecond();
    TradedStored(templates, signature, "a", "b" + "=x", "a=b", "y", []);
    TradedStored(templates, signature, "a=b", "x", "a", "b" + "=y", []);
    ValuesTrade(signature, "a", "b", []);
    assert FIRST[0].name != SECOND[0].name;
  }

  const LONG_VALUE: string := "x" + [SEPARATOR] + "b=y"
  const LONG_LAST: string := "y" + [SEPARATOR] + "b=z"
  const LONG_FIRST: seq<Parameter> := [Parameter("a", LONG_VALUE), Parameter("b", "z")]
  const LONG_SECOND: seq<Parameter> := [Parameter("a", "x"), Parameter("b", LONG_LAST)]

  /** The names a and b, and a separator inside a value: what follows it can pass for the second parameter. */
  lemma ValuesNotBound(signature: string)
    requires Plain(signature)
    ensures var templates := map[signature := {"a", "b"}];
            var x := Example(signature, "Promo", None, LONG_FIRST);
            var y := Example(signature, "Promo", None, LONG_SECOND);
            Admissible(templates, true, x) && Admissible(templates, true, y) && TextOf(x) == TextOf(y) && x != y
  {
    ABNames(LONG_FIRST);
    ABNames(LONG_SECOND);
    assert |LONG_FIRST[0].value| == 5 && |LONG_SECOND[0].value| == 1;
    LongTexts(signature);
  }

  lemma LongTexts(signature: string)
    ensures TextOf(Example(signature, "Promo", None, LONG_FIRST))
            == TextOf(Example(signature, "Promo", None, LONG_SECOND))
  {
    var head, tail := Parts(Example(signature, "Promo", None, LONG_FIRST))[..6], LongTail(signature, LONG_FIRST);
    LongParts(signature, LONG_FIRST, "a=x" + [SEPARATOR] + "b=y", "b=z");
    LongParts(signature, LONG_SECOND, "a=x", "b=y" + [SEPARATOR] + "b=z");
    assert LongTail(signature, LONG_SECOND) == tail;
    assert Parts(Example(signature, "Promo", None, LONG_SECOND))[..6] == head;
    LongJoin(head, tail);
  }

  lemma LongJoin(head: seq<string>, tail: seq<string>)
    requires tail != []
    ensures Join(head + (["a=x" + [SEPARATOR] + "b=y"] + (["b=z"] + tail)))
         == Join(head + (["a=x"] + (["b=y" + [SEPARATOR] + "b=z"] + tail)))
  {
    JoinMoves("a=x", "b=y", "b=z", tail);
    JoinAfter(head, ["a=x" + [SEPARATOR] + "b=y"] + (["b=z"] + tail), ["a=x"] + (["b=y" + [SEPARATOR] + "b=z"] + tail));
  }

  function LongTail(signature: string, parameters: seq<Parameter>): (tail: seq<string>)
    requires |parameters| == 2
    ensures |tail| == 2
  {
    Parts(Example(signature, "Promo", None, parameters))[8..]
  }

  lemma LongParts(signature: string, p: seq<Parameter>, first: string, second: string)
    requires |p| == 2 && ParameterText(p[0]) == first && ParameterText(p[1]) == second
    ensures Parts(Example(signature, "Promo", None, p))
         == Parts(Example(signature, "Promo", None, p))[..6] + ([first] + ([second] + LongTail(signature, p)))
  {
  }

  lemma ABNames(p: seq<Parameter>)
    requires |p| == 2 && p[0].name == "a" && p[1].name == "b"
    ensures NamesUnique(p) && NamesOf(p) == {"a", "b"}
  {
    assert p[0].name in NamesOf(p) && p[1].name in NamesOf(p);
    assert "a"[0] != "b"[0];
  }

  lemma {:induction false} JoinAfter(head: seq<string>, a: seq<string>, b: seq<string>)
    requires a != [] && b != [] && Join(a) == Join(b)
    ensures Join(head + a) == Join(head + b)
  {
    if head == [] {
      assert head + a == a && head + b == b;
    } else {
      assert head + a == [head[0]] + (head[1..] + a) && head + b == [head[0]] + (head[1..] + b);
      JoinAfter(head[1..], a, b);
      JoinFront(head[0], head[1..] + a);
      JoinFront(head[0], head[1..] + b);
    }
  }
}
