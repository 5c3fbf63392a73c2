/**
 The digest that binds a confirmation to the validation that issued its token: every input is
 written out as text, the texts are joined with the unit separator and the result is hashed.
 The hash is taken to be injective, so the digest here is the joined text itself.
 */
module Digest {
  import opened Wrappers
  import opened Decimals

  const SEPARATOR: char := '\U{1F}'

  datatype Parameter = Parameter(name: string, value: string)

  datatype Selection = Selection(customer: nat, phone: string)

  /** The editable content of a broadcast, as far as the digest covers it. */
  datatype Draft = Draft(title: string, reference: Option<string>, signature: string, mediaRef: Option<string>,
                         parameters: seq<Parameter>)

  function OrEmpty(value: Option<string>): string {
    if value.None? then "" else value.value
  }

  function ParameterText(p: Parameter): string {
    p.name + "=" + p.value
  }

  function ConsentText(recipient: nat, event: nat): string {
    Decimal(recipient) + ":" + Decimal(event)
  }

  function Heading(id: nat, version: nat, draft: Draft, rows: seq<Selection>): (values: seq<string>)
    ensures values != []
  {
    [Decimal(id), Decimal(version), draft.title, OrEmpty(draft.reference), draft.signature, OrEmpty(draft.mediaRef)]
    + seq(|draft.parameters|, i requires 0 <= i < |draft.parameters| => ParameterText(draft.parameters[i]))
    + seq(|rows|, i requires 0 <= i < |rows| =>
        Decimal(i) + ":" + Decimal(rows[i].customer) + ":" + rows[i].phone)
  }

  function ConsentTexts(events: seq<nat>): seq<string> {
    seq(|events|, i requires 0 <= i < |events| => ConsentText(i, events[i]))
  }

  function Join(values: seq<string>): string {
    if values == [] then ""
    else if |values| == 1 then values[0]
    else Join(values[..|values| - 1]) + [SEPARATOR] + values[|values| - 1]
  }

  function Of(id: nat, version: nat, draft: Draft, rows: seq<Selection>, events: seq<nat>): string {
    Join(Heading(id, version, draft, rows) + ConsentTexts(events))
  }

  // ---- What the digest distinguishes ----

  predicate Plain(s: string) {
    SEPARATOR !in s
  }

  lemma LastPartUnique(x: string, u: string, y: string, v: string)
    requires Plain(u) && Plain(v) && x + [SEPARATOR] + u == y + [SEPARATOR] + v
    ensures x == y && u == v
  {
    var whole := x + [SEPARATOR] + u;
    assert forall k | |x| < k < |whole| :: whole[k] == u[k - |x| - 1];
    assert forall k | |y| < k < |whole| :: whole[k] == v[k - |y| - 1];
    assert whole[|x|] == SEPARATOR && whole[|y|] == SEPARATOR;
    assert x == whole[..|x|] && u == whole[|x| + 1..];
  }

  /** After a common heading, the joined text determines the separator-free parts that follow. */
  lemma {:induction false} TailUnique(heading: seq<string>, a: seq<string>, b: seq<string>)
    requires heading != [] && |a| == |b|
    requires forall i | 0 <= i < |a| :: Plain(a[i]) && Plain(b[i])
    requires Join(heading + a) == Join(heading + b)
    ensures a == b
  {
    if a != [] {
      var last := |a| - 1;
      assert (heading + a)[..|heading + a| - 1] == heading + a[..last];
      assert (heading + b)[..|heading + b| - 1] == heading + b[..last];
      LastPartUnique(Join(heading + a[..last]), a[last], Join(heading + b[..last]), b[last]);
      TailUnique(heading, a[..last], b[..last]);
    }
  }

  lemma ConsentTextUnique(recipient: nat, d: nat, e: nat)
    requires ConsentText(recipient, d) == ConsentText(recipient, e)
    ensures d == e
  {
    var prefix := Decimal(recipient) + ":";
    assert ConsentText(recipient, d)[|prefix|..] == Decimal(d);
    assert ConsentText(recipient, e)[|prefix|..] == Decimal(e);
    DecimalRoundTrip(d);
    DecimalRoundTrip(e);
  }

  /** For the same draft and recipients, equal digests mean the same consent events. */
  lemma ConsentsBound(id: nat, version: nat, draft: Draft, rows: seq<Selection>, d: seq<nat>, e: seq<nat>)
    requires |d| == |e| && Of(id, version, draft, rows, d) == Of(id, version, draft, rows, e)
    ensures d == e
  {
    TailUnique(Heading(id, version, draft, rows), ConsentTexts(d), ConsentTexts(e));
    forall i | 0 <= i < |d| ensures d[i] == e[i] {
      assert ConsentTexts(d)[i] == ConsentTexts(e)[i];
      ConsentTextUnique(i, d[i], e[i]);
    }
  }
}
