/**
 Customer identity: the normalised e-mail and the comparable phone of a row, how they match
 stored customers, and which fields of a customer an incoming profile would fill.
 */
module CustomerIdentity {
  import opened Wrappers
  import opened Trimming

  type CustomerId = nat

  datatype Profile = Profile(name: string, company: Option<string>, email: Option<string>, phone: Option<string>,
                             province: Option<string>)

  datatype Customer = Customer(name: string, company: Option<string>, email: Option<string>, phone: Option<string>,
                               province: Option<string>, deleted: bool)

  // ---- Normal forms ----

  function LowerChar(c: char): char {
    if 'A' <= c <= 'Z' then (c as int + 32) as char else c
  }

  function Lower(s: string): (r: string)
    ensures |r| == |s|
    ensures forall i | 0 <= i < |s| :: r[i] == LowerChar(s[i])
  {
    seq(|s|, i requires 0 <= i < |s| => LowerChar(s[i]))
  }

  function NormalizedEmail(value: Option<string>): Option<string> {
    var text := OptionalText(value);
    if text.None? then None else Some(Lower(text.value))
  }

  /** Separators that a comparable phone drops, and that the stored phone drops when it is matched. */
  predicate Separator(c: char) {
    9 <= c as int <= 13 || c == ' ' || c == '-' || c == '(' || c == ')'
  }

  function Compact(s: string): string {
    if s == "" then ""
    else if Separator(s[|s| - 1]) then Compact(s[..|s| - 1])
    else Compact(s[..|s| - 1]) + [s[|s| - 1]]
  }

  function DigitCount(s: string): nat {
    if s == "" then 0 else DigitCount(s[..|s| - 1]) + (if '0' <= s[|s| - 1] <= '9' then 1 else 0)
  }

  const MIN_DIGITS := 7

  function ComparablePhone(value: Option<string>): Option<string> {
    var text := OptionalText(value);
    if text.None? || DigitCount(Compact(text.value)) < MIN_DIGITS then None else Some(Compact(text.value))
  }

  /** The database side of the e-mail match trims spaces only. */
  function SpacesOff(s: string): string {
    if s != "" && s[0] == ' ' then SpacesOff(s[1..])
    else if s != "" && s[|s| - 1] == ' ' then SpacesOff(s[..|s| - 1])
    else s
  }

  predicate EmailMatches(c: Customer, email: Option<string>) {
    email.Some? && c.email.Some? && Lower(SpacesOff(c.email.value)) == email.value
  }

  predicate PhoneMatches(c: Customer, key: Option<string>) {
    key.Some? && c.phone.Some? && Compact(c.phone.value) == key.value
  }

  predicate Matches(c: Customer, email: Option<string>, key: Option<string>) {
    EmailMatches(c, email) || PhoneMatches(c, key)
  }

  // ---- Resolution ----

  /** Ids of the matching customers that are deleted or not, in id order. */
  function Matching(customers: seq<Customer>, email: Option<string>, key: Option<string>, deleted: bool)
    : (ids: seq<CustomerId>)
    ensures forall k | 0 <= k < |ids| :: ids[k] < |customers|
    ensures forall i | 0 <= i < |customers| ::
              i in ids <==> Matches(customers[i], email, key) && customers[i].deleted == deleted
  {
    if customers == [] then []
    else
      var last := |customers| - 1;
      var before := Matching(customers[..last], email, key, deleted);
      if Matches(customers[last], email, key) && customers[last].deleted == deleted then before + [last] else before
  }

  predicate Increasing(ids: seq<nat>) {
    forall j, k | 0 <= j < k < |ids| :: ids[j] < ids[k]
  }

  lemma {:induction false} MatchingIncreases(customers: seq<Customer>, email: Option<string>, key: Option<string>,
                                             deleted: bool)
    ensures Increasing(Matching(customers, email, key, deleted))
  {
    if customers != [] {
      MatchingIncreases(customers[..|customers| - 1], email, key, deleted);
    }
  }

  datatype Resolution = Resolution(active: seq<CustomerId>, deleted: seq<CustomerId>)

  function Resolve(customers: seq<Customer>, email: Option<string>, key: Option<string>): Resolution {
    Resolution(Matching(customers, email, key, false), Matching(customers, email, key, true))
  }

  /** The resolver's own way: e-mail matches, then phone matches, classified into a map and a set. */
  method ResolveByQueries(customers: seq<Customer>, email: Option<string>, key: Option<string>) returns (r: Resolution)
    ensures r == Resolve(customers, email, key)
  {
    var active: set<CustomerId> := {};
    var deleted: set<CustomerId> := {};
    for i := 0 to |customers|
      invariant forall j :: j in active <==> 0 <= j < i && EmailMatches(customers[j], email) && !customers[j].deleted
      invariant forall j :: j in deleted <==> 0 <= j < i && EmailMatches(customers[j], email) && customers[j].deleted
    {
      if EmailMatches(customers[i], email) {
        if customers[i].deleted {
          deleted := deleted + {i};
        } else {
          active := active + {i};
        }
      }
    }
    for i := 0 to |customers|
      invariant forall j :: j in active <==>
                            0 <= j < |customers| && !customers[j].deleted
                            && (EmailMatches(customers[j], email) || (j < i && PhoneMatches(customers[j], key)))
      invariant forall j :: j in deleted <==>
                            0 <= j < |customers| && customers[j].deleted
                            && (EmailMatches(customers[j], email) || (j < i && PhoneMatches(customers[j], key)))
    {
      if PhoneMatches(customers[i], key) {
        if customers[i].deleted {
          deleted := deleted + {i};
        } else {
          active := active + {i};
        }
      }
    }
    var activeIds := Sorted(active, |customers|);
    var deletedIds := Sorted(deleted, |customers|);
    SortedIsMatching(customers, email, key, false, active);
    SortedIsMatching(customers, email, key, true, deleted);
    return Resolution(activeIds, deletedIds);
  }

  function InOrder(ids: set<CustomerId>, upTo: nat): seq<CustomerId> {
    if upTo == 0 then []
    else if upTo - 1 in ids then InOrder(ids, upTo - 1) + [upTo - 1]
    else InOrder(ids, upTo - 1)
  }

  method Sorted(ids: set<CustomerId>, bound: nat) returns (r: seq<CustomerId>)
    ensures r == InOrder(ids, bound)
  {
    r := [];
    for i := 0 to bound
      invariant r == InOrder(ids, i)
    {
      if i in ids {
        r := r + [i];
      }
    }
  }

  lemma {:induction false} SortedIsMatching(customers: seq<Customer>, email: Option<string>, key: Option<string>,
                                            deleted: bool, ids: set<CustomerId>)
    requires forall j | 0 <= j < |customers| ::
               j in ids <==> Matches(customers[j], email, key) && customers[j].deleted == deleted
    ensures InOrder(ids, |customers|) == Matching(customers, email, key, deleted)
  {
    if customers != [] {
      SortedIsMatching(customers[..|customers| - 1], email, key, deleted, ids);
    }
  }

  // ---- Filling missing fields ----

  datatype Field = Name | Company | Email | Phone | Province

  function Held(c: Customer, f: Field): Option<string> {
    match f
    case Name => Some(c.name)
    case Company => c.company
    case Email => c.email
    case Phone => c.phone
    case Province => c.province
  }

  function Given(p: Profile, f: Field): Option<string> {
    match f
    case Name => Some(p.name)
    case Company => p.company
    case Email => p.email
    case Phone => p.phone
    case Province => p.province
  }

  predicate Missing(value: Option<string>) {
    value.None? || Strip(value.value) == ""
  }

  predicate Fills(c: Customer, p: Profile, f: Field) {
    Missing(Held(c, f)) && Given(p, f).Some?
  }

  predicate WouldEnrich(c: Customer, p: Profile) {
    exists f :: Fills(c, p, f)
  }

  function Filled(c: Customer, p: Profile, f: Field): Option<string> {
    if Fills(c, p, f) then Given(p, f) else Held(c, f)
  }

  function Enrich(c: Customer, p: Profile): Customer {
    c.(name := Filled(c, p, Name).value, company := Filled(c, p, Company), email := Filled(c, p, Email),
       phone := Filled(c, p, Phone), province := Filled(c, p, Province))
  }

  function FromProfile(p: Profile): Customer {
    Customer(p.name, p.company, p.email, p.phone, p.province, false)
  }

  // ---- How normal forms match ----

  predicate Normal(email: Option<string>) {
    email.Some? ==> Trimmed(email.value) && Lower(email.value) == email.value
  }

  lemma NormalizedIsNormal(value: Option<string>)
    ensures Normal(NormalizedEmail(value))
  {
    var text := OptionalText(value);
    if text.Some? {
      var lower := Lower(text.value);
      assert Trimmed(text.value);
      assert forall i | 0 <= i < |lower| :: LowerChar(lower[i]) == lower[i];
      assert Lower(lower) == lower;
    }
  }

  /** The text between spaces, which neither starts nor ends with one. */
  ghost predicate BetweenSpaces(raw: string, v: string) {
    && (v != "" ==> v[0] != ' ' && v[|v| - 1] != ' ')
    && exists before, after :: OnlySpaces(before) && OnlySpaces(after) && raw == before + v + after
  }

  predicate OnlySpaces(s: string) {
    forall i | 0 <= i < |s| :: s[i] == ' '
  }

  lemma {:induction false} SpacesOffIsBetween(s: string)
    ensures BetweenSpaces(s, SpacesOff(s))
  {
    if s != "" && s[0] == ' ' {
      SpacesOffIsBetween(s[1..]);
      var before, after :| OnlySpaces(before) && OnlySpaces(after) && s[1..] == before + SpacesOff(s) + after;
      assert OnlySpaces([' '] + before) && s == ([' '] + before) + SpacesOff(s) + after;
    } else if s != "" && s[|s| - 1] == ' ' {
      SpacesOffIsBetween(s[..|s| - 1]);
      var before, after :| OnlySpaces(before) && OnlySpaces(after) && s[..|s| - 1] == before + SpacesOff(s) + after;
      assert OnlySpaces(after + [' ']) && s == before + SpacesOff(s) + (after + [' ']);
    } else {
      assert OnlySpaces("") && s == "" + s + "";
    }
  }

  lemma BetweenSpacesUnique(raw: string, a: string, b: string)
    requires BetweenSpaces(raw, a) && BetweenSpaces(raw, b)
    ensures a == b
  {
    if a != "" && b != "" {
      var u, w :| OnlySpaces(u) && OnlySpaces(w) && raw == u + a + w;
      var x, y :| OnlySpaces(x) && OnlySpaces(y) && raw == x + b + y;
      assert raw[|u|] == a[0] && raw[|x|] == b[0];
      assert |u| == |x|;
      assert raw[|u| + |a| - 1] == a[|a| - 1];
      assert raw[|x| + |b| - 1] == b[|b| - 1];
      assert |a| == |b|;
      assert a == raw[|u|..|u| + |a|] == b;
    } else if a != "" {
      NotOnlySpaces(raw, a);
    } else if b != "" {
      NotOnlySpaces(raw, b);
    }
  }

  lemma NotOnlySpaces(raw: string, v: string)
    requires BetweenSpaces(raw, v) && v != ""
    ensures !OnlySpaces(raw) && !BetweenSpaces(raw, "")
  {
    var before, after :| OnlySpaces(before) && OnlySpaces(after) && raw == before + v + after;
    assert raw[|before|] == v[0];
  }

  /** Equal but for the case of the letters A to Z. */
  predicate SameIgnoringCase(v: string, w: string) {
    |v| == |w| && forall i | 0 <= i < |v| :: SameLetter(v[i], w[i])
  }

  predicate SameLetter(a: char, b: char) {
    || a == b
    || ('A' <= a <= 'Z' && b as int == a as int - 'A' as int + 'a' as int)
    || ('A' <= b <= 'Z' && a as int == b as int - 'A' as int + 'a' as int)
  }

  lemma LowerIff(v: string, w: string)
    ensures Lower(v) == Lower(w) <==> SameIgnoringCase(v, w)
  {
    assert forall i | 0 <= i < |v| && i < |w| :: Lower(v)[i] == Lower(w)[i] <==> SameLetter(v[i], w[i]);
    if Lower(v) == Lower(w) {
      assert |v| == |Lower(v)| == |Lower(w)| == |w|;
    }
  }

  lemma TrimmedKeepsItsEnds(s: string)
    requires Trimmed(s)
    ensures SpacesOff(s) == s
  {
  }

  lemma StripEmptyIsBlank(s: string)
    requires Strip(s) == ""
    ensures forall i | 0 <= i < |s| :: IsSpace(s[i])
  {
    BlankLeft(s);
    var left := StripLeft(s);
    BlankRight(left);
  }

  lemma {:induction false} BlankRight(s: string)
    requires StripRight(s) == ""
    ensures forall i | 0 <= i < |s| :: IsSpace(s[i])
  {
    if s != "" {
      BlankRight(s[..|s| - 1]);
      assert forall i | 0 <= i < |s| - 1 :: s[i] == s[..|s| - 1][i];
    }
  }

  lemma {:induction false} BlankLeft(s: string)
    ensures exists k | 0 <= k <= |s| :: StripLeft(s) == s[k..] && forall i | 0 <= i < k :: IsSpace(s[i])
  {
    if s != "" && IsSpace(s[0]) {
      BlankLeft(s[1..]);
      var k :| 0 <= k <= |s[1..]| && StripLeft(s[1..]) == s[1..][k..] && forall i | 0 <= i < k :: IsSpace(s[1..][i]);
      assert s[1..][k..] == s[k + 1..];
      assert forall i | 0 <= i < k :: s[1..][i] == s[i + 1];
    } else {
      assert s[0..] == s;
    }
  }

  /** A blank e-mail matches no normal form. */
  lemma MissingEmailMatchesNothing(c: Customer, email: Option<string>)
    requires Missing(c.email) && Normal(email)
    ensures !EmailMatches(c, email)
  {
    if c.email.Some? && email.Some? {
      StripEmptyIsBlank(c.email.value);
      SpacesOffBlank(c.email.value);
    }
  }

  lemma {:induction false} SpacesOffBlank(s: string)
    requires forall i | 0 <= i < |s| :: IsSpace(s[i])
    ensures Lower(SpacesOff(s)) != "" ==> IsSpace(Lower(SpacesOff(s))[0])
    decreases |s|
  {
    if s != "" && s[0] == ' ' {
      SpacesOffBlank(s[1..]);
    } else if s != "" && s[|s| - 1] == ' ' {
      SpacesOffBlank(s[..|s| - 1]);
    }
  }

  /** A blank phone has no digits, and a comparable phone has at least seven. */
  lemma MissingPhoneMatchesNothing(c: Customer, phone: Option<string>)
    requires Missing(c.phone)
    ensures !PhoneMatches(c, ComparablePhone(phone))
  {
    if c.phone.Some? {
      StripEmptyIsBlank(c.phone.value);
      BlankHasNoDigits(c.phone.value);
    }
  }

  lemma {:induction false} BlankHasNoDigits(s: string)
    requires forall i | 0 <= i < |s| :: IsSpace(s[i])
    ensures DigitCount(Compact(s)) == 0
  {
    if s != "" {
      BlankHasNoDigits(s[..|s| - 1]);
      if !Separator(s[|s| - 1]) {
        assert Compact(s)[..|Compact(s)| - 1] == Compact(s[..|s| - 1]);
      }
    }
  }

  /** Once stored, a normal e-mail matches exactly itself. */
  lemma StoredEmailMatches(c: Customer, email: Option<string>)
    requires c.email.Some? && Normal(c.email)
    ensures EmailMatches(c, email) <==> email == c.email
  {
    TrimmedKeepsItsEnds(c.email.value);
  }

  predicate Phoneable(phone: Option<string>) {
    phone.Some? ==> Trimmed(phone.value) && ComparablePhone(phone).Some?
  }

  /** Once stored, a phone matches exactly the keys equal to its own. */
  lemma StoredPhoneMatches(c: Customer, key: Option<string>)
    requires c.phone.Some? && Phoneable(c.phone)
    ensures PhoneMatches(c, key) <==> key == ComparablePhone(c.phone)
  {
    TrimmedIffKept(c.phone.value);
  }
}
