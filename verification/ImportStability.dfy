/**
 When a valid preview can be committed. Rows interact only through the customers they share, so
 the commit succeeds exactly when no row finds its missing fields already filled by the rows
 before it.
 */
module ImportStability {
  import opened Wrappers
  import opened Trimming
  import opened CustomerIdentity
  import opened CustomerImport

  // ---- Rows of a valid preview ----

  /** What parsing guarantees of a row without an issue. */
  predicate WellFormed(row: Row) {
    && Strip(row.profile.name) != ""
    && Normal(row.profile.email) && Phoneable(row.profile.phone)
    && row.key == ComparablePhone(row.profile.phone)
    && Present(row.profile.company) && Present(row.profile.province)
  }

  /** A row as parsing leaves it. */
  predicate Parsed(row: Row) {
    row.action.Error? && row.target.None? && (row.issue.None? ==> WellFormed(row))
  }

  predicate Present(value: Option<string>) {
    value.Some? ==> Trimmed(value.value)
  }

  lemma ParsedIsWellFormed(number: nat, values: seq<string>, emailOk: string -> bool)
    ensures Parsed(ParseRow(number, values, emailOk))
  {
    if ParseRow(number, values, emailOk).issue.Some? {
      return;
    }
    StripIsTrimmed(values[0]);
    StripIsTrimmed(values[1]);
    StripIsTrimmed(values[3]);
    StripIsTrimmed(values[4]);
    NormalizedIsNormal(Some(values[2]));
  }

  /** A row fits the customers it was previewed against. */
  predicate Fits(customers: seq<Customer>, row: Row) {
    var r := Resolve(customers, row.profile.email, row.key);
    && WellFormed(row) && r.deleted == []
    && match row.action
       case Create => r.active == [] && row.target.None?
       case Enriching => |r.active| == 1 && row.target == Some(r.active[0])
                         && WouldEnrich(customers[r.active[0]], row.profile)
       case Unchanged => |r.active| == 1 && row.target == Some(r.active[0])
                         && !WouldEnrich(customers[r.active[0]], row.profile)
       case Error => false
  }

  predicate Disjoint(a: Row, b: Row) {
    && !(a.profile.email.Some? && a.profile.email == b.profile.email)
    && !(a.key.Some? && a.key == b.key)
  }

  predicate AllDisjoint(rows: seq<Row>) {
    forall i, j | 0 <= i < j < |rows| :: Disjoint(rows[i], rows[j])
  }

  predicate AllFit(customers: seq<Customer>, rows: seq<Row>) {
    AllDisjoint(rows) && forall i | 0 <= i < |rows| :: Fits(customers, rows[i])
  }

  lemma {:induction false} OccursAtLeast(rows: seq<Row>, identity: Identity, i: nat)
    requires i < |rows| && identity in Identities(rows[i])
    ensures Occurrences(rows, identity) >= 1
    ensures forall j | i < j < |rows| && identity in Identities(rows[j]) :: Occurrences(rows, identity) >= 2
  {
    var last := |rows| - 1;
    if i < last {
      OccursAtLeast(rows[..last], identity, i);
      assert forall j | i < j < last && identity in Identities(rows[j]) :: identity in Identities(rows[..last][j]);
    }
  }

  /** A preview without errors fits its customers, and its rows share no identity. */
  lemma ValidPreviewFits(customers: seq<Customer>, rows: seq<Row>)
    requires forall i | 0 <= i < |rows| :: Parsed(rows[i])
    requires ValidPreview(Preview(customers, rows))
    ensures AllFit(customers, Preview(customers, rows))
  {
    var preview := Preview(customers, rows);
    forall i | 0 <= i < |rows|
      ensures Fits(customers, preview[i]) && !Repeated(rows, rows[i])
      ensures preview[i].profile == rows[i].profile && preview[i].key == rows[i].key
    {
      assert !preview[i].action.Error?;
    }
    forall i, j | 0 <= i < j < |preview|
      ensures Disjoint(preview[i], preview[j])
    {
      if !Disjoint(rows[i], rows[j]) {
        var identity := Shared(rows[i], rows[j]);
        OccursAtLeast(rows, identity, i);
      }
    }
  }

  lemma Shared(a: Row, b: Row) returns (identity: Identity)
    requires !Disjoint(a, b)
    ensures identity in Identities(a) && identity in Identities(b)
  {
    var left, right := Identities(a), Identities(b);
    if a.profile.email.Some? && a.profile.email == b.profile.email {
      identity := EmailIdentity(a.profile.email.value);
      assert left[0] == identity == right[0];
    } else {
      identity := PhoneIdentity(a.key.value);
      assert left[|left| - 1] == identity == right[|right| - 1];
    }
  }

  // ---- The customers during a commit ----

  /** Some row before `upTo` targets the customer and gives the field. */
  predicate GivenBefore(rows: seq<Row>, upTo: nat, id: CustomerId, f: Field)
    requires upTo <= |rows|
  {
    exists q | 0 <= q < upTo :: rows[q].target == Some(id) && Given(rows[q].profile, f).Some?
  }

  /** What a field of an old customer may hold once some rows are applied. */
  predicate FieldAfter(was: Customer, now: Customer, rows: seq<Row>, upTo: nat, id: CustomerId, f: Field)
    requires upTo <= |rows|
  {
    if Missing(Held(was, f)) && GivenBefore(rows, upTo, id, f)
    then !Missing(Held(now, f))
         && exists q | 0 <= q < upTo :: rows[q].target == Some(id) && Held(now, f) == Given(rows[q].profile, f)
    else Held(now, f) == Held(was, f)
  }

  /** The customers that the CREATE rows make, in row order. */
  function Created(rows: seq<Row>): seq<Customer> {
    if rows == [] then []
    else if rows[|rows| - 1].action.Create?
    then Created(rows[..|rows| - 1]) + [FromProfile(rows[|rows| - 1].profile)]
    else Created(rows[..|rows| - 1])
  }

  predicate Reflects(was: seq<Customer>, rows: seq<Row>, now: seq<Customer>) {
    && |now| == |was| + |Created(rows)|
    && now[|was|..] == Created(rows)
    && forall i | 0 <= i < |was| ::
         now[i].deleted == was[i].deleted && forall f :: FieldAfter(was[i], now[i], rows, |rows|, i, f)
  }

  lemma {:induction false} CreatedFromRow(rows: seq<Row>, k: nat)
    requires k < |Created(rows)|
    ensures exists q | 0 <= q < |rows| :: rows[q].action.Create? && Created(rows)[k] == FromProfile(rows[q].profile)
  {
    var before := rows[..|rows| - 1];
    if k < |Created(before)| {
      CreatedFromRow(before, k);
      var q :| 0 <= q < |before| && before[q].action.Create? && Created(before)[k] == FromProfile(before[q].profile);
      assert rows[q] == before[q];
    } else {
      assert Created(rows)[k] == FromProfile(rows[|rows| - 1].profile);
    }
  }

  /** The rows are well-formed and share no identity with `row`. */
  predicate ApartFrom(rows: seq<Row>, row: Row) {
    WellFormed(row) && forall q | 0 <= q < |rows| :: WellFormed(rows[q]) && Disjoint(rows[q], row)
  }

  /** Rows applied before do not change what a disjoint row matches. */
  lemma SameMatches(was: seq<Customer>, rows: seq<Row>, now: seq<Customer>, row: Row, i: nat)
    requires Reflects(was, rows, now) && ApartFrom(rows, row) && i < |now|
    ensures Matches(now[i], row.profile.email, row.key) <==> i < |was| && Matches(was[i], row.profile.email, row.key)
  {
    if i < |was| {
      SameEmailMatch(was[i], now[i], rows, i, row);
      SamePhoneMatch(was[i], now[i], rows, i, row);
    } else {
      CreatedFromRow(rows, i - |was|);
      assert now[i] == Created(rows)[i - |was|];
      var q :| 0 <= q < |rows| && rows[q].action.Create? && Created(rows)[i - |was|] == FromProfile(rows[q].profile);
      ProfileMatchesItself(rows[q], row);
    }
  }

  lemma SameEmailMatch(was: Customer, now: Customer, rows: seq<Row>, id: CustomerId, row: Row)
    requires FieldAfter(was, now, rows, |rows|, id, Email) && ApartFrom(rows, row)
    ensures EmailMatches(now, row.profile.email) <==> EmailMatches(was, row.profile.email)
  {
    if now.email != was.email {
      var q :| 0 <= q < |rows| && rows[q].target == Some(id) && Held(now, Email) == Given(rows[q].profile, Email);
      MissingEmailMatchesNothing(was, row.profile.email);
      StoredEmailMatches(now, row.profile.email);
    }
  }

  lemma SamePhoneMatch(was: Customer, now: Customer, rows: seq<Row>, id: CustomerId, row: Row)
    requires FieldAfter(was, now, rows, |rows|, id, Phone) && ApartFrom(rows, row)
    ensures PhoneMatches(now, row.key) <==> PhoneMatches(was, row.key)
  {
    if now.phone != was.phone {
      var q :| 0 <= q < |rows| && rows[q].target == Some(id) && Held(now, Phone) == Given(rows[q].profile, Phone);
      MissingPhoneMatchesNothing(was, row.profile.phone);
      StoredPhoneMatches(now, row.key);
    }
  }

  /** A customer made from one row is matched by another row exactly when they share an identity. */
  lemma ProfileMatchesItself(made: Row, row: Row)
    requires WellFormed(made) && WellFormed(row)
    ensures Matches(FromProfile(made.profile), row.profile.email, row.key) <==> !Disjoint(made, row)
  {
    var c := FromProfile(made.profile);
    if c.email.Some? {
      StoredEmailMatches(c, row.profile.email);
    }
    if c.phone.Some? {
      StoredPhoneMatches(c, row.key);
    }
  }

  /** Matching the same customers gives the same resolution. */
  /** The customers there were match as they did, and those added since do not match. */
  predicate MatchAlike(was: seq<Customer>, now: seq<Customer>, email: Option<string>, key: Option<string>) {
    && |was| <= |now|
    && (forall i | 0 <= i < |now| :: Matches(now[i], email, key) <==> i < |was| && Matches(was[i], email, key))
    && (forall i | 0 <= i < |was| :: now[i].deleted == was[i].deleted)
  }

  lemma MatchAlikeBefore(was: seq<Customer>, now: seq<Customer>, email: Option<string>, key: Option<string>)
    requires MatchAlike(was, now, email, key) && now != []
    ensures |was| == |now| ==> MatchAlike(was[..|was| - 1], now[..|now| - 1], email, key)
    ensures |was| < |now| ==> MatchAlike(was, now[..|now| - 1], email, key) && !Matches(now[|now| - 1], email, key)
  {
  }

  lemma {:induction false} SameMatching(was: seq<Customer>, now: seq<Customer>, email: Option<string>,
                                        key: Option<string>, deleted: bool)
    requires MatchAlike(was, now, email, key)
    ensures Matching(now, email, key, deleted) == Matching(was, email, key, deleted)
  {
    if now != [] {
      var last := |now| - 1;
      MatchAlikeBefore(was, now, email, key);
      if |was| == |now| {
        SameMatching(was[..last], now[..last], email, key, deleted);
      } else {
        SameMatching(was, now[..last], email, key, deleted);
      }
    }
  }

  // ---- The commit of a valid preview ----

  /** A row still fits when some field it would fill has not been given by the rows before it. */
  predicate StillFills(customers: seq<Customer>, rows: seq<Row>, p: nat)
    requires p < |rows|
  {
    rows[p].action.Enriching? ==>
      rows[p].target.Some? && rows[p].target.value < |customers|
      && exists f :: Fills(customers[rows[p].target.value], rows[p].profile, f)
                     && !GivenBefore(rows, p, rows[p].target.value, f)
  }

  predicate AppliedAs(row: Row, now: seq<Customer>, after: Option<Applied>, upTo: nat) {
    after.Some? ==>
      && after.value.customers == (if row.action.Create? then now + [FromProfile(row.profile)]
                                   else if row.action.Enriching? && row.target.Some? && row.target.value < |now|
                                   then now[row.target.value := Enrich(now[row.target.value], row.profile)]
                                   else now)
      && (if row.action.Create? then after.value.customer == |now|
          else row.target == Some(after.value.customer) && after.value.customer < upTo)
  }

  /** What applying one more row does to the customers so far. */
  lemma ApplyNext(was: seq<Customer>, rows: seq<Row>, now: seq<Customer>)
    requires rows != [] && AllFit(was, rows)
    requires Reflects(was, rows[..|rows| - 1], now)
    ensures Apply(now, rows[|rows| - 1]).Some? <==> StillFills(was, rows, |rows| - 1)
    ensures AppliedAs(rows[|rows| - 1], now, Apply(now, rows[|rows| - 1]), |was|)
  {
    var last := |rows| - 1;
    var row := rows[last];
    var before := rows[..last];
    assert Fits(was, row);
    assert ApartFrom(before, row) by {
      assert forall q | 0 <= q < last :: before[q] == rows[q] && Fits(was, rows[q]);
    }
    SameResolution(was, before, now, row);
    if row.action.Create? {
      assert Apply(now, row).Some?;
    } else {
      StillMissing(was, rows, now, row.target.value);
      ApplyResolved(was, now, row);
    }
  }

  lemma ApplyResolved(was: seq<Customer>, now: seq<Customer>, row: Row)
    requires |was| <= |now| && Fits(was, row) && !row.action.Create?
    requires Resolve(now, row.profile.email, row.key) == Resolve(was, row.profile.email, row.key)
    ensures row.target.Some? && row.target.value < |was|
    ensures Apply(now, row).Some? <==> (row.action.Enriching? <==> WouldEnrich(now[row.target.value], row.profile))
    ensures AppliedAs(row, now, Apply(now, row), |was|)
  {
  }

  lemma SameResolution(was: seq<Customer>, rows: seq<Row>, now: seq<Customer>, row: Row)
    requires Reflects(was, rows, now) && ApartFrom(rows, row)
    ensures Resolve(now, row.profile.email, row.key) == Resolve(was, row.profile.email, row.key)
  {
    forall i | 0 <= i < |now|
      ensures Matches(now[i], row.profile.email, row.key) <==> i < |was| && Matches(was[i], row.profile.email, row.key)
    {
      SameMatches(was, rows, now, row, i);
    }
    SameMatching(was, now, row.profile.email, row.key, false);
    SameMatching(was, now, row.profile.email, row.key, true);
  }

  /** Which fields of its customer the last row still fills. */
  lemma StillMissing(was: seq<Customer>, rows: seq<Row>, now: seq<Customer>, id: CustomerId)
    requires rows != [] && Reflects(was, rows[..|rows| - 1], now) && id < |was|
    ensures var p := rows[|rows| - 1].profile;
            forall f :: Fills(now[id], p, f) <==> Fills(was[id], p, f) && !GivenBefore(rows, |rows| - 1, id, f)
  {
    var p := rows[|rows| - 1].profile;
    var before := rows[..|rows| - 1];
    forall f
      ensures Fills(now[id], p, f) <==> Fills(was[id], p, f) && !GivenBefore(rows, |rows| - 1, id, f)
    {
      assert FieldAfter(was[id], now[id], before, |before|, id, f);
      PrefixGives(rows, id, f);
    }
  }

  lemma PrefixGives(rows: seq<Row>, id: CustomerId, f: Field)
    requires rows != []
    ensures GivenBefore(rows[..|rows| - 1], |rows| - 1, id, f) <==> GivenBefore(rows, |rows| - 1, id, f)
  {
    var before := rows[..|rows| - 1];
    assert forall q | 0 <= q < |rows| - 1 :: before[q] == rows[q];
    if GivenBefore(rows, |rows| - 1, id, f) {
      var q :| 0 <= q < |rows| - 1 && rows[q].target == Some(id) && Given(rows[q].profile, f).Some?;
      assert before[q].target == Some(id);
    }
  }

  /** One more applied row. */
  lemma ReflectsNext(was: seq<Customer>, rows: seq<Row>, now: seq<Customer>, after: seq<Customer>)
    requires rows != [] && Fits(was, rows[|rows| - 1]) && Reflects(was, rows[..|rows| - 1], now)
    requires var row := rows[|rows| - 1];
             after == if row.action.Create? then now + [FromProfile(row.profile)]
                      else if row.action.Enriching?
                      then now[row.target.value := Enrich(now[row.target.value], row.profile)]
                      else now
    ensures Reflects(was, rows, after)
  {
    var row := rows[|rows| - 1];
    var before := rows[..|rows| - 1];
    forall i | 0 <= i < |was|
      ensures after[i].deleted == was[i].deleted && forall f :: FieldAfter(was[i], after[i], rows, |rows|, i, f)
    {
      forall f ensures FieldAfter(was[i], after[i], rows, |rows|, i, f) {
        assert FieldAfter(was[i], now[i], before, |before|, i, f);
        FieldNext(was[i], now[i], after[i], rows, i, f);
      }
    }
  }

  lemma FieldNext(was: Customer, now: Customer, after: Customer, rows: seq<Row>, id: CustomerId, f: Field)
    requires rows != [] && FieldAfter(was, now, rows[..|rows| - 1], |rows| - 1, id, f)
    requires var row := rows[|rows| - 1];
             && WellFormed(row)
             && (row.target == Some(id)
                 ==> after == Enrich(now, row.profile) || (after == now && !Fills(was, row.profile, f)))
             && (row.target != Some(id) ==> after == now)
    ensures FieldAfter(was, after, rows, |rows|, id, f)
  {
    var row := rows[|rows| - 1];
    var before := rows[..|rows| - 1];
    PrefixGives(rows, id, f);
    assert forall q | 0 <= q < |before| :: before[q] == rows[q];
    if row.target == Some(id) && Given(row.profile, f).Some? {
      GivenIsPresent(row, f);
      assert rows[|rows| - 1].target == Some(id);
    }
    if GivenBefore(before, |before|, id, f) && Missing(Held(was, f)) {
      var q :| 0 <= q < |before| && before[q].target == Some(id) && Held(now, f) == Given(before[q].profile, f);
      assert rows[q].target == Some(id) && Held(now, f) == Given(rows[q].profile, f);
      assert Held(after, f) == Held(now, f);
    }
  }

  lemma GivenIsPresent(row: Row, f: Field)
    requires WellFormed(row) && Given(row.profile, f).Some?
    ensures !Missing(Given(row.profile, f))
  {
    match f
    case Name =>
    case Company => TrimmedIffKept(row.profile.company.value);
    case Email => TrimmedIffKept(row.profile.email.value);
    case Phone => TrimmedIffKept(row.profile.phone.value);
    case Province => TrimmedIffKept(row.profile.province.value);
  }

  /** The commit succeeds exactly when every row still fills something, and then says what became of everyone. */
  lemma {:induction false} CommitAllIff(was: seq<Customer>, rows: seq<Row>)
    requires AllFit(was, rows)
    ensures CommitAll(was, rows).Some? <==> forall p | 0 <= p < |rows| :: StillFills(was, rows, p)
    ensures CommitAll(was, rows).Some? ==> Reflects(was, rows, CommitAll(was, rows).value.customers)
  {
    if rows == [] {
      assert forall i | 0 <= i < |was| :: forall f :: FieldAfter(was[i], was[i], rows, 0, i, f);
    } else {
      var last := |rows| - 1;
      var before := rows[..last];
      assert AllFit(was, before);
      CommitAllIff(was, before);
      forall p | 0 <= p < last
        ensures StillFills(was, before, p) <==> StillFills(was, rows, p)
      {
        PrefixStillFills(was, rows, p);
      }
      if CommitAll(was, before).Some? {
        var now := CommitAll(was, before).value.customers;
        ApplyNext(was, rows, now);
        if CommitAll(was, rows).Some? {
          ReflectsNext(was, rows, now, CommitAll(was, rows).value.customers);
        }
      }
    }
  }

  lemma PrefixStillFills(was: seq<Customer>, rows: seq<Row>, p: nat)
    requires rows != [] && p < |rows| - 1
    ensures StillFills(was, rows[..|rows| - 1], p) <==> StillFills(was, rows, p)
  {
    var before := rows[..|rows| - 1];
    assert before[p] == rows[p];
    if rows[p].target.Some? {
      forall f
        ensures GivenBefore(before, p, rows[p].target.value, f) <==> GivenBefore(rows, p, rows[p].target.value, f)
      {
        assert forall q | 0 <= q < p :: before[q] == rows[q];
        if GivenBefore(rows, p, rows[p].target.value, f) {
          var q :| 0 <= q < p && rows[q].target == Some(rows[p].target.value) && Given(rows[q].profile, f).Some?;
          assert before[q].target == Some(rows[p].target.value);
        }
      }
    }
  }
}
