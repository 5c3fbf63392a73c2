/**
 Main results about the import: when committing a valid preview succeeds, whatever order it visits
 the rows in, and what a fresh preview of the same rows says afterwards.
 */
module ImportTheorems {
  import opened Wrappers
  import opened Trimming
  import opened CustomerIdentity
  import opened CustomerImport
  import opened ImportStability

  predicate IsOrder(order: seq<nat>, n: nat) {
    && |order| == n
    && (forall k | 0 <= k < n :: order[k] < n)
    && (forall j, k | 0 <= j < k < n :: order[j] != order[k])
  }

  function Visited(rows: seq<Row>, order: seq<nat>): seq<Row>
    requires IsOrder(order, |rows|)
  {
    seq(|order|, k requires 0 <= k < |order| => rows[order[k]])
  }

  predicate DistinctTargets(rows: seq<Row>) {
    forall i, j | 0 <= i < j < |rows| && rows[i].target.Some? :: rows[i].target != rows[j].target
  }

  /** A field that a row would fill and that no row visited before it gives to the same customer. */
  predicate Uncontested(customers: seq<Customer>, rows: seq<Row>, p: nat, f: Field)
    requires p < |rows|
  {
    rows[p].target.Some? && rows[p].target.value < |customers|
    && Fills(customers[rows[p].target.value], rows[p].profile, f)
    && forall q | 0 <= q < p && rows[q].target == rows[p].target :: Given(rows[q].profile, f).None?
  }

  lemma VisitedFits(customers: seq<Customer>, rows: seq<Row>, order: seq<nat>)
    requires IsOrder(order, |rows|) && AllFit(customers, rows)
    ensures AllFit(customers, Visited(rows, order))
  {
    var visited := Visited(rows, order);
    forall j, k | 0 <= j < k < |visited| ensures Disjoint(visited[j], visited[k]) {
      if order[j] < order[k] {
        assert Disjoint(rows[order[j]], rows[order[k]]);
      } else {
        assert Disjoint(rows[order[k]], rows[order[j]]);
      }
    }
  }

  /**
   With the customers unchanged since a valid preview, the commit succeeds exactly when every
   enriching row has a field to fill that no row visited earlier gives to the same customer.
   */
  lemma CommitSucceedsIff(customers: seq<Customer>, parsed: seq<Row>, order: seq<nat>)
    requires forall i | 0 <= i < |parsed| :: Parsed(parsed[i])
    requires ValidPreview(Preview(customers, parsed)) && IsOrder(order, |parsed|)
    ensures var visited := Visited(Preview(customers, parsed), order);
            CommitAll(customers, visited).Some?
            <==> forall p | 0 <= p < |visited| && visited[p].action.Enriching? ::
                   exists f :: Uncontested(customers, visited, p, f)
  {
    var visited := Visited(Preview(customers, parsed), order);
    ValidPreviewFits(customers, parsed);
    VisitedFits(customers, Preview(customers, parsed), order);
    CommitAllIff(customers, visited);
    forall p | 0 <= p < |visited| && visited[p].action.Enriching?
      ensures StillFills(customers, visited, p) <==> exists f :: Uncontested(customers, visited, p, f)
    {
      FillsIffUncontested(customers, visited, p);
    }
  }

  lemma FillsIffUncontested(customers: seq<Customer>, rows: seq<Row>, p: nat)
    requires p < |rows| && Fits(customers, rows[p]) && rows[p].action.Enriching?
    ensures StillFills(customers, rows, p) <==> exists f :: Uncontested(customers, rows, p, f)
  {
    if StillFills(customers, rows, p) {
      var f :| Fills(customers[rows[p].target.value], rows[p].profile, f)
               && !GivenBefore(rows, p, rows[p].target.value, f);
      assert Uncontested(customers, rows, p, f);
    }
    if f :| Uncontested(customers, rows, p, f) {
      assert !GivenBefore(rows, p, rows[p].target.value, f);
    }
  }

  /** When no two rows resolve to the same customer, every order commits. */
  lemma DistinctCustomersCommit(customers: seq<Customer>, parsed: seq<Row>, order: seq<nat>)
    requires forall i | 0 <= i < |parsed| :: Parsed(parsed[i])
    requires ValidPreview(Preview(customers, parsed)) && IsOrder(order, |parsed|)
    requires DistinctTargets(Preview(customers, parsed))
    ensures CommitAll(customers, Visited(Preview(customers, parsed), order)).Some?
  {
    var preview := Preview(customers, parsed);
    var visited := Visited(preview, order);
    ValidPreviewFits(customers, parsed);
    VisitedFits(customers, preview, order);
    CommitSucceedsIff(customers, parsed, order);
    VisitedDistinct(preview, order);
    forall p | 0 <= p < |visited| && visited[p].action.Enriching?
      ensures exists f :: Uncontested(customers, visited, p, f)
    {
      assert Fits(customers, visited[p]);
      var f :| Fills(customers[visited[p].target.value], visited[p].profile, f);
      assert forall q | 0 <= q < p :: visited[q].target != visited[p].target;
      assert Uncontested(customers, visited, p, f);
    }
  }

  lemma VisitedDistinct(rows: seq<Row>, order: seq<nat>)
    requires IsOrder(order, |rows|) && DistinctTargets(rows)
    ensures DistinctTargets(Visited(rows, order))
  {
    var visited := Visited(rows, order);
    forall j, k | 0 <= j < k < |visited| && visited[j].target.Some? ensures visited[j].target != visited[k].target {
      if order[j] < order[k] {
        assert rows[order[j]].target != rows[order[k]].target;
      } else {
        assert rows[order[k]].target.Some? ==> rows[order[k]].target != rows[order[j]].target;
      }
    }
  }

  // ---- A fresh preview after the commit ----

  lemma {:induction false} MakerOf(rows: seq<Row>, k: nat) returns (q: nat)
    requires k < |Created(rows)|
    ensures q < |rows| && rows[q].action.Create? && Created(rows)[k] == FromProfile(rows[q].profile)
    ensures k == |Created(rows[..q])|
  {
    var before := rows[..|rows| - 1];
    if k < |Created(before)| {
      q := MakerOf(before, k);
      assert before[..q] == rows[..q];
    } else {
      q := |rows| - 1;
    }
  }

  /** The created customers that a row matches: its own, if it made one and has an identity. */
  lemma CreatedMatches(was: seq<Customer>, rows: seq<Row>, p: nat, k: nat)
    requires AllFit(was, rows) && p < |rows| && k < |Created(rows)|
    ensures Matches(Created(rows)[k], rows[p].profile.email, rows[p].key)
            <==> rows[p].action.Create? && k == |Created(rows[..p])| && Identities(rows[p]) != []
  {
    var q := MakerOf(rows, k);
    PairFits(was, rows, q, p);
    ProfileMatchesItself(rows[q], rows[p]);
    if p != q {
      MakerIsUnique(rows, q, p);
    } else {
      assert !Disjoint(rows[p], rows[p]) <==> Identities(rows[p]) != [];
    }
  }

  /** The rows that create are told apart by how many create before them. */
  lemma MakerIsUnique(rows: seq<Row>, q: nat, p: nat)
    requires q < |rows| && p < |rows| && rows[q].action.Create? && p != q
    ensures !(rows[p].action.Create? && |Created(rows[..q])| == |Created(rows[..p])|)
  {
    if q < p {
      assert rows[..p][..q] == rows[..q];
      CreatedGrows(rows[..p], q);
    } else {
      assert rows[..q][..p] == rows[..p];
      CreatedGrows(rows[..q], p);
    }
  }

  lemma PairFits(was: seq<Customer>, rows: seq<Row>, q: nat, p: nat)
    requires AllFit(was, rows) && q < |rows| && p < |rows|
    ensures Fits(was, rows[q]) && Fits(was, rows[p])
    ensures q == p || Disjoint(rows[q], rows[p])
  {
    if q < p {
      assert Disjoint(rows[q], rows[p]);
    } else if p < q {
      assert Disjoint(rows[p], rows[q]);
    }
  }

  lemma {:induction false} CreatedGrows(rows: seq<Row>, p: nat)
    requires p < |rows|
    ensures |Created(rows[..p])| + (if rows[p].action.Create? then 1 else 0) <= |Created(rows)|
  {
    if p == |rows| - 1 {
    } else {
      var before := rows[..|rows| - 1];
      assert before[..p] == rows[..p];
      CreatedGrows(before, p);
    }
  }

  /** After the commit a row matches what it matched before, and the customer it made. */
  lemma MatchesAfter(was: seq<Customer>, rows: seq<Row>, now: seq<Customer>, p: nat, i: nat)
    requires AllFit(was, rows) && Reflects(was, rows, now) && p < |rows| && i < |now|
    ensures Matches(now[i], rows[p].profile.email, rows[p].key)
            <==> if i < |was| then Matches(was[i], rows[p].profile.email, rows[p].key)
                 else rows[p].action.Create? && i - |was| == |Created(rows[..p])| && Identities(rows[p]) != []
  {
    assert forall j | 0 <= j < |rows| :: Fits(was, rows[j]);
    if i < |was| {
      assert FieldAfter(was[i], now[i], rows, |rows|, i, Email) && FieldAfter(was[i], now[i], rows, |rows|, i, Phone);
      EmailAfter(was, rows, now[i], p, i);
      PhoneAfter(was, rows, now[i], p, i);
    } else {
      CreatedMatches(was, rows, p, i - |was|);
      assert now[i] == Created(rows)[i - |was|];
    }
  }

  /** The customer a row targets is the one it matches. */
  lemma TargetMatches(was: seq<Customer>, row: Row, i: CustomerId)
    requires Fits(was, row) && row.target == Some(i)
    ensures i < |was| && Matches(was[i], row.profile.email, row.key)
  {
    assert i in Matching(was, row.profile.email, row.key, false);
  }

  lemma RowTargetMatches(was: seq<Customer>, rows: seq<Row>, q: nat, i: CustomerId)
    requires AllFit(was, rows) && q < |rows| && rows[q].target == Some(i)
    ensures i < |was| && Matches(was[i], rows[q].profile.email, rows[q].key)
  {
    PairFits(was, rows, q, q);
    TargetMatches(was, rows[q], i);
  }

  lemma PairApart(was: seq<Customer>, rows: seq<Row>, q: nat, p: nat)
    requires AllFit(was, rows) && q < |rows| && p < |rows|
    ensures WellFormed(rows[q]) && WellFormed(rows[p]) && (rows[q] == rows[p] || Disjoint(rows[q], rows[p]))
  {
    PairFits(was, rows, q, p);
  }

  /** The row that filled a field. */
  lemma FilledBy(was: Customer, now: Customer, rows: seq<Row>, id: CustomerId, f: Field) returns (q: nat)
    requires FieldAfter(was, now, rows, |rows|, id, f) && Held(now, f) != Held(was, f)
    ensures q < |rows| && rows[q].target == Some(id)
    ensures Missing(Held(was, f)) && Held(now, f).Some? && Held(now, f) == Given(rows[q].profile, f)
  {
    q :| 0 <= q < |rows| && rows[q].target == Some(id) && Held(now, f) == Given(rows[q].profile, f);
  }

  lemma EmailAfter(was: seq<Customer>, rows: seq<Row>, now: Customer, p: nat, i: nat)
    requires AllFit(was, rows) && p < |rows| && i < |was|
    requires FieldAfter(was[i], now, rows, |rows|, i, Email)
    ensures EmailMatches(was[i], rows[p].profile.email) ==> EmailMatches(now, rows[p].profile.email)
    ensures EmailMatches(now, rows[p].profile.email) ==> Matches(was[i], rows[p].profile.email, rows[p].key)
  {
    if now.email != was[i].email {
      var q := FilledBy(was[i], now, rows, i, Email);
      PairApart(was, rows, q, p);
      EmailFrom(was[i], now, rows[q], rows[p]);
      RowTargetMatches(was, rows, q, i);
    }
  }

  lemma EmailFrom(was: Customer, now: Customer, made: Row, row: Row)
    requires WellFormed(made) && WellFormed(row) && (made == row || Disjoint(made, row))
    requires Missing(was.email) && now.email.Some? && now.email == made.profile.email
    ensures !EmailMatches(was, row.profile.email)
    ensures EmailMatches(now, row.profile.email) ==> made == row
  {
    MissingEmailMatchesNothing(was, row.profile.email);
    StoredEmailMatches(now, row.profile.email);
  }

  lemma PhoneAfter(was: seq<Customer>, rows: seq<Row>, now: Customer, p: nat, i: nat)
    requires AllFit(was, rows) && p < |rows| && i < |was|
    requires FieldAfter(was[i], now, rows, |rows|, i, Phone)
    ensures PhoneMatches(was[i], rows[p].key) ==> PhoneMatches(now, rows[p].key)
    ensures PhoneMatches(now, rows[p].key) ==> Matches(was[i], rows[p].profile.email, rows[p].key)
  {
    if now.phone != was[i].phone {
      var q := FilledBy(was[i], now, rows, i, Phone);
      PairApart(was, rows, q, p);
      PhoneFrom(was[i], now, rows[q], rows[p]);
      RowTargetMatches(was, rows, q, i);
    }
  }

  lemma PhoneFrom(was: Customer, now: Customer, made: Row, row: Row)
    requires WellFormed(made) && WellFormed(row) && (made == row || Disjoint(made, row))
    requires Missing(was.phone) && now.phone.Some? && now.phone == made.profile.phone
    ensures !PhoneMatches(was, row.key)
    ensures PhoneMatches(now, row.key) ==> made == row
  {
    MissingPhoneMatchesNothing(was, row.profile.phone);
    StoredPhoneMatches(now, row.key);
  }

  lemma OnlyMember(ids: seq<nat>, x: nat)
    requires Increasing(ids)
    requires forall i | i in ids :: i == x
    requires x in ids
    ensures ids == [x]
  {
    if |ids| > 1 {
      TwoMembers(ids);
    }
  }

  lemma TwoMembers(ids: seq<nat>)
    requires |ids| > 1 && Increasing(ids)
    ensures ids[0] in ids && ids[1] in ids && ids[0] < ids[1]
  {
  }

  lemma FirstMember(ids: seq<nat>)
    requires ids != []
    ensures ids[0] in ids
  {
  }

  lemma NoMember(ids: seq<nat>)
    requires forall i | i in ids :: false
    ensures ids == []
  {
    if ids != [] {
      FirstMember(ids);
    }
  }

  /** The customer that row `p` ends up with: the one it matched, or the one it made. */
  function Home(was: seq<Customer>, rows: seq<Row>, p: nat): CustomerId
    requires p < |rows|
  {
    if rows[p].target.Some? then rows[p].target.value else |was| + |Created(rows[..p])|
  }

  lemma ResolvesHome(was: seq<Customer>, rows: seq<Row>, now: seq<Customer>, p: nat)
    requires AllFit(was, rows) && Reflects(was, rows, now) && p < |rows|
    ensures Resolve(now, rows[p].profile.email, rows[p].key)
         == Resolution(if Identities(rows[p]) == [] then [] else [Home(was, rows, p)], [])
  {
    var email, key := rows[p].profile.email, rows[p].key;
    forall i | 0 <= i < |now|
      ensures Matches(now[i], email, key) <==> Identities(rows[p]) != [] && i == Home(was, rows, p)
      ensures Matches(now[i], email, key) ==> !now[i].deleted
    {
      MatchesHome(was, rows, now, p, i);
    }
    HomeIsFull(was, rows, now, p);
    MatchesOnly(now, email, key, if Identities(rows[p]) == [] then None else Some(Home(was, rows, p)));
  }

  /** Resolution when at most one live customer matches. */
  lemma MatchesOnly(customers: seq<Customer>, email: Option<string>, key: Option<string>, only: Option<CustomerId>)
    requires only.Some? ==> only.value < |customers|
    requires forall i | 0 <= i < |customers| ::
               && (Matches(customers[i], email, key) <==> only == Some(i))
               && (Matches(customers[i], email, key) ==> !customers[i].deleted)
    ensures Resolve(customers, email, key) == Resolution(if only.None? then [] else [only.value], [])
  {
    MatchingIncreases(customers, email, key, false);
    NoMember(Matching(customers, email, key, true));
    if only.None? {
      NoMember(Matching(customers, email, key, false));
    } else {
      OnlyMember(Matching(customers, email, key, false), only.value);
    }
  }

  lemma MatchesHome(was: seq<Customer>, rows: seq<Row>, now: seq<Customer>, p: nat, i: nat)
    requires AllFit(was, rows) && Reflects(was, rows, now) && p < |rows| && i < |now|
    ensures Matches(now[i], rows[p].profile.email, rows[p].key)
            <==> Identities(rows[p]) != [] && i == Home(was, rows, p)
    ensures Matches(now[i], rows[p].profile.email, rows[p].key) ==> !now[i].deleted
  {
    PairFits(was, rows, p, p);
    MatchesAfter(was, rows, now, p, i);
    WasMatched(was, rows[p], i);
    if i >= |was| {
      CreatedIsLive(rows, i - |was|);
      assert now[i] == Created(rows)[i - |was|];
    }
  }

  /** Which old customers a fitting row matches. */
  lemma WasMatched(was: seq<Customer>, row: Row, i: nat)
    requires Fits(was, row)
    ensures i < |was| && Matches(was[i], row.profile.email, row.key) <==> row.target == Some(i)
    ensures i < |was| && Matches(was[i], row.profile.email, row.key) ==> !was[i].deleted
    ensures Identities(row) == [] ==> row.target.None?
  {
    var active := Matching(was, row.profile.email, row.key, false);
    var deleted := Matching(was, row.profile.email, row.key, true);
    assert deleted == [];
    assert i < |was| && Matches(was[i], row.profile.email, row.key)
           ==> (if was[i].deleted then i in deleted else i in active);
    if row.target.Some? {
      assert row.target.value in active;
    }
  }

  lemma CreatedIsLive(rows: seq<Row>, k: nat)
    requires k < |Created(rows)|
    ensures !Created(rows)[k].deleted
  {
    CreatedFromRow(rows, k);
  }

  /** Nothing is left to fill in the customer a row ends up with. */
  lemma HomeIsFull(was: seq<Customer>, rows: seq<Row>, now: seq<Customer>, p: nat)
    requires AllFit(was, rows) && Reflects(was, rows, now) && p < |rows|
    ensures Home(was, rows, p) < |now| && !WouldEnrich(now[Home(was, rows, p)], rows[p].profile)
  {
    PairFits(was, rows, p, p);
    if rows[p].target.Some? {
      TargetMatches(was, rows[p], rows[p].target.value);
      TargetIsFull(was, rows, now, p, rows[p].target.value);
    } else {
      CreatedAt(rows, p);
      MadeIsFull(rows[p]);
      assert now[Home(was, rows, p)] == Created(rows)[|Created(rows[..p])|];
    }
  }

  lemma TargetIsFull(was: seq<Customer>, rows: seq<Row>, now: seq<Customer>, p: nat, id: CustomerId)
    requires Reflects(was, rows, now) && p < |rows| && rows[p].target == Some(id) && id < |was|
    ensures !WouldEnrich(now[id], rows[p].profile)
  {
    forall f ensures !Fills(now[id], rows[p].profile, f) {
      assert FieldAfter(was[id], now[id], rows, |rows|, id, f);
      if Missing(Held(was[id], f)) && Given(rows[p].profile, f).Some? {
        assert GivenBefore(rows, |rows|, id, f);
      }
    }
  }

  lemma MadeIsFull(row: Row)
    requires WellFormed(row)
    ensures !WouldEnrich(FromProfile(row.profile), row.profile)
  {
    forall f ensures !Fills(FromProfile(row.profile), row.profile, f) {
      if Given(row.profile, f).Some? {
        GivenIsPresent(row, f);
      }
    }
  }

  lemma {:induction false} CreatedAt(rows: seq<Row>, p: nat)
    requires p < |rows| && rows[p].action.Create?
    ensures |Created(rows[..p])| < |Created(rows)|
    ensures Created(rows)[|Created(rows[..p])|] == FromProfile(rows[p].profile)
  {
    if p < |rows| - 1 {
      var before := rows[..|rows| - 1];
      assert before[..p] == rows[..p];
      CreatedAt(before, p);
    }
  }

  /**
   After a successful commit, in whatever order, a fresh preview of the same rows finds every row
   with an identity unchanged and still asks to create the rows without one.
   */
  lemma FreshPreviewAfterCommit(customers: seq<Customer>, parsed: seq<Row>, order: seq<nat>, i: nat)
    requires forall j | 0 <= j < |parsed| :: Parsed(parsed[j])
    requires ValidPreview(Preview(customers, parsed)) && IsOrder(order, |parsed|) && i < |parsed|
    requires CommitAll(customers, Visited(Preview(customers, parsed), order)).Some?
    ensures var now := CommitAll(customers, Visited(Preview(customers, parsed), order)).value.customers;
            Preview(now, parsed)[i].action == if Identities(parsed[i]) == [] then Create else Unchanged
  {
    var preview := Preview(customers, parsed);
    var visited := Visited(preview, order);
    var now := CommitAll(customers, visited).value.customers;
    ValidPreviewFits(customers, parsed);
    VisitedFits(customers, preview, order);
    CommitAllIff(customers, visited);
    var p := Position(order, i);
    assert visited[p] == preview[i];
    PreviewKeeps(customers, parsed, i);
    ResolvesHome(customers, visited, now, p);
    HomeIsFull(customers, visited, now, p);
    Reclassified(now, parsed[i], Home(customers, visited, p));
  }

  lemma Reclassified(now: seq<Customer>, row: Row, id: CustomerId)
    requires row.issue.None? && id < |now| && !WouldEnrich(now[id], row.profile)
    requires Resolve(now, row.profile.email, row.key) == Resolution(if Identities(row) == [] then [] else [id], [])
    ensures Classified(now, row, false).action == if Identities(row) == [] then Create else Unchanged
  {
  }

  lemma PreviewKeeps(customers: seq<Customer>, parsed: seq<Row>, i: nat)
    requires i < |parsed| && Parsed(parsed[i]) && !Preview(customers, parsed)[i].action.Error?
    ensures parsed[i].issue.None? && !Repeated(parsed, parsed[i])
    ensures Preview(customers, parsed)[i].profile == parsed[i].profile
            && Preview(customers, parsed)[i].key == parsed[i].key
  {
  }

  /** Every row is visited. */
  lemma Position(order: seq<nat>, i: nat) returns (p: nat)
    requires IsOrder(order, |order|) && i < |order|
    ensures p < |order| && order[p] == i
  {
    var seen := Numbers(order);
    var all := UpTo(|order|);
    CountDistinct(order);
    CountUpTo(|order|);
    assert seen <= all;
    EqualBySize(seen, all);
    assert i in seen;
    p :| 0 <= p < |order| && order[p] == i;
  }

  function Numbers(order: seq<nat>): set<nat> {
    set k | 0 <= k < |order| :: order[k]
  }

  function UpTo(n: nat): (r: set<nat>)
    ensures forall k :: k in r <==> 0 <= k < n
  {
    if n == 0 then {} else UpTo(n - 1) + {n - 1}
  }

  lemma {:induction false} CountDistinct(order: seq<nat>)
    requires forall j, k | 0 <= j < k < |order| :: order[j] != order[k]
    ensures |Numbers(order)| == |order|
  {
    if order != [] {
      var before := order[..|order| - 1];
      CountDistinct(before);
      assert Numbers(order) == Numbers(before) + {order[|order| - 1]};
    }
  }

  lemma {:induction false} CountUpTo(n: nat)
    ensures |UpTo(n)| == n
  {
    if n > 0 {
      CountUpTo(n - 1);
    }
  }

  lemma EqualBySize(a: set<nat>, b: set<nat>)
    requires a <= b && |a| == |b|
    ensures a == b
  {
    assert |b - a| == 0;
  }

  // ---- What a commit never does ----

  /** What a commit may do to one field: nothing, or fill a missing one from a row that targets the customer. */
  predicate OnlyFilled(was: Customer, now: Customer, rows: seq<Row>, i: CustomerId, f: Field) {
    Held(now, f) == Held(was, f)
    || (Missing(Held(was, f))
        && exists q | 0 <= q < |rows| :: rows[q].target == Some(i) && Held(now, f) == Given(rows[q].profile, f))
  }

  lemma AppliedOnlyFills(customers: seq<Customer>, row: Row, i: nat, f: Field)
    requires Apply(customers, row).Some? && i < |customers|
    ensures var now := Apply(customers, row).value.customers;
            && |now| == |customers| + (if row.action.Create? then 1 else 0) && now[i].deleted == customers[i].deleted
            && (Held(now[i], f) == Held(customers[i], f)
                || (Missing(Held(customers[i], f)) && row.target == Some(i)
                    && Held(now[i], f) == Given(row.profile, f)))
  {
  }

  lemma MoreRows(was: Customer, now: Customer, rows: seq<Row>, i: CustomerId, f: Field)
    requires rows != [] && OnlyFilled(was, now, rows[..|rows| - 1], i, f)
    ensures OnlyFilled(was, now, rows, i, f)
  {
    var before := rows[..|rows| - 1];
    if Held(now, f) != Held(was, f) {
      var q :| 0 <= q < |before| && before[q].target == Some(i) && Held(now, f) == Given(before[q].profile, f);
      assert rows[q] == before[q];
    }
  }

  /** Whatever the customers and rows, a commit only adds customers and fills missing fields. */
  lemma {:induction false} CommitOnlyFills(customers: seq<Customer>, rows: seq<Row>, i: nat, f: Field)
    requires CommitAll(customers, rows).Some? && i < |customers|
    ensures var now := CommitAll(customers, rows).value.customers;
            && |now| == |customers| + |Created(rows)| && now[i].deleted == customers[i].deleted
            && OnlyFilled(customers[i], now[i], rows, i, f)
  {
    if rows != [] {
      var before := rows[..|rows| - 1];
      CommitOnlyFills(customers, before, i, f);
      var between := CommitAll(customers, before).value.customers;
      AppliedOnlyFills(between, rows[|rows| - 1], i, f);
      MoreRows(customers[i], between[i], rows, i, f);
    }
  }

  /** A batch added under a new id is the one found. */
  lemma AddedIsFound(batches: seq<Batch>, b: Batch)
    requires FindBatch(batches, b.clientId).None?
    ensures FindBatch(batches + [b], b.clientId) == Some(|batches|)
  {
    assert (batches + [b])[..|batches|] == batches;
  }

  lemma KnownBatchAnswers(s: Store, clientId: Uuid, batch: nat, filename: string, digest: string, rows: seq<Row>)
    requires FindBatch(s.batches, clientId) == Some(batch) && batch < |s.batches|
    ensures DryRunImport(s, clientId, filename, digest, rows)
         == if s.batches[batch].digest == digest && s.batches[batch].filename == filename
            then Success(DryRun(s, batch)) else Failure(Reused)
  {
  }

  /** A preview changes no customer; repeating it finds the same batch, and another file under its id is refused. */
  lemma DryRunReplays(s: Store, clientId: Uuid, filename: string, digest: string, rows: seq<Row>, other: string,
                      later: seq<Row>)
    requires FindBatch(s.batches, clientId).None?
    ensures DryRunImport(s, clientId, filename, digest, rows).Success?
    ensures var first := DryRunImport(s, clientId, filename, digest, rows).value;
            && first.store.customers == s.customers && first.batch == |s.batches|
            && first.store.batches[first.batch].rows == Preview(s.customers, rows)
            && DryRunImport(first.store, clientId, filename, digest, later) == Success(first)
            && (other != digest ==> DryRunImport(first.store, clientId, filename, other, later) == Failure(Reused))
  {
    var first := DryRunImport(s, clientId, filename, digest, rows).value;
    AddedIsFound(s.batches, first.store.batches[|s.batches|]);
    KnownBatchAnswers(first.store, clientId, |s.batches|, filename, digest, later);
    KnownBatchAnswers(first.store, clientId, |s.batches|, filename, other, later);
  }

  /** Repeating a commit changes nothing; another command is refused. */
  lemma CommitReplays(s: Store, batch: nat, command: Uuid, other: Uuid, version: nat, digest: string)
    requires batch < |s.batches| && !s.batches[batch].status.CommittedStatus?
    requires CommitImport(s, batch, command, version, digest).Success?
    ensures var after := CommitImport(s, batch, command, version, digest).value;
            && CommitImport(after, batch, command, version, digest) == Success(after)
            && (other != command ==> CommitImport(after, batch, other, version, digest) == Failure(Reused))
            && |after.batches[batch].results| == |s.batches[batch].rows|
  {
    ResultPerRow(s.customers, s.batches[batch].rows);
  }

  lemma {:induction false} ResultPerRow(customers: seq<Customer>, rows: seq<Row>)
    ensures CommitAll(customers, rows).Some? ==> |CommitAll(customers, rows).value.results| == |rows|
  {
    if rows != [] {
      ResultPerRow(customers, rows[..|rows| - 1]);
    }
  }

  // ---- The counterexample ----

  const SHARED_EMAIL: string := "ana@x.ar"
  const SHARED_PHONE: string := "1145678901"
  const SHARED: Customer := Customer("Ana", None, Some(SHARED_EMAIL), Some(SHARED_PHONE), None, false)
  const BY_EMAIL: Row := Row(2, Profile("Ana", Some("Agro"), Some(SHARED_EMAIL), None, None), None, Error, None, None)
  const BY_PHONE: Row :=
    Row(3, Profile("Ana", Some("Agro"), None, Some(SHARED_PHONE), None), Some(SHARED_PHONE), Error, None, None)

  /** Both rows as a preview leaves them. */
  function Enriched(row: Row): Row {
    row.(target := Some(0), action := Enriching)
  }

  const PAIR: seq<Row> := [Enriched(BY_EMAIL), Enriched(BY_PHONE)]

  lemma SharedRowsAreParsed()
    ensures Parsed(BY_EMAIL) && Parsed(BY_PHONE)
    ensures Compact(SHARED_PHONE) == SHARED_PHONE && Lower(SpacesOff(SHARED_EMAIL)) == SHARED_EMAIL
  {
    assert Lower(SHARED_EMAIL) == SHARED_EMAIL;
    DigitsOnly(SHARED_PHONE);
    TrimmedIffKept("Ana");
    TrimmedIffKept("Agro");
    TrimmedIffKept(SHARED_PHONE);
    TrimmedKeepsItsEnds(SHARED_EMAIL);
  }

  lemma SharedMatches(row: Row)
    requires row == BY_EMAIL || row == BY_PHONE
    ensures Resolve([SHARED], row.profile.email, row.key) == Resolution([0], [])
  {
    SharedRowsAreParsed();
    assert Matches(SHARED, row.profile.email, row.key);
    MatchesOnly([SHARED], row.profile.email, row.key, Some(0));
  }

  lemma SharedClassified(row: Row)
    requires row == BY_EMAIL || row == BY_PHONE
    ensures Classified([SHARED], row, false) == Enriched(row)
  {
    SharedMatches(row);
    assert Fills(SHARED, row.profile, Company);
    ClassifiedEnriching([SHARED], row);
  }

  lemma ClassifiedEnriching(customers: seq<Customer>, row: Row)
    requires row.issue.None? && customers != [] && WouldEnrich(customers[0], row.profile)
    requires Resolve(customers, row.profile.email, row.key) == Resolution([0], [])
    ensures Classified(customers, row, false) == Enriched(row)
  {
  }

  lemma SharedPreview()
    ensures Preview([SHARED], [BY_EMAIL, BY_PHONE]) == [Enriched(BY_EMAIL), Enriched(BY_PHONE)]
  {
    var parsed := [BY_EMAIL, BY_PHONE];
    assert Identities(BY_EMAIL) == [EmailIdentity(SHARED_EMAIL)]
           && Identities(BY_PHONE) == [PhoneIdentity(SHARED_PHONE)];
    assert parsed[..1] == [BY_EMAIL];
    assert Occurrences([BY_EMAIL], EmailIdentity(SHARED_EMAIL)) == 1;
    assert Occurrences([BY_EMAIL], PhoneIdentity(SHARED_PHONE)) == 0;
    assert !Repeated(parsed, BY_EMAIL) && !Repeated(parsed, BY_PHONE);
    SharedClassified(BY_EMAIL);
    SharedClassified(BY_PHONE);
  }

  /** Both rows can fill the company and nothing else, so the second one visited finds it filled. */
  lemma OnlyTheCompany(f: Field)
    ensures Fills(SHARED, BY_EMAIL.profile, f) ==> f.Company?
    ensures Fills(SHARED, BY_PHONE.profile, f) ==> f.Company?
  {
    TrimmedIffKept("Ana");
  }

  /**
   One customer matched by e-mail in one row and by phone in another, both giving the company:
   the preview is valid, but the commit rejects it in either order.
   */
  lemma PreviewRejectedByItsOwnCommit()
    ensures Preview([SHARED], [BY_EMAIL, BY_PHONE]) == PAIR && ValidPreview(PAIR)
    ensures CommitAll([SHARED], PAIR).None? && CommitAll([SHARED], [PAIR[1], PAIR[0]]).None?
  {
    SharedPreview();
    BothOrders();
    SharedCommitFails([0, 1]);
    SharedCommitFails([1, 0]);
  }

  lemma BothOrders()
    ensures Visited(PAIR, [0, 1]) == PAIR && Visited(PAIR, [1, 0]) == [PAIR[1], PAIR[0]]
  {
  }

  lemma SharedCommitNeeds(order: seq<nat>)
    requires IsOrder(order, 2)
    ensures var visited := Visited(PAIR, order);
            CommitAll([SHARED], visited).Some? && visited[1].action.Enriching? ==>
              exists f :: Uncontested([SHARED], visited, 1, f)
  {
    SharedRowsAreParsed();
    SharedPreview();
    assert ValidPreview(PAIR);
    CommitSucceedsIff([SHARED], [BY_EMAIL, BY_PHONE], order);
  }

  lemma SharedCommitFails(order: seq<nat>)
    requires IsOrder(order, 2)
    ensures CommitAll([SHARED], Visited(PAIR, order)).None?
  {
    var visited := Visited(PAIR, order);
    SharedCommitNeeds(order);
    assert visited == [visited[0], visited[1]];
    SecondIsContested(visited[0], visited[1]);
    assert visited[1].action.Enriching?;
  }

  lemma SecondIsContested(first: Row, second: Row)
    requires first in {Enriched(BY_EMAIL), Enriched(BY_PHONE)} && second in {Enriched(BY_EMAIL), Enriched(BY_PHONE)}
    ensures forall f :: !Uncontested([SHARED], [first, second], 1, f)
  {
    forall f ensures !Uncontested([SHARED], [first, second], 1, f) {
      OnlyTheCompany(f);
      assert [first, second][0] == first && first.target == second.target;
    }
  }

  lemma {:induction false} DigitsOnly(s: string)
    requires forall i | 0 <= i < |s| :: '0' <= s[i] <= '9'
    ensures Compact(s) == s && DigitCount(s) == |s|
  {
    if s != "" {
      DigitsOnly(s[..|s| - 1]);
    }
  }
}
