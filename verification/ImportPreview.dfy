/**
 What a preview says of a row, over the rows of the file and the customers: which row is an error and
 why, which one creates, and which one enriches whom; and when a previewed row still applies.
 */
module ImportPreview {
  import opened Wrappers
  import opened Trimming
  import opened CustomerIdentity
  import opened CustomerImport
  import opened ImportStability
  import ImportTheorems

  /** Two rows give the same normal e-mail or the same comparable phone. */
  predicate ShareIdentity(a: Row, b: Row) {
    || (a.profile.email != None && a.profile.email == b.profile.email)
    || (a.key != None && a.key == b.key)
  }

  predicate HasTwin(rows: seq<Row>, i: nat)
    requires i < |rows|
  {
    exists j | 0 <= j < |rows| && j != i :: ShareIdentity(rows[i], rows[j])
  }

  predicate MatchedLive(customers: seq<Customer>, row: Row, id: CustomerId) {
    id < |customers| && Matches(customers[id], row.profile.email, row.key) && customers[id].deleted == false
  }

  predicate MatchesDeleted(customers: seq<Customer>, row: Row) {
    exists id | 0 <= id < |customers| :: Matches(customers[id], row.profile.email, row.key) && customers[id].deleted
  }

  predicate MatchesTwo(customers: seq<Customer>, row: Row) {
    exists a, b | 0 <= a < b < |customers| :: MatchedLive(customers, row, a) && MatchedLive(customers, row, b)
  }

  predicate MatchesLive(customers: seq<Customer>, row: Row) {
    exists id | 0 <= id < |customers| :: MatchedLive(customers, row, id)
  }

  predicate NoText(value: Option<string>) {
    value.None? || Blank(value.value)
  }

  /** The profile gives a field that the customer has no text in. */
  predicate Lacks(c: Customer, p: Profile) {
    || NoText(Some(c.name))
    || (NoText(c.company) && p.company.Some?)
    || (NoText(c.email) && p.email.Some?)
    || (NoText(c.phone) && p.phone.Some?)
    || (NoText(c.province) && p.province.Some?)
  }

  lemma MissingIff(value: Option<string>)
    ensures Missing(value) <==> NoText(value)
  {
    if value.Some? {
      StripIsNormal(value.value);
    }
  }

  lemma LacksIff(c: Customer, p: Profile)
    ensures WouldEnrich(c, p) <==> Lacks(c, p)
  {
    forall f: Field ensures Missing(Held(c, f)) <==> NoText(Held(c, f)) {
      MissingIff(Held(c, f));
    }
    if Lacks(c, p) {
      assert Fills(c, p, Name) || Fills(c, p, Company) || Fills(c, p, Email) || Fills(c, p, Phone)
             || Fills(c, p, Province);
    }
  }

  // ---- Occurrences in the file ----

  lemma {:induction false} OccursSomewhere(rows: seq<Row>, identity: Identity)
    ensures Occurrences(rows, identity) > 0 <==> exists j | 0 <= j < |rows| :: Gives(rows, identity, j)
  {
    if rows != [] {
      var before := rows[..|rows| - 1];
      OccursSomewhere(before, identity);
      assert Gives(rows, identity, |before|) <==> identity in Identities(rows[|before|]);
      assert forall j :: Gives(rows, identity, j)
                         <==> Gives(before, identity, j) || (j == |before| && identity in Identities(rows[|before|]));
    }
  }

  lemma {:induction false} OccursElsewhere(rows: seq<Row>, identity: Identity, i: nat)
    requires i < |rows| && identity in Identities(rows[i])
    ensures Occurrences(rows, identity) > 1 <==> Elsewhere(rows, identity, i)
  {
    var before := rows[..|rows| - 1];
    OccursSomewhere(before, identity);
    if i < |before| {
      OccursElsewhere(before, identity, i);
      assert Gives(before, identity, i);
    }
    assert Gives(rows, identity, |before|) <==> identity in Identities(rows[|before|]);
    assert forall j :: Gives(rows, identity, j)
                       <==> Gives(before, identity, j) || (j == |before| && identity in Identities(rows[|before|]));
  }

  predicate Gives(rows: seq<Row>, identity: Identity, j: nat) {
    j < |rows| && identity in Identities(rows[j])
  }

  predicate Elsewhere(rows: seq<Row>, identity: Identity, i: nat) {
    exists j | 0 <= j < |rows| && j != i :: Gives(rows, identity, j)
  }

  lemma SharedIdentity(a: Row, b: Row)
    ensures ShareIdentity(a, b) <==> exists identity | identity in Identities(a) :: identity in Identities(b)
  {
    if ShareIdentity(a, b) {
      var identity := Shared(a, b);
    }
  }

  lemma RepeatedIff(rows: seq<Row>, i: nat)
    requires i < |rows|
    ensures Repeated(rows, rows[i]) <==> HasTwin(rows, i)
  {
    if Repeated(rows, rows[i]) {
      var identity :| identity in Identities(rows[i]) && Occurrences(rows, identity) > 1;
      OccursElsewhere(rows, identity, i);
      var j :| 0 <= j < |rows| && j != i && Gives(rows, identity, j);
      SharedIdentity(rows[i], rows[j]);
    }
    if HasTwin(rows, i) {
      var j :| 0 <= j < |rows| && j != i && ShareIdentity(rows[i], rows[j]);
      var identity := Shared(rows[i], rows[j]);
      OccursElsewhere(rows, identity, i);
      assert Gives(rows, identity, j);
    }
  }

  // ---- Matches ----

  lemma ResolvedIff(customers: seq<Customer>, row: Row)
    ensures var r := Resolve(customers, row.profile.email, row.key);
            && (r.deleted != [] <==> MatchesDeleted(customers, row))
            && (|r.active| > 1 <==> MatchesTwo(customers, row))
            && (r.active != [] <==> MatchesLive(customers, row))
            && (r.active != [] ==> MatchedLive(customers, row, r.active[0]))
            && (|r.active| == 1 ==> forall id: nat | MatchedLive(customers, row, id) :: id == r.active[0])
  {
    var r := Resolve(customers, row.profile.email, row.key);
    MatchingIncreases(customers, row.profile.email, row.key, false);
    assert forall id: nat :: MatchedLive(customers, row, id) <==> id in r.active;
    assert r.deleted != [] ==> r.deleted[0] in r.deleted;
    assert r.active != [] ==> r.active[0] in r.active;
    if |r.active| > 1 {
      ImportTheorems.TwoMembers(r.active);
      assert MatchedLive(customers, row, r.active[0]) && MatchedLive(customers, row, r.active[1]);
    }
  }

  // ---- The preview ----

  /** A row of the file that parsed well is classified by exactly these conditions. */
  lemma PreviewIff(customers: seq<Customer>, rows: seq<Row>, i: nat)
    requires i < |rows| && Parsed(rows[i]) && rows[i].issue.None?
    ensures var row, twin := Preview(customers, rows)[i], HasTwin(rows, i);
            var deleted, two := MatchesDeleted(customers, rows[i]), MatchesTwo(customers, rows[i]);
            && (row.issue == Some(DuplicateIdentity) <==> twin)
            && (row.issue == Some(DeletedIdentity) <==> !twin && deleted)
            && (row.issue == Some(AmbiguousIdentity) <==> !twin && !deleted && two)
            && (row.issue == None <==> !twin && !deleted && !two)
            && (row.action == Error <==> row.issue != None)
            && (row.action == Create <==> row.issue == None && !MatchesLive(customers, rows[i]))
            && (row.target.Some? <==> row.issue == None && MatchesLive(customers, rows[i]))
            && (row.target.Some? ==>
                  && MatchedLive(customers, rows[i], row.target.value)
                  && row.action == if Lacks(customers[row.target.value], row.profile) then Enriching else Unchanged)
            && row.number == rows[i].number && row.profile == rows[i].profile && row.key == rows[i].key
  {
    RepeatedIff(rows, i);
    ResolvedIff(customers, rows[i]);
    var r := Resolve(customers, rows[i].profile.email, rows[i].key);
    if |r.active| == 1 {
      LacksIff(customers[r.active[0]], rows[i].profile);
    }
  }

  /** A row that did not parse stays the error it was, and no customer is looked up for it. */
  lemma RefusedRowStays(customers: seq<Customer>, rows: seq<Row>, i: nat)
    requires i < |rows| && rows[i].issue.Some?
    ensures Preview(customers, rows)[i] == rows[i]
  {
  }

  /** A previewed row applies to the customers as they now are exactly when it still fits them. */
  lemma AppliesIff(customers: seq<Customer>, row: Row)
    ensures Apply(customers, row).Some?
            <==> && !MatchesDeleted(customers, row) && !MatchesTwo(customers, row)
                 && if row.action == Create then !MatchesLive(customers, row)
                    else row.target.Some? && MatchedLive(customers, row, row.target.value)
                         && (row.action == Enriching <==> Lacks(customers[row.target.value], row.profile))
    ensures Apply(customers, row).Some? ==>
              var now, id := Apply(customers, row).value.customers, Apply(customers, row).value.customer;
              && |now| == |customers| + (if row.action == Create then 1 else 0)
              && (forall j | 0 <= j < |customers| && j != id :: now[j] == customers[j])
              && (if row.action == Create then id == |customers| else row.target == Some(id))
  {
    ResolvedIff(customers, row);
    var r := Resolve(customers, row.profile.email, row.key);
    if |r.active| == 1 {
      LacksIff(customers[r.active[0]], row.profile);
    }
  }
}
