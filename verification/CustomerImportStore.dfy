/**
 The import service over mutable customers: the preview's identity counts, the field-by-field
 enrichment and the commit loop, proved against the functions on values.
 */
module CustomerImportStore {
  import opened Wrappers
  import opened CustomerIdentity
  import opened CustomerImport

  class CustomerRow {
    var name: string
    var company: Option<string>
    var email: Option<string>
    var phone: Option<string>
    var province: Option<string>
    var deleted: bool

    ghost function Value(): Customer
      reads this
    {
      Customer(name, company, email, phone, province, deleted)
    }

    function Read(): Customer
      reads this
      ensures Read() == Value()
    {
      Customer(name, company, email, phone, province, deleted)
    }

    constructor (profile: Profile)
      ensures Value() == FromProfile(profile)
    {
      name, company, email := profile.name, profile.company, profile.email;
      phone, province, deleted := profile.phone, profile.province, false;
    }

    method Assign(c: Customer)
      modifies this
      ensures Value() == c
    {
      name, company, email, phone, province, deleted := c.name, c.company, c.email, c.phone, c.province, c.deleted;
    }

    method Set(f: Field, value: string)
      modifies this
      ensures Value().deleted == old(deleted)
      ensures forall g :: Held(Value(), g) == if g == f then Some(value) else Held(old(Value()), g)
    {
      match f
      case Name => name := value;
      case Company => company := Some(value);
      case Email => email := Some(value);
      case Phone => phone := Some(value);
      case Province => province := Some(value);
    }

    /** Goes through the fields in turn and tells whether any was filled. */
    method FillMissing(profile: Profile) returns (changed: bool)
      modifies this
      ensures Value() == Enrich(old(Value()), profile)
      ensures changed <==> WouldEnrich(old(Value()), profile)
    {
      changed := false;
      var fields := [Name, Company, Email, Phone, Province];
      for n := 0 to |fields|
        invariant deleted == old(deleted)
        invariant forall k | 0 <= k < |fields| ::
                    Held(Value(), fields[k]) == if k < n then Filled(old(Value()), profile, fields[k])
                                                else Held(old(Value()), fields[k])
        invariant changed <==> exists k | 0 <= k < n :: Fills(old(Value()), profile, fields[k])
      {
        var field := fields[n];
        var given := Given(profile, field);
        if Missing(Held(Read(), field)) && given.Some? {
          Set(field, given.value);
          changed := true;
        }
      }
      AllFieldsListed(old(Value()), Value(), profile, fields);
    }
  }

  lemma AllFieldsListed(was: Customer, now: Customer, profile: Profile, fields: seq<Field>)
    requires fields == [Name, Company, Email, Phone, Province]
    requires now.deleted == was.deleted
    requires forall k | 0 <= k < |fields| :: Held(now, fields[k]) == Filled(was, profile, fields[k])
    ensures now == Enrich(was, profile)
    ensures WouldEnrich(was, profile) <==> exists k | 0 <= k < |fields| :: Fills(was, profile, fields[k])
  {
    assert fields[0] == Name && fields[1] == Company && fields[2] == Email && fields[3] == Phone
           && fields[4] == Province;
    forall f: Field ensures f in fields {
      assert f == fields[0] || f == fields[1] || f == fields[2] || f == fields[3] || f == fields[4];
    }
    assert forall k | 0 <= k < |fields| :: Held(now, fields[k]) == Filled(was, profile, fields[k]);
  }

  class ImportStore {
    var customers: seq<CustomerRow>

    constructor ()
      ensures Valid() && customers == []
    {
      customers := [];
    }

    ghost predicate Valid()
      reads this
    {
      forall i, j | 0 <= i < j < |customers| :: customers[i] != customers[j]
    }

    function Values(): seq<Customer>
      reads this, customers
    {
      seq(|customers|, i requires 0 <= i < |customers| reads this, customers => customers[i].Read())
    }

    /** How often each identity occurs in the file. */
    method CountIdentities(rows: seq<Row>) returns (counts: map<Identity, nat>)
      ensures forall identity :: Occurrences(rows, identity) == if identity in counts then counts[identity] else 0
    {
      counts := map[];
      for n := 0 to |rows|
        invariant forall identity ::
                    Occurrences(rows[..n], identity) == if identity in counts then counts[identity] else 0
      {
        assert rows[..n + 1][..n] == rows[..n];
        ghost var before := counts;
        var identities := Identities(rows[n]);
        for k := 0 to |identities|
          invariant forall identity ::
                      (if identity in counts then counts[identity] else 0)
                      == (if identity in before then before[identity] else 0)
                      + (if identity in identities[..k] then 1 else 0)
        {
          var identity := identities[k];
          assert identities[..k + 1] == identities[..k] + [identity];
          assert identity !in identities[..k];
          counts := counts[identity := (if identity in counts then counts[identity] else 0) + 1];
        }
        assert identities[..|identities|] == identities;
      }
      assert rows[..|rows|] == rows;
    }

    method PreviewRows(rows: seq<Row>) returns (previewed: seq<Row>)
      ensures previewed == Preview(Values(), rows)
    {
      var counts := CountIdentities(rows);
      var current := Values();
      previewed := [];
      for n := 0 to |rows|
        invariant |previewed| == n
        invariant forall k | 0 <= k < n :: previewed[k] == Classified(current, rows[k], Repeated(rows, rows[k]))
      {
        var row := rows[n];
        var repeated := exists identity | identity in Identities(row) :: identity in counts && counts[identity] > 1;
        assert repeated == Repeated(rows, row);
        if row.issue.Some? {
          previewed := previewed + [row];
        } else if repeated {
          previewed := previewed + [row.(issue := Some(DuplicateIdentity), action := Error)];
        } else {
          var resolution := ResolveByQueries(current, row.profile.email, row.key);
          var classified := ClassifyResolved(current, row, resolution);
          previewed := previewed + [classified];
        }
      }
    }

    method ClassifyResolved(current: seq<Customer>, row: Row, resolution: Resolution) returns (classified: Row)
      requires row.issue.None? && resolution == Resolve(current, row.profile.email, row.key)
      ensures classified == Classified(current, row, false)
    {
      if resolution.deleted != [] {
        return row.(issue := Some(DeletedIdentity), action := Error);
      }
      if |resolution.active| > 1 {
        return row.(issue := Some(AmbiguousIdentity), action := Error);
      }
      if resolution.active == [] {
        return row.(action := Create);
      }
      var id := resolution.active[0];
      return row.(target := Some(id), action := if WouldEnrich(current[id], row.profile) then Enriching else Unchanged);
    }

    /** Writes the rows one after the other; the first that is refused rolls the customers back. */
    method CommitRows(rows: seq<Row>) returns (results: Option<seq<CustomerId>>)
      requires Valid()
      modifies this, customers
      ensures Valid()
      ensures match CommitAll(old(Values()), rows)
              case Some(committed) => results.Some? && committed == Committed(Values(), results.value)
              case None => results.None? && customers == old(customers) && Values() == old(Values())
    {
      var stored, values := customers, Values();
      var ids: seq<CustomerId> := [];
      for n := 0 to |rows|
        invariant Valid() && fresh(set r | r in customers && r !in old(customers))
        invariant CommitAll(values, rows[..n]) == Some(Committed(Values(), ids))
      {
        assert rows[..n + 1][..n] == rows[..n];
        var id := RevalidateAndApply(rows[n]);
        if id.None? {
          FailedPrefix(values, rows, n + 1);
          Rollback(stored, values);
          return None;
        }
        ids := ids + [id.value];
      }
      assert rows[..|rows|] == rows;
      return Some(ids);
    }

    /** Puts back the stored rows and what they held. */
    method Rollback(stored: seq<CustomerRow>, values: seq<Customer>)
      requires |stored| == |values| && forall i, j | 0 <= i < j < |stored| :: stored[i] != stored[j]
      modifies this, stored
      ensures customers == stored && Values() == values
    {
      customers := stored;
      for i := 0 to |stored|
        invariant customers == stored
        invariant forall k | 0 <= k < i :: stored[k].Value() == values[k]
      {
        stored[i].Assign(values[i]);
      }
    }

    method RevalidateAndApply(row: Row) returns (id: Option<CustomerId>)
      requires Valid()
      modifies this, customers
      ensures id.None? ==> Apply(old(Values()), row).None?
      ensures id.Some? ==> Valid() && Apply(old(Values()), row) == Some(Applied(Values(), id.value))
      ensures forall r | r in customers && r !in old(customers) :: fresh(r)
    {
      ghost var was := Values();
      var resolution := ResolveByQueries(Values(), row.profile.email, row.key);
      if resolution.deleted != [] || |resolution.active| > 1 {
        return None;
      }
      if row.action.Create? {
        if resolution.active != [] {
          return None;
        }
        var made := new CustomerRow(row.profile);
        customers := customers + [made];
        assert Values() == was + [FromProfile(row.profile)];
        return Some(|customers| - 1);
      }
      if resolution.active == [] || row.target != Some(resolution.active[0]) {
        return None;
      }
      var target := resolution.active[0];
      var customer := customers[target];
      var wouldEnrich := WouldEnrich(customer.Read(), row.profile);
      if row.action.Enriching? != wouldEnrich {
        return None;
      }
      if row.action.Enriching? {
        var changed := customer.FillMissing(row.profile);
        assert Values() == was[target := Enrich(was[target], row.profile)];
      }
      return Some(target);
    }
  }

  lemma {:induction false} FailedPrefix(customers: seq<Customer>, rows: seq<Row>, n: nat)
    requires n <= |rows| && CommitAll(customers, rows[..n]).None?
    ensures CommitAll(customers, rows).None?
    decreases |rows|
  {
    if n == |rows| {
      assert rows[..n] == rows;
    } else {
      assert rows[..|rows| - 1][..n] == rows[..n];
      FailedPrefix(customers, rows[..|rows| - 1], n);
    }
  }
}
