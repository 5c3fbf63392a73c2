/**
 Customer import in two phases: a preview classifies the parsed rows against the customers, and
 a commit revalidates and applies them one by one to the customers as they change.
 */
module CustomerImport {
  import opened Wrappers
  import opened Trimming
  import opened CustomerIdentity

  type Uuid = nat

  datatype Action = Create | Enriching | Unchanged | Error

  datatype IssueCode = InvalidFile | InvalidHeader | InvalidRow | MissingName | InvalidEmail | InvalidPhone
                     | DuplicateIdentity | DeletedIdentity | AmbiguousIdentity

  datatype Row = Row(number: nat, profile: Profile, key: Option<string>, action: Action, target: Option<CustomerId>,
                     issue: Option<IssueCode>)

  const MAX_FIELD := 500

  // ---- One record ----

  const INVALID_PROFILE: Profile := Profile("<invalid>", None, None, None, None)

  function ErrorRow(number: nat, issue: IssueCode): Row {
    Row(number, INVALID_PROFILE, None, Error, None, Some(issue))
  }

  /** `emailOk` stands for the library's e-mail format check. */
  function ParseRow(number: nat, values: seq<string>, emailOk: string -> bool): Row {
    if |values| != 5 then ErrorRow(number, InvalidRow)
    else if exists i | 0 <= i < 5 :: |values[i]| > MAX_FIELD then ErrorRow(number, InvalidRow)
    else
      var name := Strip(values[0]);
      var email := NormalizedEmail(Some(values[2]));
      var phone := OptionalText(Some(values[3]));
      var profile := Profile(name, OptionalText(Some(values[1])), email, phone, OptionalText(Some(values[4])));
      var key := ComparablePhone(phone);
      var issue := if name == "" then Some(MissingName)
                   else if email.Some? && !emailOk(email.value) then Some(InvalidEmail)
                   else if phone.Some? && key.None? then Some(InvalidPhone)
                   else None;
      Row(number, profile, key, Error, None, issue)
  }

  // ---- Preview ----

  datatype Identity = EmailIdentity(email: string) | PhoneIdentity(key: string)

  function Identities(row: Row): seq<Identity> {
    (if row.profile.email.Some? then [EmailIdentity(row.profile.email.value)] else [])
    + (if row.key.Some? then [PhoneIdentity(row.key.value)] else [])
  }

  function Occurrences(rows: seq<Row>, identity: Identity): nat {
    if rows == [] then 0
    else Occurrences(rows[..|rows| - 1], identity) + (if identity in Identities(rows[|rows| - 1]) then 1 else 0)
  }

  predicate Repeated(rows: seq<Row>, row: Row) {
    exists identity | identity in Identities(row) :: Occurrences(rows, identity) > 1
  }

  function Classified(customers: seq<Customer>, row: Row, repeated: bool): Row {
    if row.issue.Some? then row
    else if repeated then row.(issue := Some(DuplicateIdentity), action := Error)
    else
      var r := Resolve(customers, row.profile.email, row.key);
      if r.deleted != [] then row.(issue := Some(DeletedIdentity), action := Error)
      else if |r.active| > 1 then row.(issue := Some(AmbiguousIdentity), action := Error)
      else if r.active == [] then row.(action := Create)
      else row.(target := Some(r.active[0]),
                action := if WouldEnrich(customers[r.active[0]], row.profile) then Enriching else Unchanged)
  }

  function Preview(customers: seq<Customer>, rows: seq<Row>): seq<Row> {
    seq(|rows|, i requires 0 <= i < |rows| => Classified(customers, rows[i], Repeated(rows, rows[i])))
  }

  predicate ValidPreview(rows: seq<Row>) {
    forall i | 0 <= i < |rows| :: !rows[i].action.Error?
  }

  // ---- Commit ----

  datatype Applied = Applied(customers: seq<Customer>, customer: CustomerId)

  /** `None` when the row no longer fits the customers it was previewed against. */
  function Apply(customers: seq<Customer>, row: Row): (after: Option<Applied>)
    ensures after.Some? ==> after.value.customer < |after.value.customers|
  {
    var r := Resolve(customers, row.profile.email, row.key);
    if r.deleted != [] || |r.active| > 1 then None
    else if row.action.Create? then
      if r.active != [] then None
      else Some(Applied(customers + [FromProfile(row.profile)], |customers|))
    else if r.active == [] || row.target != Some(r.active[0]) then None
    else
      var id := r.active[0];
      var enrich := WouldEnrich(customers[id], row.profile);
      if row.action.Enriching? != enrich then None
      else if row.action.Enriching? then Some(Applied(customers[id := Enrich(customers[id], row.profile)], id))
      else Some(Applied(customers, id))
  }

  datatype Committed = Committed(customers: seq<Customer>, results: seq<CustomerId>)

  function CommitAll(customers: seq<Customer>, rows: seq<Row>): Option<Committed> {
    if rows == [] then Some(Committed(customers, []))
    else
      var before := CommitAll(customers, rows[..|rows| - 1]);
      if before.None? then None
      else
        var applied := Apply(before.value.customers, rows[|rows| - 1]);
        if applied.None? then None
        else Some(Committed(applied.value.customers, before.value.results + [applied.value.customer]))
  }

  // ---- Batches ----

  datatype Status = Valid | Invalid | CommittedStatus

  datatype Batch = Batch(clientId: Uuid, filename: string, digest: string, status: Status, version: nat, rows: seq<Row>,
                         command: Option<Uuid>, results: seq<CustomerId>)

  datatype Store = Store(customers: seq<Customer>, batches: seq<Batch>)

  datatype Refusal = NotFound | Reused | Stale

  /** The first batch stored for a client id. */
  function FindBatch(batches: seq<Batch>, clientId: Uuid): Option<nat> {
    if batches == [] then None
    else
      var earlier := FindBatch(batches[..|batches| - 1], clientId);
      if earlier.Some? then earlier
      else if batches[|batches| - 1].clientId == clientId then Some(|batches| - 1)
      else None
  }

  datatype DryRun = DryRun(store: Store, batch: nat)

  function DryRunImport(s: Store, clientId: Uuid, filename: string, digest: string, rows: seq<Row>)
    : Result<DryRun, Refusal>
  {
    var existing := FindBatch(s.batches, clientId);
    if existing.Some? then
      if existing.value < |s.batches| && s.batches[existing.value].digest == digest
         && s.batches[existing.value].filename == filename
      then Success(DryRun(s, existing.value)) else Failure(Reused)
    else
      var preview := Preview(s.customers, rows);
      var status := if ValidPreview(preview) then Valid else Invalid;
      Success(DryRun(s.(batches := s.batches + [Batch(clientId, filename, digest, status, 1, preview, None, [])]),
                     |s.batches|))
  }

  function CommitImport(s: Store, batch: nat, command: Uuid, expectedVersion: nat, digest: string)
    : Result<Store, Refusal>
  {
    if batch >= |s.batches| then Failure(NotFound)
    else
      var b := s.batches[batch];
      if b.status.CommittedStatus? then
        if b.command != Some(command) || b.version != expectedVersion || b.digest != digest then Failure(Reused)
        else Success(s)
      else if !b.status.Valid? || b.version != expectedVersion || b.digest != digest then Failure(Stale)
      else
        var done := CommitAll(s.customers, b.rows);
        if done.None? then Failure(Stale)
        else Success(Store(done.value.customers,
                           s.batches[batch := b.(status := CommittedStatus, command := Some(command),
                                                 results := done.value.results)]))
  }
}
