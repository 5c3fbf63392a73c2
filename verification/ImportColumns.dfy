/**
 The import end to end, column by column: what a record's five values become in the parsed row, which
 records are refused for what, and what a created customer holds after the commit.
 */
module ImportColumns {
  import opened Wrappers
  import opened Trimming
  import opened CustomerIdentity
  import opened CustomerImport
  import opened ImportStability
  import opened ImportTheorems

  // ---- Phones ----

  /** What a comparable phone drops: white space from tab to carriage return, spaces, hyphens and parentheses. */
  predicate Dropped(c: char) {
    '\t' <= c <= '\r' || c in " -()"
  }

  lemma CompactOne(c: char)
    ensures Compact([c]) == if Dropped(c) then "" else [c]
    ensures DigitCount([c]) == if c in "0123456789" then 1 else 0
  {
    assert [c][..0] == "";
    assert Compact("") == "" && DigitCount("") == 0;
  }

  /** With the single characters this says what a compact text and its digits are: each character on its own. */
  lemma {:induction false} CompactConcat(a: string, b: string)
    ensures Compact(a + b) == Compact(a) + Compact(b) && DigitCount(a + b) == DigitCount(a) + DigitCount(b)
  {
    if b == "" {
      assert a + b == a;
    } else {
      assert (a + b)[..|a + b| - 1] == a + b[..|b| - 1];
      CompactConcat(a, b[..|b| - 1]);
    }
  }

  lemma {:induction false} CompactKeepsDigits(s: string)
    ensures DigitCount(Compact(s)) == DigitCount(s)
  {
    if s != "" {
      var before, last := s[..|s| - 1], s[|s| - 1];
      CompactKeepsDigits(before);
      CompactOne(last);
      CompactConcat(Compact(before), [last]);
    }
  }

  lemma {:induction false} BlankHasNoDigits(s: string)
    requires Blank(s)
    ensures DigitCount(s) == 0
  {
    if s != "" {
      BlankHasNoDigits(s[..|s| - 1]);
    }
  }

  lemma NormalKeepsDigits(raw: string, v: string)
    requires NormalText(raw, Some(v))
    ensures DigitCount(v) == DigitCount(raw)
  {
    var before, after :| Blank(before) && Blank(after) && raw == before + v + after;
    CompactConcat(before + v, after);
    CompactConcat(before, v);
    BlankHasNoDigits(before);
    BlankHasNoDigits(after);
  }

  // ---- One record ----

  predicate LowerCased(v: string, e: string) {
    |e| == |v| && forall i | 0 <= i < |v| :: e[i] == if 'A' <= v[i] <= 'Z' then 'a' + (v[i] - 'A') else v[i]
  }

  /** The e-mail is the normal text in lower case. */
  ghost predicate NormalEmail(raw: string, email: Option<string>) {
    match email
    case None => Blank(raw)
    case Some(e) => exists v :: NormalText(raw, Some(v)) && LowerCased(v, e)
  }

  predicate FiveColumns(values: seq<string>) {
    |values| == 5 && forall i | 0 <= i < 5 :: |values[i]| <= 500
  }

  /** Each field comes from its own column. */
  ghost predicate FromColumns(p: Profile, values: seq<string>)
    requires |values| == 5
  {
    && NormalName(values[0], p.name)
    && NormalText(values[1], p.company)
    && NormalEmail(values[2], p.email)
    && NormalText(values[3], p.phone)
    && NormalText(values[4], p.province)
  }

  lemma EmailIsNormal(raw: string)
    ensures NormalEmail(raw, NormalizedEmail(Some(raw)))
  {
    StripIsNormal(raw);
    if NormalizedEmail(Some(raw)).Some? {
      LowerIs(Strip(raw), NormalizedEmail(Some(raw)).value);
      assert NormalText(raw, Some(Strip(raw))) && LowerCased(Strip(raw), NormalizedEmail(Some(raw)).value);
    }
  }

  lemma ParsedColumns(number: nat, values: seq<string>, emailOk: string -> bool)
    requires FiveColumns(values)
    ensures var row := ParseRow(number, values, emailOk);
            row.number == number && row.target.None? && FromColumns(row.profile, values)
  {
    StripIsNormal(values[0]);
    StripIsNormal(values[1]);
    EmailIsNormal(values[2]);
    StripIsNormal(values[3]);
    StripIsNormal(values[4]);
  }

  /** The phone is matched without its separators, when it has at least seven digits. */
  lemma ParsedKey(number: nat, values: seq<string>, emailOk: string -> bool)
    requires FiveColumns(values)
    ensures var row := ParseRow(number, values, emailOk);
            && (row.key.Some? <==> !Blank(values[3]) && DigitCount(values[3]) >= 7)
            && (row.key.Some? ==> row.profile.phone.Some? && row.key.value == Compact(row.profile.phone.value))
  {
    KeyOf(values[3]);
  }

  lemma KeyOf(raw: string)
    ensures var phone := OptionalText(Some(raw));
            var key := ComparablePhone(phone);
            && (key.Some? <==> !Blank(raw) && DigitCount(raw) >= 7)
            && (key.Some? ==> phone.Some? && key.value == Compact(phone.value))
  {
    StripIsNormal(raw);
    if !Blank(raw) {
      var v := Strip(raw);
      StripIsTrimmed(raw);
      assert OptionalText(Some(v)) == Some(v);
      NormalKeepsDigits(raw, v);
      CompactKeepsDigits(v);
    }
  }

  /** The issue of each record: its shape, then its name, then its e-mail, then its phone. */
  lemma IssueIff(number: nat, values: seq<string>, emailOk: string -> bool)
    ensures var row := ParseRow(number, values, emailOk);
            && (row.issue == Some(InvalidRow) <==> !FiveColumns(values))
            && (row.issue == Some(MissingName) <==> FiveColumns(values) && Blank(values[0]))
            && (row.issue == Some(InvalidEmail) <==>
                  FiveColumns(values) && !Blank(values[0]) && RefusedEmail(values[2], emailOk))
            && (row.issue == Some(InvalidPhone) <==>
                  FiveColumns(values) && !Blank(values[0]) && !RefusedEmail(values[2], emailOk)
                  && !Blank(values[3]) && DigitCount(values[3]) < 7)
            && row.issue in {None, Some(InvalidRow), Some(MissingName), Some(InvalidEmail), Some(InvalidPhone)}
  {
    if FiveColumns(values) {
      StripIsNormal(values[0]);
      StripIsNormal(values[3]);
      EmailRefusedIff(values[2], emailOk);
      ParsedKey(number, values, emailOk);
    }
  }

  /** There is an e-mail, and the format check refuses its normal form. */
  ghost predicate RefusedEmail(raw: string, emailOk: string -> bool) {
    exists e :: NormalEmail(raw, Some(e)) && !emailOk(e)
  }

  lemma EmailRefusedIff(raw: string, emailOk: string -> bool)
    ensures RefusedEmail(raw, emailOk)
            <==> NormalizedEmail(Some(raw)).Some? && !emailOk(NormalizedEmail(Some(raw)).value)
  {
    EmailIsNormal(raw);
    if RefusedEmail(raw, emailOk) {
      var e :| NormalEmail(raw, Some(e)) && !emailOk(e);
      EmailUnique(raw, e);
    }
  }

  lemma EmailUnique(raw: string, e: string)
    requires NormalEmail(raw, Some(e))
    ensures NormalizedEmail(Some(raw)) == Some(e)
  {
    var v :| NormalText(raw, Some(v)) && LowerCased(v, e);
    StripIsNormal(raw);
    NormalTextUnique(raw, Some(v), OptionalText(Some(raw)));
    LowerIs(v, e);
  }

  lemma LowerCharIs(c: char)
    ensures LowerChar(c) == if 'A' <= c <= 'Z' then 'a' + (c - 'A') else c
  {
  }

  lemma LowerIs(v: string, e: string)
    ensures LowerCased(v, e) <==> Lower(v) == e
  {
    forall i | 0 <= i < |v| ensures Lower(v)[i] == if 'A' <= v[i] <= 'Z' then 'a' + (v[i] - 'A') else v[i] {
      LowerCharIs(v[i]);
    }
  }

  // ---- From the file to the customers ----

  /** The rows of a file's records; the header is line one. */
  function ParseAll(records: seq<seq<string>>, emailOk: string -> bool): seq<Row> {
    seq(|records|, k requires 0 <= k < |records| => ParseRow(k + 2, records[k], emailOk))
  }

  /** The customer holds what the five columns say. */
  ghost predicate HoldsRecord(c: Customer, values: seq<string>)
    requires |values| == 5
  {
    !c.deleted && FromColumns(Profile(c.name, c.company, c.email, c.phone, c.province), values)
  }

  lemma {:induction false} CreatedPlace(was: seq<Customer>, rows: seq<Row>, i: nat)
    requires i < |rows| && rows[i].action.Create? && CommitAll(was, rows).Some?
    ensures var done := CommitAll(was, rows).value;
            && |done.results| == |rows| && done.results[i] == |was| + |Created(rows[..i])|
            && |Created(rows[..i])| < |Created(rows)|
            && Created(rows)[|Created(rows[..i])|] == FromProfile(rows[i].profile)
  {
    var last := |rows| - 1;
    ResultPerRow(was, rows);
    ResultPerRow(was, rows[..last]);
    CreatedCount(was, rows[..last]);
    if i < last {
      assert rows[..last][..i] == rows[..i];
      CreatedPlace(was, rows[..last], i);
    }
  }

  lemma {:induction false} CreatedCount(was: seq<Customer>, rows: seq<Row>)
    requires CommitAll(was, rows).Some?
    ensures |CommitAll(was, rows).value.customers| == |was| + |Created(rows)|
  {
    if rows != [] {
      CreatedCount(was, rows[..|rows| - 1]);
    }
  }

  lemma CreatedCustomer(customers: seq<Customer>, rows: seq<Row>, i: nat)
    requires AllFit(customers, rows) && CommitAll(customers, rows).Some? && i < |rows| && rows[i].action.Create?
    ensures var done := CommitAll(customers, rows).value;
            && |done.results| == |rows| && |customers| <= done.results[i] < |done.customers|
            && done.customers[done.results[i]] == FromProfile(rows[i].profile)
  {
    CommitAllIff(customers, rows);
    CreatedPlace(customers, rows, i);
    var now := CommitAll(customers, rows).value.customers;
    assert now[|customers|..] == Created(rows);
    assert now[|customers| + |Created(rows[..i])|] == Created(rows)[|Created(rows[..i])|];
  }

  lemma PreviewedRecord(customers: seq<Customer>, records: seq<seq<string>>, emailOk: string -> bool, i: nat)
    requires i < |records| && Preview(customers, ParseAll(records, emailOk))[i].action.Create?
    ensures |records[i]| == 5
    ensures HoldsRecord(FromProfile(Preview(customers, ParseAll(records, emailOk))[i].profile), records[i])
  {
    var row := ParseAll(records, emailOk)[i];
    IssueIff(i + 2, records[i], emailOk);
    ParsedIsWellFormed(i + 2, records[i], emailOk);
    assert row.issue.None?;
    ParsedColumns(i + 2, records[i], emailOk);
  }

  lemma AllParsed(records: seq<seq<string>>, emailOk: string -> bool)
    ensures forall k | 0 <= k < |records| :: Parsed(ParseAll(records, emailOk)[k])
  {
    forall k | 0 <= k < |records| ensures Parsed(ParseAll(records, emailOk)[k]) {
      ParsedIsWellFormed(k + 2, records[k], emailOk);
    }
  }

  /** A row that creates leaves, after the whole commit, a customer with exactly the values of its record. */
  lemma CreatedHoldsRecord(customers: seq<Customer>, records: seq<seq<string>>, emailOk: string -> bool, i: nat)
    requires var preview := Preview(customers, ParseAll(records, emailOk));
             && ValidPreview(preview) && CommitAll(customers, preview).Some?
             && i < |records| && preview[i].action.Create?
    ensures |records[i]| == 5
    ensures var done := CommitAll(customers, Preview(customers, ParseAll(records, emailOk))).value;
            && |done.results| == |records| && |customers| <= done.results[i] < |done.customers|
            && HoldsRecord(done.customers[done.results[i]], records[i])
  {
    AllParsed(records, emailOk);
    ValidPreviewFits(customers, ParseAll(records, emailOk));
    CreatedCustomer(customers, Preview(customers, ParseAll(records, emailOk)), i);
    PreviewedRecord(customers, records, emailOk, i);
  }

  /** The same through the service: preview a file, commit its batch, and look at what a new customer holds. */
  lemma ImportedEndToEnd(s: Store, clientId: Uuid, filename: string, digest: string, records: seq<seq<string>>,
                         emailOk: string -> bool, command: Uuid, i: nat)
    requires FindBatch(s.batches, clientId).None?
    requires var dry := DryRunImport(s, clientId, filename, digest, ParseAll(records, emailOk)).value;
             && CommitImport(dry.store, dry.batch, command, 1, digest).Success?
             && i < |records| && dry.store.batches[dry.batch].rows[i].action.Create?
    ensures |records[i]| == 5
    ensures var dry := DryRunImport(s, clientId, filename, digest, ParseAll(records, emailOk)).value;
            var done := CommitImport(dry.store, dry.batch, command, 1, digest).value;
            && |done.batches[dry.batch].results| == |records|
            && |s.customers| <= done.batches[dry.batch].results[i] < |done.customers|
            && HoldsRecord(done.customers[done.batches[dry.batch].results[i]], records[i])
  {
    var dry := DryRunImport(s, clientId, filename, digest, ParseAll(records, emailOk)).value;
    assert dry.store.batches[dry.batch].rows == Preview(s.customers, ParseAll(records, emailOk));
    CreatedHoldsRecord(s.customers, records, emailOk, i);
  }
}
