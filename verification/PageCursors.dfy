/**
 The two listings that are read page by page, notes and current losses: their orders, their
 cursor filters as the queries write them, and their cursors as text.
 */
module PageCursors {
  import opened Wrappers
  import opened KeysetPages
  import Base64Url
  import Decimals

  type Time = int

  /** Pinned notes first, then the newest revision, then the largest id. */
  datatype NoteKey = NoteKey(pinned: bool, at: Time, id: nat)

  /** The newest loss first, then the largest id. */
  datatype LossKey = LossKey(at: Time, id: nat)

  predicate NoteBefore(a: NoteKey, b: NoteKey) {
    (a.pinned && !b.pinned) || (a.pinned == b.pinned && (a.at > b.at || (a.at == b.at && a.id > b.id)))
  }

  predicate LossBefore(a: LossKey, b: LossKey) {
    a.at > b.at || (a.at == b.at && a.id > b.id)
  }

  /** The note query's filter: unpinned notes further down, and after a pinned cursor also pinned ones. */
  predicate NoteFilter(row: NoteKey, cursor: NoteKey) {
    var sameGroupAfter := row.at < cursor.at || (row.at == cursor.at && row.id < cursor.id);
    if cursor.pinned then !row.pinned || (row.pinned && sameGroupAfter) else !row.pinned && sameGroupAfter
  }

  predicate LossFilter(row: LossKey, cursor: LossKey) {
    row.at < cursor.at || (row.at == cursor.at && row.id < cursor.id)
  }

  /** Both filters select exactly what comes after the cursor in their order. */
  lemma FiltersFollowOrders()
    ensures StrictOrder(NoteBefore) && SelectsAfter(NoteBefore, NoteFilter)
    ensures StrictOrder(LossBefore) && SelectsAfter(LossBefore, LossFilter)
  {
    forall a: NoteKey, b: NoteKey ensures a == b || NoteBefore(a, b) || NoteBefore(b, a) {
    }
    forall a: LossKey, b: LossKey ensures a == b || LossBefore(a, b) || LossBefore(b, a) {
    }
  }

  // ---- Cursors as text ----

  predicate Ascii(s: string) {
    forall i | 0 <= i < |s| :: s[i] as int < 128
  }

  /** How the library writes and reads a time. */
  datatype TimeText = TimeText(show: Time -> string, read: string -> Option<Time>)

  /** What is asked of it: reading undoes writing, in ASCII without the separator. */
  ghost predicate Faithful(tt: TimeText) {
    forall t :: tt.read(tt.show(t)) == Some(t) && Ascii(tt.show(t)) && '|' !in tt.show(t)
  }

  /** The UTF-8 bytes of an ASCII text. */
  function Codes(s: string): (bytes: seq<nat>)
    requires Ascii(s)
    ensures Base64Url.Bytes(bytes)
  {
    seq(|s|, i requires 0 <= i < |s| => s[i] as int)
  }

  function FromCodes(bytes: seq<nat>): Option<string> {
    if exists i | 0 <= i < |bytes| :: bytes[i] >= 128 then None
    else Some(seq(|bytes|, i requires 0 <= i < |bytes| => bytes[i] as char))
  }

  function EncodeText(s: string): string
    requires Ascii(s)
  {
    Base64Url.Stripped(Base64Url.Encode(Codes(s)))
  }

  function DecodeText(cursor: string): Option<string> {
    var bytes := Base64Url.Decode(Base64Url.Padded(cursor));
    if bytes.None? then None else FromCodes(bytes.value)
  }

  lemma TextRoundTrip(s: string)
    requires Ascii(s)
    ensures DecodeText(EncodeText(s)) == Some(s)
  {
    Base64Url.UnpaddedRoundTrip(Codes(s));
    CodesRoundTrip(s);
  }

  lemma CodesRoundTrip(s: string)
    requires Ascii(s)
    ensures FromCodes(Codes(s)) == Some(s)
  {
    assert forall i | 0 <= i < |s| :: Codes(s)[i] < 128 && Codes(s)[i] as char == s[i];
    assert FromCodes(Codes(s)).value == s;
  }

  /** The part before the first separator and the rest behind it. */
  function SplitOnce(s: string): Option<(string, string)> {
    if s == "" then None
    else if s[0] == '|' then Some(("", s[1..]))
    else
      var rest := SplitOnce(s[1..]);
      if rest.None? then None else Some(([s[0]] + rest.value.0, rest.value.1))
  }

  lemma {:induction false} SplitAtSeparator(a: string, b: string)
    requires '|' !in a
    ensures SplitOnce(a + "|" + b) == Some((a, b))
  {
    var s := a + "|" + b;
    if a == "" {
      assert s[1..] == b;
    } else {
      assert s[1..] == a[1..] + "|" + b && s[0] == a[0];
      assert a[0] in a && a == [a[0]] + a[1..];
      SplitAtSeparator(a[1..], b);
    }
  }

  function ParseId(s: string): Option<nat> {
    if s == "" || exists i | 0 <= i < |s| :: !('0' <= s[i] <= '9') then None else Some(Decimals.Value(s))
  }

  function LossText(tt: TimeText, k: LossKey): string {
    tt.show(k.at) + "|" + Decimals.Decimal(k.id)
  }

  function NoteText(tt: TimeText, k: NoteKey): string {
    (if k.pinned then "1" else "0") + "|" + LossText(tt, LossKey(k.at, k.id))
  }

  function ReadLoss(tt: TimeText, s: string): Option<LossKey> {
    var parts := SplitOnce(s);
    if parts.None? then None
    else
      var at := tt.read(parts.value.0);
      var id := ParseId(parts.value.1);
      if at.None? || id.None? || id.value == 0 then None else Some(LossKey(at.value, id.value))
  }

  function ReadNote(tt: TimeText, s: string): Option<NoteKey> {
    var parts := SplitOnce(s);
    if parts.None? || (parts.value.0 != "0" && parts.value.0 != "1") then None
    else
      var rest := ReadLoss(tt, parts.value.1);
      if rest.None? then None else Some(NoteKey(parts.value.0 == "1", rest.value.at, rest.value.id))
  }

  lemma LossTextIsAscii(tt: TimeText, k: LossKey)
    requires Faithful(tt)
    ensures Ascii(LossText(tt, k))
  {
  }

  lemma NoteTextIsAscii(tt: TimeText, k: NoteKey)
    requires Faithful(tt)
    ensures Ascii(NoteText(tt, k))
  {
    LossTextIsAscii(tt, LossKey(k.at, k.id));
  }

  ghost function EncodeLoss(tt: TimeText, k: LossKey): string
    requires Faithful(tt)
  {
    LossTextIsAscii(tt, k);
    EncodeText(LossText(tt, k))
  }

  ghost function EncodeNote(tt: TimeText, k: NoteKey): string
    requires Faithful(tt)
  {
    NoteTextIsAscii(tt, k);
    EncodeText(NoteText(tt, k))
  }

  function DecodeLoss(tt: TimeText, cursor: string): Option<LossKey> {
    var text := DecodeText(cursor);
    if text.None? then None else ReadLoss(tt, text.value)
  }

  function DecodeNote(tt: TimeText, cursor: string): Option<NoteKey> {
    var text := DecodeText(cursor);
    if text.None? then None else ReadNote(tt, text.value)
  }

  lemma ReadLossBack(tt: TimeText, k: LossKey)
    requires Faithful(tt) && k.id > 0
    ensures ReadLoss(tt, LossText(tt, k)) == Some(k)
  {
    SplitAtSeparator(tt.show(k.at), Decimals.Decimal(k.id));
    Decimals.DecimalRoundTrip(k.id);
  }

  /** Decoding a loss cursor gives back the key it was made from. */
  lemma LossCursorRoundTrip(tt: TimeText, k: LossKey)
    requires Faithful(tt) && k.id > 0
    ensures DecodeLoss(tt, EncodeLoss(tt, k)) == Some(k) && EncodeLoss(tt, k) != ""
  {
    LossTextIsAscii(tt, k);
    TextRoundTrip(LossText(tt, k));
    ReadLossBack(tt, k);
    NonEmptyCursor(LossText(tt, k));
  }

  /** Decoding a note cursor gives back the key it was made from. */
  lemma NoteCursorRoundTrip(tt: TimeText, k: NoteKey)
    requires Faithful(tt) && k.id > 0
    ensures DecodeNote(tt, EncodeNote(tt, k)) == Some(k)
  {
    NoteTextIsAscii(tt, k);
    TextRoundTrip(NoteText(tt, k));
    ReadLossBack(tt, LossKey(k.at, k.id));
    SplitAtSeparator(if k.pinned then "1" else "0", LossText(tt, LossKey(k.at, k.id)));
  }

  lemma EmptyCursorIsEmptyText()
    ensures DecodeText("") == Some("")
  {
    assert Base64Url.Padded("") == "" && Base64Url.Values("") == [];
    assert FromCodes([]).value == "";
  }

  /** The text of a key is never empty, and neither is its cursor; an empty cursor means the first page. */
  lemma NonEmptyCursor(s: string)
    requires Ascii(s) && s != ""
    ensures EncodeText(s) != ""
  {
    TextRoundTrip(s);
    EmptyCursorIsEmptyText();
  }

  // ---- Pages by text cursor ----

  datatype TextPage<K> = TextPage(items: seq<K>, next: Option<string>)

  ghost function NextText<K>(page: Page<K>, encode: K -> string): TextPage<K> {
    TextPage(page.items, if page.next.None? then None else Some(encode(page.next.value)))
  }

  /** A page of notes; `None` when the cursor is refused. */
  ghost function NotePage(tt: TimeText, rows: seq<NoteKey>, limit: nat, cursor: Option<string>)
    : Option<TextPage<NoteKey>>
    requires Faithful(tt)
  {
    var fetch := Fetch(rows, NoteBefore, NoteFilter, limit);
    if cursor.None? then Some(NextText(fetch(None), k => EncodeNote(tt, k)))
    else
      var key := DecodeNote(tt, cursor.value);
      if key.None? then None else Some(NextText(fetch(key), k => EncodeNote(tt, k)))
  }

  /** A page of losses; an empty cursor counts as none. */
  ghost function LossPage(tt: TimeText, rows: seq<LossKey>, limit: nat, cursor: Option<string>)
    : Option<TextPage<LossKey>>
    requires Faithful(tt)
  {
    var fetch := Fetch(rows, LossBefore, LossFilter, limit);
    if cursor.None? || cursor.value == "" then Some(NextText(fetch(None), k => EncodeLoss(tt, k)))
    else
      var key := DecodeLoss(tt, cursor.value);
      if key.None? then None else Some(NextText(fetch(key), k => EncodeLoss(tt, k)))
  }

  /** What a client collects that passes each page's cursor back until there is none. */
  ghost predicate Reads<K(!new)>(fetch: Option<string> -> Option<TextPage<K>>, cursor: Option<string>,
                                 pages: seq<seq<K>>)
    decreases |pages|
  {
    pages != []
    && var page := fetch(cursor);
    && page.Some? && pages[0] == page.value.items
    && if page.value.next.None? then |pages| == 1 else Reads(fetch, page.value.next, pages[1..])
  }

  ghost predicate ReadsNotes(tt: TimeText, rows: seq<NoteKey>, limit: nat, cursor: Option<string>,
                             pages: seq<seq<NoteKey>>)
    requires Faithful(tt)
  {
    Reads(c => NotePage(tt, rows, limit, c), cursor, pages)
  }

  ghost predicate ReadsLosses(tt: TimeText, rows: seq<LossKey>, limit: nat, cursor: Option<string>,
                              pages: seq<seq<LossKey>>)
    requires Faithful(tt)
  {
    Reads(c => LossPage(tt, rows, limit, c), cursor, pages)
  }

  predicate PositiveNotes(rows: seq<NoteKey>) {
    forall i | 0 <= i < |rows| :: rows[i].id > 0
  }

  predicate PositiveLosses(rows: seq<LossKey>) {
    forall i | 0 <= i < |rows| :: rows[i].id > 0
  }

  lemma NextIsRow<K(!new)>(rows: seq<K>, before: (K, K) -> bool, after: (K, K) -> bool, limit: nat, cursor: Option<K>)
    requires StrictOrder(before) && Distinct(rows)
    ensures var page := Fetch(rows, before, after, limit)(cursor);
            page.next.Some? ==> page.next.value in rows
  {
    MatchingMembers(rows, after, cursor);
    SortedIncreases(Matching(rows, after, cursor), before);
    var sorted := Sorted(Matching(rows, after, cursor), before);
    var found := FirstOf(sorted, limit + 1);
    var visible := FirstOf(found, limit);
    assert forall i | 0 <= i < |visible| :: visible[i] == sorted[i];
  }

  /** Reading by text cursors is following the keys that the texts stand for. */
  lemma {:induction false} NotesReadAsKeys(tt: TimeText, rows: seq<NoteKey>, limit: nat, cursor: Option<NoteKey>,
                                           pages: seq<seq<NoteKey>>)
    requires Faithful(tt) && Distinct(rows) && PositiveNotes(rows) && (cursor.Some? ==> cursor.value.id > 0)
    ensures ReadsNotes(tt, rows, limit, if cursor.None? then None else Some(EncodeNote(tt, cursor.value)), pages)
            <==> Follows(Fetch(rows, NoteBefore, NoteFilter, limit), cursor, pages)
    decreases |pages|
  {
    FiltersFollowOrders();
    var fetch := Fetch(rows, NoteBefore, NoteFilter, limit);
    if cursor.Some? {
      NoteCursorRoundTrip(tt, cursor.value);
    }
    NextIsRow(rows, NoteBefore, NoteFilter, limit, cursor);
    if pages != [] && fetch(cursor).next.Some? {
      NotesReadAsKeys(tt, rows, limit, fetch(cursor).next, pages[1..]);
    }
  }

  /** Reading by text cursors is following the keys that the texts stand for. */
  lemma {:induction false} LossesReadAsKeys(tt: TimeText, rows: seq<LossKey>, limit: nat, cursor: Option<LossKey>,
                                           pages: seq<seq<LossKey>>)
    requires Faithful(tt) && Distinct(rows) && PositiveLosses(rows) && (cursor.Some? ==> cursor.value.id > 0)
    ensures ReadsLosses(tt, rows, limit, if cursor.None? then None else Some(EncodeLoss(tt, cursor.value)), pages)
            <==> Follows(Fetch(rows, LossBefore, LossFilter, limit), cursor, pages)
    decreases |pages|
  {
    FiltersFollowOrders();
    var fetch := Fetch(rows, LossBefore, LossFilter, limit);
    if cursor.Some? {
      LossCursorRoundTrip(tt, cursor.value);
    }
    NextIsRow(rows, LossBefore, LossFilter, limit, cursor);
    if pages != [] && fetch(cursor).next.Some? {
      LossesReadAsKeys(tt, rows, limit, fetch(cursor).next, pages[1..]);
    }
  }

  /** Passing the cursors back from the first page on comes to an end. */
  lemma NotesReadingEnds(tt: TimeText, rows: seq<NoteKey>, limit: nat)
    requires Faithful(tt) && Distinct(rows) && PositiveNotes(rows) && limit >= 1
    ensures exists pages :: ReadsNotes(tt, rows, limit, None, pages)
  {
    FiltersFollowOrders();
    FollowingEnds(rows, NoteBefore, NoteFilter, limit);
    var pages :| Follows(Fetch(rows, NoteBefore, NoteFilter, limit), None, pages);
    NotesReadAsKeys(tt, rows, limit, None, pages);
  }

  /** Passing the cursors back from the first page on comes to an end. */
  lemma LossesReadingEnds(tt: TimeText, rows: seq<LossKey>, limit: nat)
    requires Faithful(tt) && Distinct(rows) && PositiveLosses(rows) && limit >= 1
    ensures exists pages :: ReadsLosses(tt, rows, limit, None, pages)
  {
    FiltersFollowOrders();
    FollowingEnds(rows, LossBefore, LossFilter, limit);
    var pages :| Follows(Fetch(rows, LossBefore, LossFilter, limit), None, pages);
    LossesReadAsKeys(tt, rows, limit, None, pages);
  }

  /** A client that passes the cursors back reads every note once, in the listing's order. */
  lemma NotesReadOnce(tt: TimeText, rows: seq<NoteKey>, limit: nat, pages: seq<seq<NoteKey>>)
    requires Faithful(tt) && Distinct(rows) && PositiveNotes(rows) && limit >= 1
    requires ReadsNotes(tt, rows, limit, None, pages)
    ensures Concat(pages) == Sorted(rows, NoteBefore)
    ensures Increasing(Concat(pages), NoteBefore) && forall x :: x in Concat(pages) <==> x in rows
    ensures |pages| == PagesFor(|rows|, limit)
  {
    FiltersFollowOrders();
    NotesReadAsKeys(tt, rows, limit, None, pages);
    PagesAreTheSortedList(rows, NoteBefore, NoteFilter, limit, pages);
    SortedIncreases(rows, NoteBefore);
  }

  /** A client that passes the cursors back reads every current loss once, newest first. */
  lemma LossesReadOnce(tt: TimeText, rows: seq<LossKey>, limit: nat, pages: seq<seq<LossKey>>)
    requires Faithful(tt) && Distinct(rows) && PositiveLosses(rows) && limit >= 1
    requires ReadsLosses(tt, rows, limit, None, pages)
    ensures Concat(pages) == Sorted(rows, LossBefore)
    ensures Increasing(Concat(pages), LossBefore) && forall x :: x in Concat(pages) <==> x in rows
    ensures |pages| == PagesFor(|rows|, limit)
  {
    FiltersFollowOrders();
    LossesReadAsKeys(tt, rows, limit, None, pages);
    PagesAreTheSortedList(rows, LossBefore, LossFilter, limit, pages);
    SortedIncreases(rows, LossBefore);
  }
}
