/**
 Notes on opportunities: every edit appends a revision, guarded by the revision it expects, and
 the listing shows the latest revision of each note.
 */
module OpportunityNotes {
  import opened Wrappers
  import opened Trimming
  import opened Tables
  import opened PageCursors
  import KeysetPages

  type NoteId = nat
  type OpportunityId = nat
  type UserId = nat
  type Uuid = nat

  datatype Note = Note(opportunity: OpportunityId, author: UserId)

  datatype Revision = Revision(note: NoteId, number: nat, body: string, pinned: bool, actor: UserId, command: Uuid,
                               at: Time)

  /** `opportunities` are the ones that exist and are not deleted. */
  datatype Notebook = Notebook(notes: seq<Note>, revisions: seq<Revision>, opportunities: set<OpportunityId>,
                               users: set<UserId>)

  datatype Error = NotFound | CommandReused | RevisionConflict | InvalidBody

  const MAX_BODY := 20000

  /** Carriage returns, alone or before a line feed, become line feeds. */
  function LineFeeds(s: string): string {
    if s == "" then ""
    else if s[0] == '\r' then ['\n'] + LineFeeds(if |s| > 1 && s[1] == '\n' then s[2..] else s[1..])
    else [s[0]] + LineFeeds(s[1..])
  }

  function NormalizedBody(body: string): Result<string, Error> {
    var text := Strip(LineFeeds(body));
    if text == "" || |text| > MAX_BODY then Failure(InvalidBody) else Success(text)
  }

  function FindCommand(revisions: seq<Revision>, command: Uuid): (found: Option<nat>)
    ensures found.Some? ==> found.value < |revisions| && revisions[found.value].command == command
    ensures found.None? ==> forall i | 0 <= i < |revisions| :: revisions[i].command != command
  {
    if revisions == [] then None
    else if revisions[|revisions| - 1].command == command then Some(|revisions| - 1)
    else FindCommand(revisions[..|revisions| - 1], command)
  }

  /** The revision with the highest number. */
  function Latest(revisions: seq<Revision>, note: NoteId): (latest: Option<nat>)
    ensures latest.Some? ==> latest.value < |revisions| && revisions[latest.value].note == note
    ensures latest.Some? ==> forall i | 0 <= i < |revisions| && revisions[i].note == note ::
                               revisions[i].number <= revisions[latest.value].number
    ensures latest.None? ==> forall i | 0 <= i < |revisions| :: revisions[i].note != note
  {
    if revisions == [] then None
    else
      var last := |revisions| - 1;
      var before := Latest(revisions[..last], note);
      if revisions[last].note == note && (before.None? || revisions[last].number >= revisions[before.value].number)
      then Some(last) else before
  }

  function CreateNote(b: Notebook, opportunity: OpportunityId, command: Uuid, body: string, pinned: bool,
                      actor: UserId, at: Time)
    : Result<Notebook, Error>
  {
    var text := NormalizedBody(body);
    if text.Failure? then Failure(text.error)
    else
      var replay := FindCommand(b.revisions, command);
      if replay.Some? then
        var r := b.revisions[replay.value];
        if r.note < |b.notes| && b.notes[r.note].opportunity == opportunity && r.number == 1 && r.body == text.value
           && r.pinned == pinned && r.actor == actor
        then Success(b) else Failure(CommandReused)
      else if opportunity !in b.opportunities || actor !in b.users then Failure(NotFound)
      else Success(b.(notes := b.notes + [Note(opportunity, actor)],
                      revisions := b.revisions + [Revision(|b.notes|, 1, text.value, pinned, actor, command, at)]))
  }

  function GivenBody(body: Option<string>): Result<Option<string>, Error> {
    if body.None? then Success(None)
    else
      var text := NormalizedBody(body.value);
      if text.Failure? then Failure(text.error) else Success(Some(text.value))
  }

  predicate SameRevision(b: Notebook, r: Revision, opportunity: OpportunityId, note: NoteId, expected: nat,
                         body: Option<string>, pinned: Option<bool>, actor: UserId) {
    && r.note == note && note < |b.notes| && b.notes[note].opportunity == opportunity && r.actor == actor
    && r.number == expected + 1
    && (body.Some? ==> r.body == body.value) && (pinned.Some? ==> r.pinned == pinned.value)
  }

  /** A revision under a command that is new. */
  function NextRevision(b: Notebook, opportunity: OpportunityId, note: NoteId, command: Uuid, expected: nat,
                        body: Option<string>, pinned: Option<bool>, actor: UserId, at: Time): Result<Notebook, Error>
  {
    if opportunity !in b.opportunities then Failure(NotFound)
    else if note >= |b.notes| || b.notes[note].opportunity != opportunity then Failure(NotFound)
    else
      var latest := Latest(b.revisions, note);
      if latest.None? then Failure(NotFound)
      else
        var current := b.revisions[latest.value];
        var nextBody := if body.Some? then body.value else current.body;
        var nextPin := if pinned.Some? then pinned.value else current.pinned;
        if current.number != expected then Failure(RevisionConflict)
        else if nextBody == current.body && nextPin == current.pinned then Failure(RevisionConflict)
        else if actor !in b.users then Failure(NotFound)
        else Success(b.(revisions := b.revisions
                                     + [Revision(note, current.number + 1, nextBody, nextPin, actor, command, at)]))
  }

  function ReviseNote(b: Notebook, opportunity: OpportunityId, note: NoteId, command: Uuid, expected: nat,
                      body: Option<string>, pinned: Option<bool>, actor: UserId, at: Time): Result<Notebook, Error>
  {
    var text := GivenBody(body);
    if text.Failure? then Failure(text.error)
    else
      var replay := FindCommand(b.revisions, command);
      if replay.Some? then
        if SameRevision(b, b.revisions[replay.value], opportunity, note, expected, text.value, pinned, actor)
        then Success(b) else Failure(CommandReused)
      else NextRevision(b, opportunity, note, command, expected, text.value, pinned, actor, at)
  }

  // ---- Runs ----

  datatype Action =
    | DoCreate(opportunity: OpportunityId, command: Uuid, text: string, pin: bool, actor: UserId, at: Time)
    | DoRevise(opportunity: OpportunityId, note: NoteId, command: Uuid, expected: nat, body: Option<string>,
               pinned: Option<bool>, actor: UserId, at: Time)
    | WorldChanged(opportunities: set<OpportunityId>, users: set<UserId>)

  function Outcome(b: Notebook, a: Action): Result<Notebook, Error> {
    match a
    case DoCreate(opportunity, command, text, pin, actor, at) =>
      CreateNote(b, opportunity, command, text, pin, actor, at)
    case DoRevise(opportunity, note, command, expected, body, pinned, actor, at) =>
      ReviseNote(b, opportunity, note, command, expected, body, pinned, actor, at)
    case WorldChanged(opportunities, users) => Success(b.(opportunities := opportunities, users := users))
  }

  function Step(b: Notebook, a: Action): Notebook {
    var outcome := Outcome(b, a);
    if outcome.Success? then outcome.value else b
  }

  function Run(b: Notebook, actions: seq<Action>): Notebook {
    if actions == [] then b else Step(Run(b, actions[..|actions| - 1]), actions[|actions| - 1])
  }

  // ---- What every run keeps ----

  function OfNote(note: NoteId): Revision -> bool {
    (r: Revision) => r.note == note
  }

  function HistoryOf(revisions: seq<Revision>, note: NoteId): seq<Revision> {
    Select(revisions, OfNote(note))
  }

  /** Numbered from one without a gap. */
  predicate Numbered(history: seq<Revision>) {
    forall k | 0 <= k < |history| :: history[k].number == k + 1
  }

  /** Each revision changes something. */
  predicate NoIdleRevision(history: seq<Revision>) {
    forall k | 0 < k < |history| ::
      history[k].body != history[k - 1].body || history[k].pinned != history[k - 1].pinned
  }

  predicate NoteInv(b: Notebook, note: NoteId) {
    var history := HistoryOf(b.revisions, note);
    history != [] && Numbered(history) && NoIdleRevision(history)
  }

  predicate NotebookInv(b: Notebook) {
    && (forall i | 0 <= i < |b.revisions| :: b.revisions[i].note < |b.notes|)
    && (forall note | 0 <= note < |b.notes| :: NoteInv(b, note))
    && (forall i, j | 0 <= i < j < |b.revisions| :: b.revisions[i].command != b.revisions[j].command)
  }

  /** The highest number is the newest revision's. */
  lemma {:induction false} LatestIsNewest(revisions: seq<Revision>, note: NoteId)
    requires Numbered(HistoryOf(revisions, note))
    ensures var history := HistoryOf(revisions, note);
            var latest := Latest(revisions, note);
            if history == [] then latest.None? else latest.Some? && revisions[latest.value] == history[|history| - 1]
  {
    if revisions != [] {
      var before := HistoryOf(revisions[..|revisions| - 1], note);
      var history := HistoryOf(revisions, note);
      assert history == before || history[..|before|] == before;
      assert forall k | 0 <= k < |before| :: before[k] == history[k];
      LatestIsNewest(revisions[..|revisions| - 1], note);
      if revisions[|revisions| - 1].note == note && before != [] {
        assert history[|before|].number == before[|before| - 1].number + 1;
      }
    }
  }

  lemma AppendKeeps(b: Notebook, after: Notebook, r: Revision, note: NoteId)
    requires after.revisions == b.revisions + [r] && NoteInv(b, note) && r.note != note
    ensures NoteInv(after, note)
  {
    SelectSnoc(b.revisions, r, OfNote(note));
  }

  lemma CreateKeeps(b: Notebook, opportunity: OpportunityId, command: Uuid, body: string, pinned: bool, actor: UserId,
                    at: Time)
    requires NotebookInv(b)
    ensures var after := CreateNote(b, opportunity, command, body, pinned, actor, at);
            after.Success? ==> NotebookInv(after.value)
  {
    var created := CreateNote(b, opportunity, command, body, pinned, actor, at);
    if created.Success? && created.value != b {
      var after := created.value;
      var r := after.revisions[|b.revisions|];
      forall note | 0 <= note < |after.notes| ensures NoteInv(after, note) {
        if note < |b.notes| {
          AppendKeeps(b, after, r, note);
        } else {
          SelectNone(b.revisions, OfNote(note));
          SelectSnoc(b.revisions, r, OfNote(note));
        }
      }
    }
  }

  /** What a revision that is no replay appends. */
  predicate Appends(b: Notebook, after: Notebook, r: Revision) {
    && after == b.(revisions := b.revisions + [r]) && r.note < |b.notes| && FindCommand(b.revisions, r.command).None?
    && var latest := Latest(b.revisions, r.note);
    && latest.Some?
    && var current := b.revisions[latest.value];
    && r.number == current.number + 1 && (r.body != current.body || r.pinned != current.pinned)
  }

  lemma ReviseAppends(b: Notebook, opportunity: OpportunityId, note: NoteId, command: Uuid, expected: nat,
                      body: Option<string>, pinned: Option<bool>, actor: UserId, at: Time)
    ensures var after := ReviseNote(b, opportunity, note, command, expected, body, pinned, actor, at);
            after.Success? && FindCommand(b.revisions, command).None? ==>
              |after.value.revisions| == |b.revisions| + 1
              && Appends(b, after.value, after.value.revisions[|b.revisions|])
              && after.value.revisions[|b.revisions|].note == note
              && after.value.revisions[|b.revisions|].number == expected + 1
  {
  }

  lemma ReviseKeeps(b: Notebook, opportunity: OpportunityId, note: NoteId, command: Uuid, expected: nat,
                    body: Option<string>, pinned: Option<bool>, actor: UserId, at: Time)
    requires NotebookInv(b)
    ensures var after := ReviseNote(b, opportunity, note, command, expected, body, pinned, actor, at);
            after.Success? ==> NotebookInv(after.value)
  {
    ReviseAppends(b, opportunity, note, command, expected, body, pinned, actor, at);
    var revised := ReviseNote(b, opportunity, note, command, expected, body, pinned, actor, at);
    if revised.Success? && FindCommand(b.revisions, command).None? {
      AppendedInv(b, revised.value, revised.value.revisions[|b.revisions|]);
    }
  }

  lemma AppendedInv(b: Notebook, after: Notebook, r: Revision)
    requires NotebookInv(b) && Appends(b, after, r)
    ensures NotebookInv(after)
  {
    forall n | 0 <= n < |after.notes| ensures NoteInv(after, n) {
      assert NoteInv(b, n);
      if n == r.note {
        LatestIsNewest(b.revisions, n);
        RevisionExtends(b, after, r);
      } else {
        AppendKeeps(b, after, r, n);
      }
    }
  }

  lemma RevisionExtends(b: Notebook, after: Notebook, r: Revision)
    requires after.revisions == b.revisions + [r] && NoteInv(b, r.note)
    requires var history := HistoryOf(b.revisions, r.note);
             var current := history[|history| - 1];
             r.number == current.number + 1 && (r.body != current.body || r.pinned != current.pinned)
    ensures NoteInv(after, r.note)
  {
    SelectSnoc(b.revisions, r, OfNote(r.note));
    assert OfNote(r.note)(r);
  }

  lemma WorldKeeps(b: Notebook, opportunities: set<OpportunityId>, users: set<UserId>)
    requires NotebookInv(b)
    ensures NotebookInv(b.(opportunities := opportunities, users := users))
  {
    var after := b.(opportunities := opportunities, users := users);
    forall note | 0 <= note < |after.notes| ensures NoteInv(after, note) {
      assert NoteInv(b, note);
    }
  }

  lemma {:induction false} RunKeeps(b: Notebook, actions: seq<Action>)
    requires b.notes == [] && b.revisions == []
    ensures NotebookInv(Run(b, actions))
  {
    if actions != [] {
      var before := Run(b, actions[..|actions| - 1]);
      RunKeeps(b, actions[..|actions| - 1]);
      match actions[|actions| - 1]
      case DoCreate(opportunity, command, text, pin, actor, at) =>
        CreateKeeps(before, opportunity, command, text, pin, actor, at);
      case DoRevise(opportunity, note, command, expected, body, pinned, actor, at) =>
        ReviseKeeps(before, opportunity, note, command, expected, body, pinned, actor, at);
      case WorldChanged(opportunities, users) => WorldKeeps(before, opportunities, users);
    }
  }

  /** Of two different edits that expect the same revision, the one that comes second is refused. */
  lemma SecondEditConflicts(b: Notebook, actions: seq<Action>, opportunity: OpportunityId, note: NoteId, expected: nat,
                            command: Uuid, body: Option<string>, pinned: Option<bool>, actor: UserId, at: Time,
                            command2: Uuid, body2: Option<string>, pinned2: Option<bool>, actor2: UserId, at2: Time)
    requires b.notes == [] && b.revisions == []
    requires var t := Run(b, actions);
             && FindCommand(t.revisions, command).None? && FindCommand(t.revisions, command2).None?
             && command2 != command
             && ReviseNote(t, opportunity, note, command, expected, body, pinned, actor, at).Success?
             && GivenBody(body2).Success?
    ensures var after :=
              ReviseNote(Run(b, actions), opportunity, note, command, expected, body, pinned, actor, at).value;
            ReviseNote(after, opportunity, note, command2, expected, body2, pinned2, actor2, at2)
            == Failure(RevisionConflict)
  {
    RunKeeps(b, actions);
    var t := Run(b, actions);
    var after := ReviseNote(t, opportunity, note, command, expected, body, pinned, actor, at).value;
    assert after.revisions[|t.revisions|].note == note;
    assert after.revisions[|t.revisions|].number == expected + 1;
    assert Latest(after.revisions, note).Some?;
  }

  // ---- The listing ----

  /** Sort keys of the current notes of an opportunity; ids of stored notes start at one. */
  function CurrentKeys(b: Notebook, opportunity: OpportunityId, pinned: Option<bool>, upTo: nat): (rows: seq<NoteKey>)
    requires upTo <= |b.notes|
    ensures forall n | 0 <= n < |rows| :: 0 < rows[n].id <= upTo
    ensures forall m, n | 0 <= m < n < |rows| :: rows[m].id < rows[n].id
  {
    if upTo == 0 then []
    else
      var before := CurrentKeys(b, opportunity, pinned, upTo - 1);
      var latest := Latest(b.revisions, upTo - 1);
      if b.notes[upTo - 1].opportunity != opportunity || latest.None? then before
      else if pinned.Some? && b.revisions[latest.value].pinned != pinned.value then before
      else before + [NoteKey(b.revisions[latest.value].pinned, b.revisions[latest.value].at, upTo)]
  }

  /** The key under which a note is listed: its newest revision's pin and time. */
  predicate ListedAs(b: Notebook, note: NoteId, key: NoteKey) {
    var history := HistoryOf(b.revisions, note);
    history != []
    && key == NoteKey(history[|history| - 1].pinned, history[|history| - 1].at, note + 1)
  }

  /** Each note of the opportunity is listed under its newest revision. */
  lemma {:induction false} EveryNoteListed(b: Notebook, opportunity: OpportunityId, upTo: nat, note: NoteId)
    requires NoteInv(b, note) && note < upTo <= |b.notes| && b.notes[note].opportunity == opportunity
    ensures exists key | key in CurrentKeys(b, opportunity, None, upTo) :: ListedAs(b, note, key)
  {
    if note < upTo - 1 {
      EveryNoteListed(b, opportunity, upTo - 1, note);
    } else {
      LatestIsNewest(b.revisions, note);
      var rows := CurrentKeys(b, opportunity, None, upTo);
      assert ListedAs(b, note, rows[|rows| - 1]);
      assert rows[|rows| - 1] in rows;
    }
  }

  /** Reading the notes page by page comes to an end. */
  lemma NotesListingEnds(tt: TimeText, b: Notebook, opportunity: OpportunityId, pinned: Option<bool>, limit: nat)
    requires Faithful(tt) && limit >= 1
    ensures exists pages :: ReadsNotes(tt, CurrentKeys(b, opportunity, pinned, |b.notes|), limit, None, pages)
  {
    NotesReadingEnds(tt, CurrentKeys(b, opportunity, pinned, |b.notes|), limit);
  }

  /** Reading the notes page by page, on an unchanged notebook, gives each current note once, in order. */
  lemma NotesListedOnce(tt: TimeText, b: Notebook, opportunity: OpportunityId, pinned: Option<bool>, limit: nat,
                        pages: seq<seq<NoteKey>>)
    requires Faithful(tt) && limit >= 1
    requires ReadsNotes(tt, CurrentKeys(b, opportunity, pinned, |b.notes|), limit, None, pages)
    ensures KeysetPages.Concat(pages) == KeysetPages.Sorted(CurrentKeys(b, opportunity, pinned, |b.notes|), NoteBefore)
    ensures KeysetPages.Increasing(KeysetPages.Concat(pages), NoteBefore)
    ensures forall x :: x in KeysetPages.Concat(pages) <==> x in CurrentKeys(b, opportunity, pinned, |b.notes|)
  {
    NotesReadOnce(tt, CurrentKeys(b, opportunity, pinned, |b.notes|), limit, pages);
  }
}
