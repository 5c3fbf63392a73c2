/**
 The notes service, column by column: what text a body becomes, when a note is created or revised and
 with which error otherwise, when a repeated command is answered as before, and which notes are listed.
 */
module NoteRules {
  import opened Wrappers
  import opened Trimming
  import opened Tables
  import opened PageCursors
  import opened OpportunityNotes
  import KeysetPages

  // ---- Bodies ----

  /** Each carriage return with a line feed behind it becomes a line feed. */
  function PairsReplaced(s: string): string {
    if |s| < 2 then s
    else if s[0] == '\r' && s[1] == '\n' then "\n" + PairsReplaced(s[2..])
    else [s[0]] + PairsReplaced(s[1..])
  }

  /** Each carriage return becomes a line feed. */
  function ReturnsReplaced(s: string): string {
    seq(|s|, i requires 0 <= i < |s| => if s[i] == '\r' then '\n' else s[i])
  }

  lemma {:induction false} LineFeedsReplace(s: string)
    ensures LineFeeds(s) == ReturnsReplaced(PairsReplaced(s))
  {
    if |s| == 1 {
      assert LineFeeds(s[1..]) == "";
    } else if |s| >= 2 {
      if s[0] == '\r' && s[1] == '\n' {
        LineFeedsReplace(s[2..]);
        ReplacedNext("\n", PairsReplaced(s[2..]));
      } else {
        LineFeedsReplace(s[1..]);
        ReplacedNext([s[0]], PairsReplaced(s[1..]));
      }
    }
  }

  lemma ReplacedNext(a: string, b: string)
    requires |a| == 1
    ensures ReturnsReplaced(a + b) == (if a[0] == '\r' then "\n" else a) + ReturnsReplaced(b)
  {
  }

  /** The text of a body: one to 20000 characters between white space, after both replacements. */
  ghost predicate IsText(body: string, text: string) {
    NormalText(ReturnsReplaced(PairsReplaced(body)), Some(text)) && 1 <= |text| <= 20000
  }

  lemma BodyIff(body: string)
    ensures NormalizedBody(body).Success? <==> exists text :: IsText(body, text)
    ensures NormalizedBody(body).Success? ==> IsText(body, NormalizedBody(body).value)
    ensures NormalizedBody(body).Failure? ==> NormalizedBody(body).error == InvalidBody
  {
    var raw := LineFeeds(body);
    LineFeedsReplace(body);
    StripIsNormal(raw);
    forall text | IsText(body, text) ensures Some(text) == OptionalText(Some(raw)) {
      NormalTextUnique(raw, Some(text), OptionalText(Some(raw)));
    }
    if NormalizedBody(body).Success? {
      assert IsText(body, NormalizedBody(body).value);
    }
  }

  lemma TextUnique(body: string, a: string, b: string)
    requires IsText(body, a) && IsText(body, b)
    ensures a == b
  {
    NormalTextUnique(ReturnsReplaced(PairsReplaced(body)), Some(a), Some(b));
  }

  ghost predicate ProperBody(body: string) {
    exists text :: IsText(body, text)
  }

  // ---- Commands ----

  predicate Used(b: Notebook, command: Uuid) {
    exists i | 0 <= i < |b.revisions| :: b.revisions[i].command == command
  }

  /** In a reachable notebook a command names one revision. */
  lemma CommandNamesOne(b: Notebook, command: Uuid)
    requires NotebookInv(b)
    ensures var found := FindCommand(b.revisions, command);
            && (found.Some? <==> Used(b, command))
            && forall i | 0 <= i < |b.revisions| && b.revisions[i].command == command :: found == Some(i)
  {
  }

  // ---- Creating ----

  /** The first revision of a note of the opportunity, with that text and pin, by that user. */
  ghost predicate WasCreated(b: Notebook, r: Revision, opportunity: OpportunityId, command: Uuid, body: string,
                             pinned: bool, actor: UserId) {
    && r.command == command && r.note < |b.notes| && b.notes[r.note].opportunity == opportunity
    && r.number == 1 && IsText(body, r.body) && r.pinned == pinned && r.actor == actor
  }

  lemma CreateIff(b: Notebook, opportunity: OpportunityId, command: Uuid, body: string, pinned: bool, actor: UserId,
                  at: Time)
    requires NotebookInv(b)
    ensures var r, used := CreateNote(b, opportunity, command, body, pinned, actor, at), Used(b, command);
            var again := exists i | 0 <= i < |b.revisions| ::
                           WasCreated(b, b.revisions[i], opportunity, command, body, pinned, actor);
            && (r == Failure(InvalidBody) <==> !ProperBody(body))
            && (r == Failure(CommandReused) <==> ProperBody(body) && used && !again)
            && (r == Failure(NotFound)
                <==> ProperBody(body) && !used && (opportunity !in b.opportunities || actor !in b.users))
            && (used && r.Success? ==> r.value == b)
            && (r.Failure? ==> r.error in {InvalidBody, CommandReused, NotFound})
  {
    BodyIff(body);
    CommandNamesOne(b, command);
    if ProperBody(body) && Used(b, command) {
      var i := FindCommand(b.revisions, command).value;
      var text := NormalizedBody(body).value;
      if IsText(body, b.revisions[i].body) {
        TextUnique(body, text, b.revisions[i].body);
      }
    }
  }

  /** A new note with its first revision, and nothing else. */
  lemma CreatedNote(b: Notebook, opportunity: OpportunityId, command: Uuid, body: string, pinned: bool, actor: UserId,
                    at: Time)
    requires CreateNote(b, opportunity, command, body, pinned, actor, at).Success? && !Used(b, command)
    ensures var after := CreateNote(b, opportunity, command, body, pinned, actor, at).value;
            && after.notes == b.notes + [Note(opportunity, actor)]
            && |after.revisions| == |b.revisions| + 1 && after.revisions[..|b.revisions|] == b.revisions
            && after.opportunities == b.opportunities && after.users == b.users
            && var r := after.revisions[|b.revisions|];
            && r.note == |b.notes| && r.number == 1 && IsText(body, r.body) && r.pinned == pinned
            && r.actor == actor && r.command == command && r.at == at
  {
    BodyIff(body);
  }

  // ---- Revising ----

  /** The revision after the expected one, of that note, by that user, with what the request gives. */
  ghost predicate WasRevised(b: Notebook, r: Revision, opportunity: OpportunityId, note: NoteId, command: Uuid,
                             expected: nat, body: Option<string>, pinned: Option<bool>, actor: UserId) {
    && r.command == command && r.note == note && note < |b.notes| && b.notes[note].opportunity == opportunity
    && r.actor == actor && r.number == expected + 1
    && (body.Some? ==> IsText(body.value, r.body)) && (pinned.Some? ==> r.pinned == pinned.value)
  }

  /** The newest revision of the note, whatever the request: its number, text and pin. */
  predicate Newest(b: Notebook, note: NoteId, i: nat) {
    && i < |b.revisions| && b.revisions[i].note == note
    && forall j | 0 <= j < |b.revisions| && b.revisions[j].note == note ::
         b.revisions[j].number <= b.revisions[i].number
  }

  /** The request changes the text or the pin of a revision. */
  ghost predicate Changes(r: Revision, body: Option<string>, pinned: Option<bool>) {
    (body.Some? && !IsText(body.value, r.body)) || (pinned.Some? && pinned.value != r.pinned)
  }

  predicate There(b: Notebook, opportunity: OpportunityId, note: NoteId) {
    opportunity in b.opportunities && note < |b.notes| && b.notes[note].opportunity == opportunity
  }

  lemma GivenIff(body: Option<string>)
    ensures var given := GivenBody(body);
            && (given.Success? <==> (body.Some? ==> ProperBody(body.value)))
            && (given.Failure? ==> given.error == InvalidBody)
            && (given.Success? ==>
                  && (given.value.Some? <==> body.Some?)
                  && (body.Some? ==> forall text :: IsText(body.value, text) <==> given.value == Some(text)))
  {
    if body.Some? {
      BodyIff(body.value);
      forall text | IsText(body.value, text) ensures GivenBody(body) == Success(Some(text)) {
        TextUnique(body.value, text, NormalizedBody(body.value).value);
      }
    }
  }

  /** A request under a used command is answered as before, or refused. */
  lemma RepeatedRevisionIff(b: Notebook, opportunity: OpportunityId, note: NoteId, command: Uuid, expected: nat,
                            body: Option<string>, pinned: Option<bool>, actor: UserId, at: Time)
    requires NotebookInv(b) && Used(b, command) && (body.Some? ==> ProperBody(body.value))
    ensures var r := ReviseNote(b, opportunity, note, command, expected, body, pinned, actor, at);
            var again := exists i | 0 <= i < |b.revisions| ::
                           WasRevised(b, b.revisions[i], opportunity, note, command, expected, body, pinned, actor);
            && (r == Success(b) <==> again)
            && (r == Failure(CommandReused) <==> !again)
  {
    GivenIff(body);
    CommandNamesOne(b, command);
    var i := FindCommand(b.revisions, command).value;
    assert SameRevision(b, b.revisions[i], opportunity, note, expected, GivenBody(body).value, pinned, actor)
           <==> WasRevised(b, b.revisions[i], opportunity, note, command, expected, body, pinned, actor);
  }

  /** A request under a new command succeeds exactly when it changes the revision it expects, which is the newest. */
  lemma ReviseIff(b: Notebook, opportunity: OpportunityId, note: NoteId, command: Uuid, expected: nat,
                  body: Option<string>, pinned: Option<bool>, actor: UserId, at: Time, i: nat)
    requires NotebookInv(b) && !Used(b, command) && (note < |b.notes| ==> Newest(b, note, i))
    ensures var r := ReviseNote(b, opportunity, note, command, expected, body, pinned, actor, at);
            var proper, there := body.Some? ==> ProperBody(body.value), There(b, opportunity, note);
            && (r == Failure(InvalidBody) <==> !proper)
            && (r == Failure(RevisionConflict)
                <==> proper && there && (b.revisions[i].number != expected || !Changes(b.revisions[i], body, pinned)))
            && (r.Success? <==> && proper && there && b.revisions[i].number == expected
                                && Changes(b.revisions[i], body, pinned) && actor in b.users)
            && (r.Failure? ==> r.error in {InvalidBody, RevisionConflict, NotFound})
  {
    GivenIff(body);
    if There(b, opportunity, note) {
      NewestIsLatest(b, note, i);
    }
  }

  lemma NewestIsLatest(b: Notebook, note: NoteId, i: nat)
    requires NotebookInv(b) && note < |b.notes| && Newest(b, note, i)
    ensures Latest(b.revisions, note) == Some(i)
  {
    assert NoteInv(b, note);
    var latest := Latest(b.revisions, note);
    WhereComplete(b.revisions, OfNote(note), i);
    assert latest.Some? && b.revisions[latest.value].number == b.revisions[i].number;
    NumbersDiffer(b.revisions, note, latest.value, i);
  }

  /** Two revisions of one note have different numbers. */
  lemma {:induction false} NumbersDiffer(revisions: seq<Revision>, note: NoteId, i: nat, j: nat)
    requires i < |revisions| && j < |revisions| && revisions[i].note == note && revisions[j].note == note
    requires Numbered(HistoryOf(revisions, note)) && revisions[i].number == revisions[j].number
    ensures i == j
    decreases |revisions|
  {
    var last := |revisions| - 1;
    ShorterNumbered(revisions, note);
    if i < last && j < last {
      NumbersDiffer(revisions[..last], note, i, j);
    } else if i < last {
      NumberedUpTo(revisions[..last], note, i);
    } else if j < last {
      NumberedUpTo(revisions[..last], note, j);
    }
  }

  lemma ShorterNumbered(revisions: seq<Revision>, note: NoteId)
    requires revisions != [] && Numbered(HistoryOf(revisions, note))
    ensures var before, last := HistoryOf(revisions[..|revisions| - 1], note), revisions[|revisions| - 1];
            Numbered(before) && (last.note == note ==> last.number == |before| + 1)
  {
    var before, history := HistoryOf(revisions[..|revisions| - 1], note), HistoryOf(revisions, note);
    assert history == before || history[..|before|] == before;
    assert forall k | 0 <= k < |before| :: before[k] == history[k];
    if revisions[|revisions| - 1].note == note {
      assert history[|before|] == revisions[|revisions| - 1];
    }
  }

  lemma {:induction false} NumberedUpTo(revisions: seq<Revision>, note: NoteId, i: nat)
    requires i < |revisions| && revisions[i].note == note && Numbered(HistoryOf(revisions, note))
    ensures revisions[i].number <= |HistoryOf(revisions, note)|
  {
    var last := |revisions| - 1;
    ShorterNumbered(revisions, note);
    if i < last {
      NumberedUpTo(revisions[..last], note, i);
    }
  }

  /** One more revision: numbered next, with what the request gives and the rest as it was. */
  lemma RevisedNote(b: Notebook, opportunity: OpportunityId, note: NoteId, command: Uuid, expected: nat,
                    body: Option<string>, pinned: Option<bool>, actor: UserId, at: Time, i: nat)
    requires NotebookInv(b) && !Used(b, command) && note < |b.notes| && Newest(b, note, i)
    requires ReviseNote(b, opportunity, note, command, expected, body, pinned, actor, at).Success?
    ensures var after := ReviseNote(b, opportunity, note, command, expected, body, pinned, actor, at).value;
            && after.notes == b.notes && after.opportunities == b.opportunities && after.users == b.users
            && |after.revisions| == |b.revisions| + 1 && after.revisions[..|b.revisions|] == b.revisions
            && var r := after.revisions[|b.revisions|];
            && r.note == note && r.number == expected + 1 && r.actor == actor && r.command == command && r.at == at
            && (if body.Some? then IsText(body.value, r.body) else r.body == b.revisions[i].body)
            && (if pinned.Some? then r.pinned == pinned.value else r.pinned == b.revisions[i].pinned)
  {
    GivenIff(body);
    NewestIsLatest(b, note, i);
  }

  // ---- Listing ----

  predicate IsListed(b: Notebook, opportunity: OpportunityId, pinned: Option<bool>, upTo: nat, key: NoteKey)
    requires upTo <= |b.notes|
  {
    exists note | 0 <= note < upTo :: Shown(b, opportunity, pinned, note, key)
  }

  predicate Shown(b: Notebook, opportunity: OpportunityId, pinned: Option<bool>, note: NoteId, key: NoteKey)
    requires note < |b.notes|
  {
    && b.notes[note].opportunity == opportunity && ListedAs(b, note, key)
    && (pinned.Some? ==> key.pinned == pinned.value)
  }

  lemma LastListed(b: Notebook, opportunity: OpportunityId, pinned: Option<bool>, upTo: nat, key: NoteKey)
    requires NotebookInv(b) && 0 < upTo <= |b.notes|
    ensures key in CurrentKeys(b, opportunity, pinned, upTo)
            <==> key in CurrentKeys(b, opportunity, pinned, upTo - 1)
                 || Shown(b, opportunity, pinned, upTo - 1, key)
  {
    assert NoteInv(b, upTo - 1);
    LatestIsNewest(b.revisions, upTo - 1);
  }

  /** Listed are the notes of the opportunity whose newest revision has the wanted pin, under that revision. */
  lemma {:induction false} ListedIff(b: Notebook, opportunity: OpportunityId, pinned: Option<bool>, upTo: nat,
                                     key: NoteKey)
    requires NotebookInv(b) && upTo <= |b.notes|
    ensures key in CurrentKeys(b, opportunity, pinned, upTo)
            <==> IsListed(b, opportunity, pinned, upTo, key)
  {
    if upTo > 0 {
      ListedIff(b, opportunity, pinned, upTo - 1, key);
      LastListed(b, opportunity, pinned, upTo, key);
      if IsListed(b, opportunity, pinned, upTo - 1, key) {
        assert IsListed(b, opportunity, pinned, upTo, key);
      }
    }
  }

  /** Pinned notes come first, then the newest, then the ones with the highest id. */
  predicate Above(a: NoteKey, b: NoteKey) {
    if a.pinned != b.pinned then a.pinned else if a.at != b.at then a.at > b.at else a.id > b.id
  }

  /** Reading page by page shows exactly those notes, in that order. */
  lemma ListingInOrder(tt: TimeText, b: Notebook, opportunity: OpportunityId, pinned: Option<bool>, limit: nat,
                       pages: seq<seq<NoteKey>>)
    requires NotebookInv(b) && Faithful(tt) && limit >= 1
    requires ReadsNotes(tt, CurrentKeys(b, opportunity, pinned, |b.notes|), limit, None, pages)
    ensures var all := KeysetPages.Concat(pages);
            && (forall key :: key in all <==> IsListed(b, opportunity, pinned, |b.notes|, key))
            && (forall m, n | 0 <= m < n < |all| :: Above(all[m], all[n]))
  {
    NotesListedOnce(tt, b, opportunity, pinned, limit, pages);
    forall key
      ensures key in KeysetPages.Concat(pages) <==> IsListed(b, opportunity, pinned, |b.notes|, key)
    {
      ListedIff(b, opportunity, pinned, |b.notes|, key);
    }
  }
}
