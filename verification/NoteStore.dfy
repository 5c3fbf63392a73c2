/** The note service over mutable tables, proved against the functions on the notebook. */
module NoteStore {
  import opened Wrappers
  import opened OpportunityNotes
  import PageCursors

  type Time = PageCursors.Time

  class Store {
    var notes: seq<Note>
    var revisions: seq<Revision>
    var opportunities: set<OpportunityId>
    var users: set<UserId>

    constructor (opportunities: set<OpportunityId>, users: set<UserId>)
      ensures Value() == Notebook([], [], opportunities, users)
    {
      notes, revisions, this.opportunities, this.users := [], [], opportunities, users;
    }

    ghost function Value(): Notebook
      reads this
    {
      Notebook(notes, revisions, opportunities, users)
    }

    method FindReplay(command: Uuid) returns (found: Option<nat>)
      ensures found == FindCommand(revisions, command)
    {
      found := None;
      for i := 0 to |revisions|
        invariant found == FindCommand(revisions[..i], command)
      {
        assert revisions[..i + 1][..i] == revisions[..i];
        if revisions[i].command == command {
          found := Some(i);
        }
      }
      assert revisions[..|revisions|] == revisions;
    }

    method LatestRevision(note: NoteId) returns (latest: Option<nat>)
      ensures latest == Latest(revisions, note)
    {
      latest := None;
      for i := 0 to |revisions|
        invariant latest == Latest(revisions[..i], note)
      {
        assert revisions[..i + 1][..i] == revisions[..i];
        if revisions[i].note == note && (latest.None? || revisions[i].number >= revisions[latest.value].number) {
          latest := Some(i);
        }
      }
      assert revisions[..|revisions|] == revisions;
    }

    method Create(opportunity: OpportunityId, command: Uuid, body: string, pinned: bool, actor: UserId, at: Time)
      returns (error: Option<Error>)
      modifies this
      ensures match CreateNote(old(Value()), opportunity, command, body, pinned, actor, at)
              case Success(after) => error.None? && Value() == after
              case Failure(e) => error == Some(e) && Value() == old(Value())
    {
      var text := NormalizedBody(body);
      if text.Failure? {
        return Some(text.error);
      }
      var replay := FindReplay(command);
      if replay.Some? {
        var r := revisions[replay.value];
        if r.note < |notes| && notes[r.note].opportunity == opportunity && r.number == 1 && r.body == text.value
           && r.pinned == pinned && r.actor == actor {
          return None;
        }
        return Some(CommandReused);
      }
      if opportunity !in opportunities || actor !in users {
        return Some(NotFound);
      }
      revisions := revisions + [Revision(|notes|, 1, text.value, pinned, actor, command, at)];
      notes := notes + [Note(opportunity, actor)];
      return None;
    }

    method Revise(opportunity: OpportunityId, note: NoteId, command: Uuid, expected: nat, body: Option<string>,
                  pinned: Option<bool>, actor: UserId, at: Time)
      returns (error: Option<Error>)
      modifies this`revisions
      ensures match ReviseNote(old(Value()), opportunity, note, command, expected, body, pinned, actor, at)
              case Success(after) => error.None? && Value() == after
              case Failure(e) => error == Some(e) && Value() == old(Value())
    {
      var text := GivenBody(body);
      if text.Failure? {
        return Some(text.error);
      }
      var replay := FindReplay(command);
      if replay.Some? {
        if SameRevision(Notebook(notes, revisions, opportunities, users), revisions[replay.value], opportunity, note,
                        expected, text.value, pinned, actor) {
          return None;
        }
        return Some(CommandReused);
      }
      error := AppendRevision(opportunity, note, command, expected, text.value, pinned, actor, at);
    }

    method AppendRevision(opportunity: OpportunityId, note: NoteId, command: Uuid, expected: nat, body: Option<string>,
                          pinned: Option<bool>, actor: UserId, at: Time)
      returns (error: Option<Error>)
      requires FindCommand(revisions, command).None?
      modifies this`revisions
      ensures match NextRevision(old(Value()), opportunity, note, command, expected, body, pinned, actor, at)
              case Success(after) => error.None? && Value() == after
              case Failure(e) => error == Some(e) && Value() == old(Value())
    {
      if opportunity !in opportunities || note >= |notes| || notes[note].opportunity != opportunity {
        return Some(NotFound);
      }
      var latest := LatestRevision(note);
      if latest.None? {
        return Some(NotFound);
      }
      var current := revisions[latest.value];
      if current.number != expected {
        return Some(RevisionConflict);
      }
      var nextBody := if body.Some? then body.value else current.body;
      var nextPin := if pinned.Some? then pinned.value else current.pinned;
      if nextBody == current.body && nextPin == current.pinned {
        return Some(RevisionConflict);
      }
      if actor !in users {
        return Some(NotFound);
      }
      revisions := revisions + [Revision(note, current.number + 1, nextBody, nextPin, actor, command, at)];
      return None;
    }
  }
}
