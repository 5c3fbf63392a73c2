/**
 Marketing consent: an append-only log of opt-in and opt-out events. An event's id is its
 position in the log. The event in force for a customer and phone at a given time is the
 newest one, by effective time and then by id, among those effective by then.
 */
module Consent {
  import opened Wrappers
  import opened Trimming

  type CustomerId = nat
  type Phone = string
  type Time = int
  type UserId = nat

  datatype Decision = OptIn | OptOut

  datatype Key = Key(customer: CustomerId, phone: Phone)

  /** The source of an event decides how its effective time is chosen. */
  datatype Source = FaaCrm | ExternalFaa

  datatype Event = Event(clientEventId: nat, key: Key, decision: Decision, source: Source, evidence: Option<string>,
                         occurredAt: Time, effectiveAt: Time, recordedBy: UserId)

  predicate Applies(events: seq<Event>, key: Key, now: Time, i: int) {
    0 <= i < |events| && events[i].key == key && events[i].effectiveAt <= now
  }

  /** `i` precedes `j` in the order "effective_at DESC, id DESC". */
  predicate Newer(events: seq<Event>, i: int, j: int)
    requires 0 <= i < |events| && 0 <= j < |events|
  {
    events[i].effectiveAt > events[j].effectiveAt
    || (events[i].effectiveAt == events[j].effectiveAt && i > j)
  }

  /** The single lookup: order the applicable events and take the first. */
  function Current(events: seq<Event>, key: Key, now: Time): (r: Option<nat>)
    ensures r.None? ==> forall i :: !Applies(events, key, now, i)
    ensures r.Some? ==> Applies(events, key, now, r.value)
    ensures r.Some? ==> forall i :: Applies(events, key, now, i) && i != r.value ==> Newer(events, r.value, i)
  {
    if events == [] then None
    else
      var last := |events| - 1;
      var best := Current(events[..last], key, now);
      assert forall i | 0 <= i < last :: Applies(events, key, now, i) == Applies(events[..last], key, now, i);
      assert forall i | Applies(events, key, now, i) && i != last :: Applies(events[..last], key, now, i);
      if Applies(events, key, now, last)
         && (best.None? || events[last].effectiveAt >= events[best.value].effectiveAt)
      then Some(last)
      else best
  }

  predicate OptedIn(events: seq<Event>, key: Key, now: Time) {
    var current := Current(events, key, now);
    current.Some? && events[current.value].decision.OptIn?
  }

  // ---- The batched lookup: rank the applicable events of every key, keep rank one ----

  /** Position of event `i` in its key's partition, counted from one as row_number() does. */
  function Rank(events: seq<Event>, now: Time, i: nat): nat
    requires i < |events|
  {
    1 + |set j | 0 <= j < |events| && Applies(events, events[i].key, now, j) && Newer(events, j, i)|
  }

  /** The rows the ranked query returns, as event ids. */
  function TopRows(events: seq<Event>, keys: set<Key>, now: Time, upTo: nat): (rows: seq<nat>)
    requires upTo <= |events|
    ensures forall n | 0 <= n < |rows| ::
              rows[n] < upTo && events[rows[n]].key in keys && Applies(events, events[rows[n]].key, now, rows[n])
              && Rank(events, now, rows[n]) == 1
    ensures forall row: nat | row < upTo && events[row].key in keys && Applies(events, events[row].key, now, row)
                              && Rank(events, now, row) == 1 :: row in rows
  {
    if upTo == 0 then []
    else
      var row := upTo - 1;
      var before := TopRows(events, keys, now, row);
      if events[row].key in keys && Applies(events, events[row].key, now, row) && Rank(events, now, row) == 1
      then before + [row] else before
  }

  /** The dictionary built from those rows; a later row for the same key would win. */
  function ByKey(events: seq<Event>, rows: seq<nat>): (m: map<Key, nat>)
    requires forall n | 0 <= n < |rows| :: rows[n] < |events|
    ensures forall k | k in m :: m[k] in rows && m[k] < |events| && events[m[k]].key == k
    ensures forall n | 0 <= n < |rows| :: events[rows[n]].key in m
  {
    if rows == [] then map[]
    else
      var last := |rows| - 1;
      ByKey(events, rows[..last])[events[rows[last]].key := rows[last]]
  }

  function CurrentMany(events: seq<Event>, keys: set<Key>, now: Time): map<Key, nat> {
    ByKey(events, TopRows(events, keys, now, |events|))
  }

  /** Rank one is exactly the event that the single lookup takes. */
  lemma RankOneIsCurrent(events: seq<Event>, now: Time, i: nat)
    requires i < |events| && Applies(events, events[i].key, now, i)
    ensures Rank(events, now, i) == 1 <==> Current(events, events[i].key, now) == Some(i)
  {
    var key := events[i].key;
    var ahead := set j | 0 <= j < |events| && Applies(events, key, now, j) && Newer(events, j, i);
    var current := Current(events, key, now);
    if current == Some(i) {
      assert ahead == {};
    } else {
      assert current.value in ahead;
    }
  }

  /** The batched lookup agrees with the single one on every requested key. */
  lemma BatchAgreesWithSingle(events: seq<Event>, keys: set<Key>, now: Time, key: Key)
    requires key in keys
    ensures key in CurrentMany(events, keys, now) <==> Current(events, key, now).Some?
    ensures key in CurrentMany(events, keys, now)
            ==> Current(events, key, now) == Some(CurrentMany(events, keys, now)[key])
  {
    var rows := TopRows(events, keys, now, |events|);
    var many := CurrentMany(events, keys, now);
    if key in many {
      RankOneIsCurrent(events, now, many[key]);
    }
    var current := Current(events, key, now);
    if current.Some? {
      RankOneIsCurrent(events, now, current.value);
      assert current.value in rows;
    }
  }

  // ---- Appending ----

  datatype EventInput = EventInput(clientEventId: nat, customer: CustomerId, decision: Decision, source: Source,
                                   occurredAt: Time, effectiveAt: Option<Time>, evidence: Option<string>,
                                   recordedBy: UserId)

  datatype AppendError = FutureOccurrence | EffectiveTimeNotAllowed | EvidenceRequired | FutureEffect
                       | CustomerNotFound | PhoneRequired | UserNotFound | InactiveUser
                       | ReplayedWithOtherData | NoCurrentEvent

  datatype Appended = Appended(event: nat, current: nat, created: bool)

  function EffectiveTime(input: EventInput, recordedAt: Time): Result<Time, AppendError> {
    if input.occurredAt > recordedAt then Failure(FutureOccurrence)
    else if input.source.FaaCrm? then
      if input.effectiveAt.Some? then Failure(EffectiveTimeNotAllowed) else Success(recordedAt)
    else if input.effectiveAt.None? || OptionalText(input.evidence).None? then Failure(EvidenceRequired)
    else if input.effectiveAt.value > recordedAt then Failure(FutureEffect)
    else Success(input.effectiveAt.value)
  }

  /**
   Which inputs are refused, and when the others take effect: an event of the CRM when it is recorded, an
   external one at the time it states, which lies not after that and comes with evidence.
   */
  lemma TakesEffect(input: EventInput, recordedAt: Time)
    ensures var r := EffectiveTime(input, recordedAt);
            && (r.Success? <==>
                  && input.occurredAt <= recordedAt
                  && match input.source
                     case FaaCrm => input.effectiveAt == None
                     case ExternalFaa =>
                       && input.effectiveAt.Some? && input.effectiveAt.value <= recordedAt
                       && OptionalText(input.evidence) != None)
            && (r.Success? && input.source == FaaCrm ==> r.value == recordedAt)
            && (r.Success? && input.source == ExternalFaa ==> Some(r.value) == input.effectiveAt)
            && (r.Failure? ==>
                  r.error == if input.occurredAt > recordedAt then FutureOccurrence
                             else if input.source == FaaCrm then EffectiveTimeNotAllowed
                             else if input.effectiveAt == None || OptionalText(input.evidence) == None
                                  then EvidenceRequired
                             else FutureEffect)
  {
  }

  /** A decision taken in the CRM is in force from the moment it is recorded, as long as no later one is. */
  lemma CrmDecides(events: seq<Event>, input: EventInput, phone: Phone, recordedAt: Time, now: Time)
    requires input.source == FaaCrm && EffectiveTime(input, recordedAt).Success? && recordedAt <= now
    requires forall i | 0 <= i < |events| :: events[i].effectiveAt <= recordedAt
    ensures var all := events + [EventOf(input, phone, EffectiveTime(input, recordedAt).value)];
            && Current(all, Key(input.customer, phone), now) == Some(|events|)
            && (OptedIn(all, Key(input.customer, phone), now) <==> input.decision == OptIn)
  {
    var all := events + [EventOf(input, phone, EffectiveTime(input, recordedAt).value)];
    assert Applies(all, Key(input.customer, phone), now, |events|);
  }

  /** Nor does it say anything about the time before. */
  lemma CrmDoesNotBackdate(events: seq<Event>, input: EventInput, phone: Phone, recordedAt: Time, now: Time, key: Key)
    requires input.source == FaaCrm && EffectiveTime(input, recordedAt).Success? && now < recordedAt
    ensures var all := events + [EventOf(input, phone, EffectiveTime(input, recordedAt).value)];
            Current(all, key, now) == Current(events, key, now)
  {
    var all := events + [EventOf(input, phone, EffectiveTime(input, recordedAt).value)];
    assert all[..|events|] == events;
  }

  /** The row written for an input. */
  function EventOf(input: EventInput, phone: Phone, effectiveAt: Time): Event {
    Event(input.clientEventId, Key(input.customer, phone), input.decision, input.source, OptionalText(input.evidence),
          input.occurredAt, effectiveAt, input.recordedBy)
  }

  /** A replay must repeat everything the stored event holds; without an effective time it repeats any. */
  predicate SameEvent(event: Event, input: EventInput, phone: Phone) {
    && event == EventOf(input, phone, event.effectiveAt)
    && (input.effectiveAt.Some? ==> event.effectiveAt == input.effectiveAt.value)
  }

  /** Column by column: what a replay must repeat. */
  lemma ReplayIff(event: Event, input: EventInput, phone: Phone)
    ensures SameEvent(event, input, phone)
            <==> && event.clientEventId == input.clientEventId && event.key.customer == input.customer
                 && event.key.phone == phone && event.decision == input.decision && event.source == input.source
                 && event.occurredAt == input.occurredAt && event.recordedBy == input.recordedBy
                 && event.evidence == OptionalText(input.evidence)
                 && (input.effectiveAt == None || input.effectiveAt == Some(event.effectiveAt))
  {
  }

  /** A customer as the consent service reads it: the comparable phone, if there is one. */
  datatype Customer = Customer(phone: Option<Phone>, deleted: bool)

  function FindEvent(events: seq<Event>, clientEventId: nat): (found: Option<nat>)
    ensures found.Some? ==> found.value < |events| && events[found.value].clientEventId == clientEventId
    ensures found.None? <==> forall i | 0 <= i < |events| :: events[i].clientEventId != clientEventId
  {
    if events == [] then None
    else
      var earlier := FindEvent(events[..|events| - 1], clientEventId);
      if earlier.Some? then earlier
      else if events[|events| - 1].clientEventId == clientEventId then Some(|events| - 1)
      else
        assert forall i | 0 <= i < |events| - 1 :: events[..|events| - 1][i] == events[i];
        None
  }

  predicate ClientIdsDistinct(events: seq<Event>) {
    forall i, j | 0 <= i < j < |events| :: events[i].clientEventId != events[j].clientEventId
  }

  class ConsentLog {
    var events: seq<Event>
    var customers: map<CustomerId, Customer>
    /** Of each known user, whether it is active. */
    var users: map<UserId, bool>

    constructor (customers: map<CustomerId, Customer>, users: map<UserId, bool>)
      ensures events == [] && this.customers == customers && this.users == users
    {
      events := [];
      this.customers, this.users := customers, users;
    }

    /** The checks before the log is read, in their order. */
    function Refusal(input: EventInput, recordedAt: Time): Option<AppendError>
      reads this
    {
      var effective := EffectiveTime(input, recordedAt);
      if effective.Failure? then Some(effective.error)
      else if input.customer !in customers || customers[input.customer].deleted then Some(CustomerNotFound)
      else if customers[input.customer].phone.None? then Some(PhoneRequired)
      else if input.recordedBy !in users then Some(UserNotFound)
      else if !users[input.recordedBy] then Some(InactiveUser)
      else None
    }

    /**
     A new event is always answered with a current event; only a replay recorded with an
     earlier clock than the stored event's effective time can fail to find one.
     */
    method Append(input: EventInput, recordedAt: Time) returns (r: Result<Appended, AppendError>)
      requires ClientIdsDistinct(events)
      modifies this`events
      ensures ClientIdsDistinct(events)
      ensures r.Failure? ==> events == old(events)
      ensures Refusal(input, recordedAt).Some? ==> r == Failure(Refusal(input, recordedAt).value)
      ensures Refusal(input, recordedAt).None? ==>
                var phone := customers[input.customer].phone.value;
                var stored := FindEvent(old(events), input.clientEventId);
                if stored.None? then
                  && events == old(events) + [EventOf(input, phone, EffectiveTime(input, recordedAt).value)]
                  && r.Success? && r.value.created && r.value.event == |old(events)|
                  && Current(events, Key(input.customer, phone), recordedAt) == Some(r.value.current)
                else
                  && events == old(events)
                  && (r == Failure(ReplayedWithOtherData) <==> !SameEvent(events[stored.value], input, phone))
                  && (SameEvent(events[stored.value], input, phone) ==>
                        var current := Current(events, Key(input.customer, phone), recordedAt);
                        r == if current.None? then Failure(NoCurrentEvent)
                             else Success(Appended(stored.value, current.value, false)))
      ensures r == Failure(NoCurrentEvent) ==>
                exists i | 0 <= i < |events| :: events[i].clientEventId == input.clientEventId
                                                && events[i].effectiveAt > recordedAt
    {
      var refusal := Refusal(input, recordedAt);
      if refusal.Some? {
        return Failure(refusal.value);
      }
      var phone := customers[input.customer].phone.value;
      var key := Key(input.customer, phone);
      var stored := FindEvent(events, input.clientEventId);
      if stored.Some? {
        if !SameEvent(events[stored.value], input, phone) {
          return Failure(ReplayedWithOtherData);
        }
        var current := Current(events, key, recordedAt);
        if current.None? {
          assert !Applies(events, key, recordedAt, stored.value);
          return Failure(NoCurrentEvent);
        }
        return Success(Appended(stored.value, current.value, false));
      }
      events := events + [EventOf(input, phone, EffectiveTime(input, recordedAt).value)];
      var current := Current(events, key, recordedAt);
      assert Applies(events, key, recordedAt, |events| - 1);
      return Success(Appended(|events| - 1, current.value, true));
    }
  }
}
