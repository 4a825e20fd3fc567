/** The compare-and-swap execution repository with its idempotency index and event logs. */
module ExecutionStore {
  import opened Text
  import opened ExecutionTypes

  datatype StoreError =
    | InvalidExecution
    | IdempotencyConflict
    | ExecutionNotFound
    | RevisionConflict

  datatype Admission = Admission(record: Record, replayed: bool)

  /** The value of the three maps that the mutex protects. */
  datatype StoreState = StoreState(
    records: map<string, Record>, idempotency: map<string, string>, events: map<string, seq<Event>>)

  const EmptyState := StoreState(map[], map[], map[])

  predicate AcceptedStart(record: Record, accepted: Event) {
    && EventValid(accepted) && accepted.executionId == record.id && accepted.sequence == 1
    && accepted.payload == Lifecycle(ExecutionAccepted, Accepted, false)
  }

  function IndexKey(record: Record): string {
    Joined(record.owner, record.idempotencyKey)
  }

  /** What Create does to the maps. The index entry is written before the identifier check. */
  function Created(s: StoreState, record: Record, accepted: Event)
    : (StoreState, Result<Admission, StoreError>)
  {
    if !RecordValid(record) || !AcceptedStart(record, accepted) then
      (s, Err(InvalidExecution))
    else if record.idempotencyKey != "" && IndexKey(record) in s.idempotency then
      var existingId := s.idempotency[IndexKey(record)];
      if existingId !in s.records || s.records[existingId].requestHash != record.requestHash then
        (s, Err(IdempotencyConflict))
      else
        (s, Ok(Admission(s.records[existingId], true)))
    else
      var indexed :=
        if record.idempotencyKey != "" then s.idempotency[IndexKey(record) := record.id]
        else s.idempotency;
      if record.id in s.records then
        (s.(idempotency := indexed), Err(InvalidExecution))
      else
        (StoreState(s.records[record.id := record], indexed, s.events[record.id := [accepted]]),
         Ok(Admission(record, false)))
  }

  /** Every appended event is valid and continues the log of `record` without a gap. */
  ghost predicate Appendable(record: Record, log: seq<Event>, appended: seq<Event>) {
    forall i | 0 <= i < |appended| ::
      && EventValid(appended[i]) && appended[i].executionId == record.id
      && appended[i].sequence == |log| + 1 + i
  }

  /** The condition under which a compare-and-swap write goes through. */
  ghost predicate SaveAccepted(current: Record, log: seq<Event>, record: Record, expected: nat,
                               appended: seq<Event>)
  {
    && RecordValid(record)
    && current.id == record.id && current.owner == record.owner
    && current.revision == expected && record.revision == expected + 1
    && (current.status != record.status ==> ValidTransition(current.status, record.status))
    && Appendable(record, log, appended)
  }

  ghost predicate SaveAcceptedIn(s: StoreState, record: Record, expected: nat, appended: seq<Event>) {
    && record.id in s.records && record.id in s.events
    && SaveAccepted(s.records[record.id], s.events[record.id], record, expected, appended)
  }

  /** What an accepted Save does to the maps; a rejected one does nothing. */
  ghost function Saved(s: StoreState, record: Record, expected: nat, appended: seq<Event>): StoreState {
    if SaveAcceptedIn(s, record, expected, appended) then
      s.(records := s.records[record.id := record],
         events := s.events[record.id := s.events[record.id] + appended])
    else s
  }

  // ----- invariants -----------------------------------------------------------------------

  /** Every record has a log that is not empty and has no gap, and the index names records. */
  ghost predicate LogsComplete(s: StoreState) {
    && s.records.Keys == s.events.Keys
    && s.idempotency.Values <= s.records.Keys
    && forall id | id in s.records ::
        && s.records[id].id == id
        && |s.events[id]| >= 1
        && Contiguous(id, s.events[id])
  }

  /** Every index entry names the execution that was admitted under it, and every admitted
      execution with a key has its entry. */
  ghost predicate IndexExact(s: StoreState) {
    && (forall k | k in s.idempotency ::
          && s.idempotency[k] in s.records
          && IndexKey(s.records[s.idempotency[k]]) == k
          && s.records[s.idempotency[k]].idempotencyKey != "")
    && (forall id | id in s.records && s.records[id].idempotencyKey != "" ::
          IndexKey(s.records[id]) in s.idempotency
          && s.idempotency[IndexKey(s.records[id])] == id)
  }

  predicate Admitted(record: Record, owner: string, key: string) {
    record.owner == owner && record.idempotencyKey == key
  }

  /** NUL cannot occur in an owner identifier; with one that holds it, keys collide (see
      Text.JoinedCollision). */
  ghost predicate OwnersClean(s: StoreState) {
    forall id | id in s.records :: NUL !in s.records[id].owner
  }

  // ----- properties -----------------------------------------------------------------------

  lemma {:induction false} ValuesOfUpdate(m: map<string, string>, key: string, value: string)
    ensures m[key := value].Values <= m.Values + {value}
  {
    forall v | v in m[key := value].Values ensures v in m.Values + {value} {
      var k :| k in m[key := value] && m[key := value][k] == v;
      assert k != key ==> m[k] in m.Values;
    }
  }

  /** Creating only ever adds the record with its first event, or an index entry for a stored one. */
  lemma {:induction false} CreateShape(s: StoreState, record: Record, accepted: Event)
    ensures var t := Created(s, record, accepted).0;
            || t == s
            || (&& t.idempotency == s.idempotency[IndexKey(record) := record.id]
                && t.records == s.records && t.events == s.events && record.id in s.records)
            || (&& record.id !in s.records && accepted.executionId == record.id && accepted.sequence == 1
                && t.records == s.records[record.id := record]
                && t.events == s.events[record.id := [accepted]]
                && (t.idempotency == s.idempotency
                    || t.idempotency == s.idempotency[IndexKey(record) := record.id]))
  {
    hide RecordValid, EventValid, IndexKey;
  }

  lemma {:induction false} CreateKeepsLogs(s: StoreState, record: Record, accepted: Event)
    requires LogsComplete(s)
    ensures LogsComplete(Created(s, record, accepted).0)
  {
    hide Created, IndexKey;
    CreateShape(s, record, accepted);
    ValuesOfUpdate(s.idempotency, IndexKey(record), record.id);
    assert Contiguous(record.id, [accepted]) <== accepted.executionId == record.id && accepted.sequence == 1;
  }

  lemma {:induction false} SaveKeepsLogs(s: StoreState, record: Record, expected: nat, appended: seq<Event>)
    requires LogsComplete(s)
    ensures LogsComplete(Saved(s, record, expected, appended))
  {
    if SaveAcceptedIn(s, record, expected, appended) {
      var log := s.events[record.id];
      assert Contiguous(record.id, log + appended);
    }
  }

  /** A write that is accepted only appends, and moves the revision by exactly one along an
      edge of the lifecycle graph; a write that loses changes nothing; no other execution is
      touched either way. */
  lemma {:induction false} SaveIsCompareAndSwap(s: StoreState, record: Record, expected: nat, appended: seq<Event>)
    requires LogsComplete(s)
    ensures var t := Saved(s, record, expected, appended);
            && t.idempotency == s.idempotency
            && (forall id | id in s.records && id != record.id ::
                  id in t.records && t.records[id] == s.records[id] && t.events[id] == s.events[id])
            && (record.id in s.records && s.records[record.id].revision != expected ==> t == s)
            && (t != s ==>
                  && record.id in s.records
                  && t.records[record.id].revision == s.records[record.id].revision + 1
                  && (t.records[record.id].status == s.records[record.id].status
                      || ValidTransition(s.records[record.id].status, t.records[record.id].status))
                  && s.events[record.id] <= t.events[record.id])
  {
    hide RecordValid, ValidTransition, Contiguous, Appendable;
  }

  /** Admission keeps the index exact unless, and only unless, it brings a new key together
      with an identifier that is already taken. */
  lemma {:induction false} CreateKeepsIndexIff(s: StoreState, record: Record, accepted: Event)
    requires LogsComplete(s) && IndexExact(s)
    requires RecordValid(record) && AcceptedStart(record, accepted)
    ensures IndexExact(Created(s, record, accepted).0) <==>
            !(&& record.idempotencyKey != "" && IndexKey(record) !in s.idempotency
              && record.id in s.records)
  {
    hide RecordValid, AcceptedStart, IndexKey, Contiguous;
    var (t, r) := Created(s, record, accepted);
    if record.idempotencyKey != "" && IndexKey(record) !in s.idempotency && record.id in s.records {
      assert t.idempotency[IndexKey(record)] == record.id;
      var holder := t.records[record.id];
      assert holder.idempotencyKey != "" ==> IndexKey(holder) in s.idempotency;
      assert !IndexExact(t);
    }
  }

  /** What goes wrong outside that condition: a create that is refused because its identifier is
      taken still leaves its key in the index, pointing at the other execution. A later, valid create
      under that key is then answered with the foreign record or with a conflict. */
  lemma {:induction false} RefusedCreateBindsKey(s: StoreState, record: Record, accepted: Event, later: Record,
                                                 acceptedLater: Event)
    requires RecordValid(record) && AcceptedStart(record, accepted)
    requires record.id in s.records && record.idempotencyKey != "" && IndexKey(record) !in s.idempotency
    requires RecordValid(later) && AcceptedStart(later, acceptedLater) && later.id !in s.records
    requires later.owner == record.owner && later.idempotencyKey == record.idempotencyKey
    ensures var (t, r) := Created(s, record, accepted);
            && r == Err(InvalidExecution) && t.records == s.records
            && Created(t, later, acceptedLater) ==
               (t, if s.records[record.id].requestHash == later.requestHash
                   then Ok(Admission(s.records[record.id], true)) else Err(IdempotencyConflict))
  {
    hide RecordValid, AcceptedStart;
    assert IndexKey(later) == IndexKey(record);
  }

  /** A save that keeps the owner and key of the record, as every caller's does, keeps the index. */
  lemma {:induction false} SaveKeepsIndex(s: StoreState, record: Record, expected: nat, appended: seq<Event>)
    requires LogsComplete(s) && IndexExact(s)
    requires record.id in s.records ==> s.records[record.id].idempotencyKey == record.idempotencyKey
    ensures IndexExact(Saved(s, record, expected, appended))
  {
    hide RecordValid, Contiguous, Appendable, ValidTransition;
  }

  /** At most one execution is ever admitted for an owner and key. */
  lemma {:induction false} OneExecutionPerKey(s: StoreState, id1: string, id2: string)
    requires IndexExact(s)
    requires id1 in s.records && id2 in s.records
    requires s.records[id1].idempotencyKey == s.records[id2].idempotencyKey != ""
    requires s.records[id1].owner == s.records[id2].owner
    ensures id1 == id2
  {
    assert IndexKey(s.records[id1]) == IndexKey(s.records[id2]);
  }

  /** The answer of a create whose key is already bound: the first execution when the hashes
      agree, a conflict when they differ, and no change in either case. */
  lemma {:induction false} CreateReplaysExactly(s: StoreState, first: string, record: Record, accepted: Event)
    requires IndexExact(s) && OwnersClean(s) && NUL !in record.owner
    requires RecordValid(record) && AcceptedStart(record, accepted)
    requires first in s.records
    requires s.records[first].owner == record.owner
    requires s.records[first].idempotencyKey == record.idempotencyKey != ""
    ensures Created(s, record, accepted) ==
            (s, if s.records[first].requestHash == record.requestHash
                then Ok(Admission(s.records[first], true)) else Err(IdempotencyConflict))
  {
    assert IndexKey(s.records[first]) == IndexKey(record);
  }

  /** A valid create with a new identifier, and with no key or one under which its owner has created nothing,
      is admitted and stored with its first event. */
  lemma {:induction false} FreshCreateIsAdmitted(s: StoreState, record: Record, accepted: Event)
    requires IndexExact(s) && OwnersClean(s) && NUL !in record.owner
    requires RecordValid(record) && AcceptedStart(record, accepted) && record.id !in s.records
    requires forall id | id in s.records :: Admitted(s.records[id], record.owner, record.idempotencyKey) ==>
                                              record.idempotencyKey == ""
    ensures var (t, r) := Created(s, record, accepted);
            && r == Ok(Admission(record, false))
            && t.records == s.records[record.id := record] && t.events == s.events[record.id := [accepted]]
            && t.idempotency == if record.idempotencyKey == "" then s.idempotency
                                else s.idempotency[IndexKey(record) := record.id]
  {
    hide RecordValid, AcceptedStart;
    if record.idempotencyKey != "" && IndexKey(record) in s.idempotency {
      var holder := s.records[s.idempotency[IndexKey(record)]];
      JoinedInjective(holder.owner, holder.idempotencyKey, record.owner, record.idempotencyKey);
    }
  }

  lemma {:induction false} AdmittedIsStored(s: StoreState, record: Record, accepted: Event)
    requires Created(s, record, accepted).1 == Ok(Admission(record, false))
    ensures RecordValid(record) && AcceptedStart(record, accepted) && record.id !in s.records
    ensures Created(s, record, accepted).0.records == s.records[record.id := record]
  {
    hide RecordValid, AcceptedStart, IndexKey;
  }

  /** A save moves no record to another owner. */
  lemma {:induction false} SaveKeepsOwners(s: StoreState, record: Record, expected: nat, appended: seq<Event>)
    ensures var t := Saved(s, record, expected, appended);
            && t.records.Keys == s.records.Keys
            && (forall id | id in s.records :: t.records[id].owner == s.records[id].owner)
            && (forall id | id in s.records ::
                  t.records[id] == s.records[id] || (id == record.id && t.records[id] == record))
  {
    hide RecordValid, Appendable, ValidTransition;
  }

  /** Re-creating what was just admitted, after any saves that leave its key and hash alone,
      replays it: no second record appears. */
  lemma {:induction false} CreateTwiceAdmitsOnce(s: StoreState, record: Record, accepted: Event, later: Record,
                              expected: nat, appended: seq<Event>, again: Record, acceptedAgain: Event)
    requires LogsComplete(s) && IndexExact(s) && OwnersClean(s) && NUL !in record.owner
    requires Created(s, record, accepted).1 == Ok(Admission(record, false))
    requires record.idempotencyKey != ""
    requires later.id == record.id && later.idempotencyKey == record.idempotencyKey
    requires later.requestHash == record.requestHash
    requires RecordValid(again) && AcceptedStart(again, acceptedAgain)
    requires again.owner == record.owner && again.idempotencyKey == record.idempotencyKey
    requires again.requestHash == record.requestHash
    ensures var t := Saved(Created(s, record, accepted).0, later, expected, appended);
            && record.id in t.records
            && Created(t, again, acceptedAgain) == (t, Ok(Admission(t.records[record.id], true)))
  {
    hide RecordValid, AcceptedStart, LogsComplete, IndexExact, IndexKey, Created, Saved;
    var s1 := Created(s, record, accepted).0;
    AdmittedIsStored(s, record, accepted);
    SaveKeepsOwners(s1, later, expected, appended);
    CreateKeepsLogs(s, record, accepted);
    CreateKeepsIndexIff(s, record, accepted);
    SaveKeepsIndex(s1, later, expected, appended);
    CreateReplaysExactly(Saved(s1, later, expected, appended), record.id, again, acceptedAgain);
  }

  // ----- every interleaving ---------------------------------------------------------------

  datatype Operation =
    | CreateOp(record: Record, accepted: Event)
    | SaveOp(record: Record, expected: nat, appended: seq<Event>)

  ghost function Applied(s: StoreState, op: Operation): StoreState {
    match op
    case CreateOp(record, accepted) => Created(s, record, accepted).0
    case SaveOp(record, expected, appended) => Saved(s, record, expected, appended)
  }

  /** Identifiers are fresh, owners hold no NUL, and saves keep what identifies an execution. */
  ghost predicate Orderly(s: StoreState, op: Operation) {
    match op
    case CreateOp(record, _) => record.id !in s.records && NUL !in record.owner
    case SaveOp(record, _, _) =>
      record.id in s.records ==>
        && record.idempotencyKey == s.records[record.id].idempotencyKey
        && record.requestHash == s.records[record.id].requestHash
  }

  /** The state after all operations of all callers, in the order in which they took the mutex. */
  ghost function Run(s: StoreState, ops: seq<Operation>): StoreState
    decreases |ops|
  {
    if ops == [] then s else Run(Applied(s, ops[0]), ops[1..])
  }

  ghost predicate OrderlyRun(s: StoreState, ops: seq<Operation>)
    decreases |ops|
  {
    ops != [] ==> Orderly(s, ops[0]) && OrderlyRun(Applied(s, ops[0]), ops[1..])
  }

  /** Nothing that was stored is lost or rebound: logs only grow, revisions never go back, and
      a key keeps naming the execution it was first given to. */
  ghost predicate Extends(s: StoreState, t: StoreState) {
    && (forall id | id in s.records ::
          && id in t.records && id in t.events && id in s.events
          && s.events[id] <= t.events[id]
          && s.records[id].revision <= t.records[id].revision
          && s.records[id].owner == t.records[id].owner
          && s.records[id].idempotencyKey == t.records[id].idempotencyKey
          && s.records[id].requestHash == t.records[id].requestHash)
    && (forall k | k in s.idempotency :: k in t.idempotency && t.idempotency[k] == s.idempotency[k])
  }

  lemma {:induction false} CreateKeepsOwnersClean(s: StoreState, record: Record, accepted: Event)
    requires OwnersClean(s) && NUL !in record.owner
    ensures OwnersClean(Created(s, record, accepted).0)
  {
    hide RecordValid, AcceptedStart, IndexKey;
  }

  lemma {:induction false} CreateExtends(s: StoreState, record: Record, accepted: Event)
    requires LogsComplete(s) && OwnersClean(s) && Orderly(s, CreateOp(record, accepted))
    ensures var t := Created(s, record, accepted).0; OwnersClean(t) && Extends(s, t)
  {
    hide RecordValid, AcceptedStart, IndexKey, Contiguous, OwnersClean;
    var t := Created(s, record, accepted).0;
    CreateKeepsOwnersClean(s, record, accepted);
    if t != s {
      assert t.records == s.records[record.id := record];
      assert t.events == s.events[record.id := [accepted]];
    }
  }

  lemma {:induction false} SaveKeepsOwnersClean(s: StoreState, record: Record, expected: nat, appended: seq<Event>)
    requires OwnersClean(s)
    ensures OwnersClean(Saved(s, record, expected, appended))
  {
    hide Saved;
    SaveKeepsOwners(s, record, expected, appended);
  }

  lemma {:induction false} SaveExtends(s: StoreState, record: Record, expected: nat, appended: seq<Event>)
    requires LogsComplete(s) && OwnersClean(s) && Orderly(s, SaveOp(record, expected, appended))
    ensures var t := Saved(s, record, expected, appended); OwnersClean(t) && Extends(s, t)
  {
    hide RecordValid, Contiguous, Appendable, ValidTransition, OwnersClean;
    SaveKeepsOwnersClean(s, record, expected, appended);
    if SaveAcceptedIn(s, record, expected, appended) {
      assert s.events[record.id] <= s.events[record.id] + appended;
    }
  }

  lemma {:induction false} StepKeepsStore(s: StoreState, op: Operation)
    requires LogsComplete(s) && IndexExact(s) && OwnersClean(s) && Orderly(s, op)
    ensures var t := Applied(s, op);
            LogsComplete(t) && IndexExact(t) && OwnersClean(t) && Extends(s, t)
  {
    match op
    case CreateOp(record, accepted) =>
      CreateKeepsLogs(s, record, accepted);
      CreateExtends(s, record, accepted);
      if RecordValid(record) && AcceptedStart(record, accepted) {
        CreateKeepsIndexIff(s, record, accepted);
      } else {
        assert Applied(s, op) == s;
      }
    case SaveOp(record, expected, appended) =>
      SaveKeepsLogs(s, record, expected, appended);
      SaveExtends(s, record, expected, appended);
      SaveKeepsIndex(s, record, expected, appended);
  }

  /** Every interleaving of creates and saves keeps the logs gap-free and append-only, and every
      owner and key bound to one execution for good. */
  lemma {:induction false} RunKeepsStore(s: StoreState, ops: seq<Operation>)
    requires LogsComplete(s) && IndexExact(s) && OwnersClean(s) && OrderlyRun(s, ops)
    ensures var t := Run(s, ops);
            LogsComplete(t) && IndexExact(t) && OwnersClean(t) && Extends(s, t)
    decreases |ops|
  {
    if ops != [] {
      var u := Applied(s, ops[0]);
      StepKeepsStore(s, ops[0]);
      RunKeepsStore(u, ops[1..]);
    }
  }

  // ----- reading --------------------------------------------------------------------------

  /** The events of `log` strictly after `cursor`, selected by their sequence numbers. */
  function EventsAfter(log: seq<Event>, cursor: nat): seq<Event> {
    if log == [] then []
    else EventsAfter(log[..|log| - 1], cursor)
         + (if log[|log| - 1].sequence > cursor then [log[|log| - 1]] else [])
  }

  /** On a log without gaps, selecting by sequence is the slice from the cursor. */
  lemma {:induction false} EventsAfterIsSlice(id: string, log: seq<Event>, cursor: nat)
    requires Contiguous(id, log)
    ensures EventsAfter(log, cursor) == if cursor >= |log| then [] else log[cursor..]
  {
    if log != [] {
      EventsAfterIsSlice(id, log[..|log| - 1], cursor);
      if cursor < |log| - 1 {
        assert log[cursor..] == log[..|log| - 1][cursor..] + [log[|log| - 1]];
      }
    }
  }

  lemma {:induction false} LogsHaveRecords(s: StoreState, id: string)
    requires LogsComplete(s)
    ensures id in s.records <==> id in s.events
  {
    hide Contiguous;
  }

  lemma {:induction false} StoredUnderOwnId(s: StoreState, id: string)
    requires LogsComplete(s)
    ensures id in s.records ==> s.records[id].id == id
  {
    hide Contiguous;
  }

  class MemoryStore {
    var records: map<string, Record>
    var idempotency: map<string, string>
    var events: map<string, seq<Event>>

    ghost function State(): StoreState
      reads this
    {
      StoreState(records, idempotency, events)
    }

    ghost predicate Valid()
      reads this
    {
      LogsComplete(State())
    }

    constructor ()
      ensures State() == EmptyState && Valid() && IndexExact(State())
    {
      records, idempotency, events := map[], map[], map[];
    }

    method LookupIdempotency(owner: string, key: string, requestHash: string)
      returns (r: Result<Option<Record>, StoreError>)
      requires Valid()
      ensures r.Ok? && r.value.Some? ==>
              r.value.value in records.Values && r.value.value.requestHash == requestHash
      ensures IndexExact(State()) && OwnersClean(State()) && NUL !in owner ==>
              && (r == Ok(None) <==>
                    key == "" || forall id | id in records :: !Admitted(records[id], owner, key))
              && (r.Ok? && r.value.Some? ==> Admitted(r.value.value, owner, key))
              && (r.Err? ==>
                    exists id | id in records ::
                      Admitted(records[id], owner, key) && records[id].requestHash != requestHash)
    {
      if key == "" {
        return Ok(None);
      }
      if Joined(owner, key) !in idempotency {
        return Ok(None);
      }
      var id := idempotency[Joined(owner, key)];
      assert id in idempotency.Values;
      if NUL !in records[id].owner && NUL !in owner {
        JoinedInjective(records[id].owner, records[id].idempotencyKey, owner, key);
      }
      if records[id].requestHash != requestHash {
        return Err(IdempotencyConflict);
      }
      return Ok(Some(records[id]));
    }

    method Create(record: Record, accepted: Event) returns (r: Result<Admission, StoreError>)
      requires Valid()
      modifies this
      ensures Valid()
      ensures (State(), r) == Created(old(State()), record, accepted)
      ensures RecordValid(record) && AcceptedStart(record, accepted) && record.id !in old(records)
              && (record.idempotencyKey == "" || Joined(record.owner, record.idempotencyKey) !in old(idempotency)) ==>
                && r == Ok(Admission(record, false))
                && records == old(records)[record.id := record] && events == old(events)[record.id := [accepted]]
    {
      hide RecordValid, AcceptedStart, LogsComplete;
      CreateKeepsLogs(State(), record, accepted);
      if !RecordValid(record) || !AcceptedStart(record, accepted) {
        return Err(InvalidExecution);
      }
      if record.idempotencyKey != "" {
        var key := Joined(record.owner, record.idempotencyKey);
        if key in idempotency {
          var existingId := idempotency[key];
          if existingId !in records || records[existingId].requestHash != record.requestHash {
            return Err(IdempotencyConflict);
          }
          return Ok(Admission(records[existingId], true));
        }
        idempotency := idempotency[key := record.id];
      }
      if record.id in records {
        return Err(InvalidExecution);
      }
      records := records[record.id := record];
      events := events[record.id := [accepted]];
      return Ok(Admission(record, false));
    }

    method Get(owner: string, id: string) returns (r: Result<Record, StoreError>)
      ensures r == if id in records && records[id].owner == owner then Ok(records[id])
                   else Err(ExecutionNotFound)
    {
      if id !in records || records[id].owner != owner {
        return Err(ExecutionNotFound);
      }
      return Ok(records[id]);
    }

    method Save(record: Record, expected: nat, appended: seq<Event>)
      returns (r: Result<(), StoreError>)
      requires Valid()
      modifies this
      ensures Valid()
      ensures State() == Saved(old(State()), record, expected, appended)
      ensures r.Ok? <==>
                && RecordValid(record)
                && record.id in old(records) && old(records[record.id].owner) == record.owner
                && old(records[record.id].revision) == expected && record.revision == expected + 1
                && (old(records[record.id].status) == record.status
                    || ValidTransition(old(records[record.id].status), record.status))
                && record.id in old(events)
                && forall i | 0 <= i < |appended| ::
                     && EventValid(appended[i]) && appended[i].executionId == record.id
                     && appended[i].sequence == |old(events[record.id])| + 1 + i
      ensures r.Err? ==> unchanged(this)
      ensures r.Ok? ==>
                && records == old(records)[record.id := record] && idempotency == old(idempotency)
                && events == old(events)[record.id := old(events[record.id]) + appended]
      ensures (&& RecordValid(record) && record.id in old(records)
               && old(records[record.id].owner) == record.owner
               && old(records[record.id].revision) != expected) ==> r == Err(RevisionConflict)
    {
      hide LogsComplete, EventValid, ValidTransition;
      SaveKeepsLogs(State(), record, expected, appended);
      LogsHaveRecords(State(), record.id);
      StoredUnderOwnId(State(), record.id);
      if !RecordValid(record) {
        return Err(InvalidExecution);
      }
      if record.id !in records || records[record.id].owner != record.owner {
        return Err(ExecutionNotFound);
      }
      var current := records[record.id];
      if current.revision != expected || record.revision != expected + 1 {
        return Err(RevisionConflict);
      }
      if current.status != record.status && !ValidTransition(current.status, record.status) {
        return Err(InvalidExecution);
      }
      var currentEvents := events[record.id];
      var nextSequence := |currentEvents| + 1;
      for index := 0 to |appended|
        invariant Appendable(record, currentEvents, appended[..index])
      {
        var event := appended[index];
        assert appended[..index + 1][index] == event;
        if !EventValid(event) {
          return Err(InvalidExecution);
        }
        if event.executionId != record.id || event.sequence != nextSequence + index {
          return Err(InvalidExecution);
        }
        assert appended[..index + 1] == appended[..index] + [event];
      }
      assert appended[..|appended|] == appended;
      records := records[record.id := record];
      events := events[record.id := currentEvents + appended];
      return Ok(());
    }

    method ListEvents(owner: string, id: string, afterSequence: nat)
      returns (r: Result<seq<Event>, StoreError>)
      requires Valid()
      ensures r == if id in records && records[id].owner == owner
                   then Ok(EventsAfter(events[id], afterSequence)) else Err(ExecutionNotFound)
    {
      var found := Get(owner, id);
      if found.Err? {
        return Err(found.error);
      }
      var values := events[id];
      EventsAfterIsSlice(id, values, afterSequence);
      if afterSequence >= |values| {
        return Ok([]);
      }
      return Ok(values[afterSequence..]);
    }
  }
}
