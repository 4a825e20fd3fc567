/** Following the event log over HTTP: event identifiers, the replay cursor, and what a client that
    reconnects any number of times has received. */
module EventReplay {
  import opened Text
  import opened ExecutionTypes
  import opened ExecutionStore

  const UINT64_LIMIT := 0x1_0000_0000_0000_0000

  function Prefix(executionId: string): string
    requires |executionId| > 4
  {
    "evt_" + executionId[4..] + "_"
  }

  /** The identifier of the event with this sequence number. */
  function EventId(executionId: string, sequence: nat): string
    requires |executionId| > 4
  {
    Prefix(executionId) + Decimal(sequence)
  }

  // ----- the cursor -----------------------------------------------------------------------

  predicate AllDigits(s: string) {
    forall c <- s :: IsDigit(c)
  }

  /** strconv.ParseUint in base ten, for sixty-four bits. */
  function ParsedUint(s: string): Option<nat> {
    if s == "" || !AllDigits(s) || DigitsValue(s) >= UINT64_LIMIT then None else Some(DigitsValue(s))
  }

  /** parseLastEventID: the sequence after which replay continues. */
  function Parsed(executionId: string, eventId: string): Result<nat, ()> {
    if eventId == "" then Ok(0)
    else if |executionId| <= 4 || !(Prefix(executionId) <= eventId) then Err(())
    else
      var sequence := ParsedUint(eventId[|Prefix(executionId)|..]);
      if sequence.None? || sequence.value == 0 then Err(()) else Ok(sequence.value)
  }

  method ParseLastEventId(executionId: string, eventId: string) returns (r: Result<nat, ()>)
    ensures r == Parsed(executionId, eventId)
    ensures r == Ok(0) <==> eventId == ""
    ensures forall sequence: nat :: sequence > 0 ==>
              (r == Ok(sequence) <==>
                 && |executionId| > 4 && "evt_" + executionId[4..] + "_" <= eventId
                 && var digits := eventId[|executionId| + 1..];
                    digits != "" && AllDigits(digits) && DigitsValue(digits) == sequence < UINT64_LIMIT)
  {
    if eventId == "" {
      return Ok(0);
    }
    if |executionId| <= 4 {
      return Err(());
    }
    var prefix := "evt_" + executionId[4..] + "_";
    if !(prefix <= eventId) {
      return Err(());
    }
    var sequence := ParsedUint(eventId[|prefix|..]);
    if sequence.None? || sequence.value == 0 {
      return Err(());
    }
    return Ok(sequence.value);
  }

  /** The cursor inverts the identifier format for every positive sequence number. */
  lemma {:induction false} ParseInvertsFormat(executionId: string, sequence: nat)
    requires |executionId| > 4 && 0 < sequence < UINT64_LIMIT
    ensures Parsed(executionId, EventId(executionId, sequence)) == Ok(sequence)
  {
    DecimalRoundTrip(sequence);
    assert EventId(executionId, sequence)[|Prefix(executionId)|..] == Decimal(sequence);
  }

  /** It accepts the identifier of an event of another execution exactly when both executions have
      the same identifier after the first four characters, whatever characters follow. */
  lemma {:induction false} ParseKeepsExecutionsApart(id1: string, id2: string, sequence: nat)
    requires |id1| > 4 && |id2| > 4 && 0 < sequence < UINT64_LIMIT
    ensures Parsed(id1, EventId(id2, sequence)).Ok? <==> id1[4..] == id2[4..]
    ensures id1[..4] == id2[..4] ==> (Parsed(id1, EventId(id2, sequence)).Ok? <==> id1 == id2)
  {
    DecimalRoundTrip(sequence);
    var eventId := EventId(id2, sequence);
    if id1[4..] == id2[4..] {
      assert EventId(id1, sequence) == eventId;
      ParseInvertsFormat(id1, sequence);
    }
    if Parsed(id1, eventId).Ok? {
      var tail := eventId[|Prefix(id1)|..];
      assert eventId == Prefix(id1) + tail;
      assert AllDigits(tail) && !IsDigit('_');
      assert "evt_" + id1[4..] + ['_'] + tail == "evt_" + id2[4..] + ['_'] + Decimal(sequence);
      LastSeparator("evt_" + id1[4..], tail, "evt_" + id2[4..], Decimal(sequence), '_');
      assert ("evt_" + id1[4..])[4..] == id1[4..] && ("evt_" + id2[4..])[4..] == id2[4..];
    }
    assert id1 == id1[..4] + id1[4..] && id2 == id2[..4] + id2[4..];
  }

  // ----- one connection -------------------------------------------------------------------

  /** What one turn of the loop reads: the log, and afterwards whether the record is terminal. */
  datatype Poll = Poll(log: seq<Event>, terminal: bool)

  /** The events that a connection sends when `writes` of its writes go through. */
  function Served(polls: seq<Poll>, cursor: nat, writes: nat): seq<Event>
    decreases |polls|
  {
    if polls == [] then []
    else
      var events := EventsAfter(polls[0].log, cursor);
      if |events| > writes then events[..writes]
      else if polls[0].terminal then events
      else events + Served(polls[1..], CursorAfter(cursor, events), writes - |events|)
  }

  function CursorAfter(cursor: nat, events: seq<Event>): nat {
    if events == [] then cursor else events[|events| - 1].sequence
  }

  /** The answer to a request: an invalid cursor is refused. */
  function Answer(executionId: string, lastEventId: string, polls: seq<Poll>, writes: nat)
    : Result<seq<Event>, ()>
  {
    var cursor := Parsed(executionId, lastEventId);
    if cursor.Err? then Err(cursor.error) else Ok(Served(polls, cursor.value, writes))
  }

  /** The writes of one turn: the cursor follows each event that went through. */
  method Send(events: seq<Event>, cursor0: nat, writes: nat)
    returns (sent: seq<Event>, cursor: nat, broken: bool)
    ensures broken <==> |events| > writes
    ensures sent == if broken then events[..writes] else events
    ensures cursor == CursorAfter(cursor0, sent)
  {
    sent, cursor := [], cursor0;
    for i := 0 to |events|
      invariant i <= writes && sent == events[..i] && cursor == CursorAfter(cursor0, sent)
    {
      if i == writes {
        return sent, cursor, true;
      }
      sent, cursor := sent + [events[i]], events[i].sequence;
    }
    return sent, cursor, false;
  }

  /** handleExecutionEvents: read, send, move the cursor, look at the status. */
  method Serve(executionId: string, lastEventId: string, polls: seq<Poll>, writes: nat)
    returns (r: Result<seq<Event>, ()>)
    ensures r == Answer(executionId, lastEventId, polls, writes)
  {
    hide Parsed, EventsAfter;
    var parsed := ParseLastEventId(executionId, lastEventId);
    if parsed.Err? {
      return Err(parsed.error);
    }
    var cursor, sent := parsed.value, [];
    for turn := 0 to |polls|
      invariant |sent| <= writes
      invariant Served(polls, parsed.value, writes) == sent + Served(polls[turn..], cursor, writes - |sent|)
    {
      assert polls[turn..][0] == polls[turn] && polls[turn..][1..] == polls[turn + 1..];
      var events := EventsAfter(polls[turn].log, cursor);
      var now, broken;
      now, cursor, broken := Send(events, cursor, writes - |sent|);
      sent := sent + now;
      if broken || polls[turn].terminal {
        return Ok(sent);
      }
    }
    assert polls[|polls|..] == [] && sent + [] == sent;
    return Ok(sent);
  }

  /** Every turn reads a state of the log `full`. */
  ghost predicate ReadsOf(polls: seq<Poll>, full: seq<Event>) {
    forall i | 0 <= i < |polls| :: polls[i].log <= full
  }

  lemma {:induction false} PrefixIsContiguous(id: string, log: seq<Event>, full: seq<Event>)
    requires Contiguous(id, full) && log <= full
    ensures Contiguous(id, log)
  {
  }

  /** One turn sends what its log holds after the cursor. */
  lemma {:induction false} TurnIsSlice(id: string, polls: seq<Poll>, cursor: nat, full: seq<Event>)
    requires Contiguous(id, full) && ReadsOf(polls, full) && polls != []
    ensures var events := EventsAfter(polls[0].log, cursor);
            && CursorAfter(cursor, events) == cursor + |events|
            && (if cursor >= |full| then events == []
                else cursor + |events| <= |full| && events == full[cursor..cursor + |events|])
    ensures ReadsOf(polls[1..], full)
  {
    hide EventsAfter;
    var log := polls[0].log;
    PrefixIsContiguous(id, log, full);
    EventsAfterIsSlice(id, log, cursor);
    if cursor < |log| {
      assert log[cursor..] == full[cursor..|log|];
      assert log[|log| - 1] == full[|log| - 1];
    }
  }

  /** A connection sends a piece of the log that starts right after its cursor and has no gap, however
      the log grows meanwhile and wherever the connection breaks. */
  lemma {:induction false} ServedIsSlice(id: string, polls: seq<Poll>, cursor: nat, writes: nat, full: seq<Event>)
    requires Contiguous(id, full) && ReadsOf(polls, full)
    ensures var n := |Served(polls, cursor, writes)|;
            if cursor >= |full| then n == 0
            else cursor + n <= |full| && Served(polls, cursor, writes) == full[cursor..cursor + n]
    decreases |polls|
  {
    hide EventsAfter, Contiguous, ReadsOf, CursorAfter;
    if polls != [] {
      TurnIsSlice(id, polls, cursor, full);
      var n := |EventsAfter(polls[0].log, cursor)|;
      if n <= writes && !polls[0].terminal {
        ServedIsSlice(id, polls[1..], cursor + n, writes - n, full);
        var rest := |Served(polls[1..], cursor + n, writes - n)|;
        if cursor + n < |full| {
          SlicesJoin(full, cursor, cursor + n, cursor + n + rest);
        }
      }
    }
  }

  // ----- a client that reconnects ---------------------------------------------------------

  /** A connection attempt: what the server reads, and how many writes reach the client. */
  datatype Connection = Connection(polls: seq<Poll>, writes: nat)

  /** What the client has after one more connection: it presents the last identifier it has seen. */
  function Reconnected(id: string, received: seq<Event>, c: Connection): seq<Event>
    requires |id| > 4
  {
    var last := if received == [] then "" else EventId(id, received[|received| - 1].sequence);
    match Parsed(id, last)
    case Err(_) => received
    case Ok(cursor) => received + Served(c.polls, cursor, c.writes)
  }

  function Received(id: string, connections: seq<Connection>): seq<Event>
    requires |id| > 4
  {
    if connections == [] then []
    else Reconnected(id, Received(id, connections[..|connections| - 1]), connections[|connections| - 1])
  }

  lemma {:induction false} ReconnectExtends(id: string, received: seq<Event>, c: Connection, full: seq<Event>)
    requires |id| > 4 && Contiguous(id, full) && |full| < UINT64_LIMIT
    requires received <= full && ReadsOf(c.polls, full)
    ensures received <= Reconnected(id, received, c) <= full
    ensures Reconnected(id, received, c) == received + Served(c.polls, |received|, c.writes)
  {
    hide Served, EventsAfter, ParsedUint, Decimal;
    if received != [] {
      assert received[|received| - 1] == full[|received| - 1];
      ParseInvertsFormat(id, |received|);
    }
    ServedIsSlice(id, c.polls, |received|, c.writes, full);
    var n := |Served(c.polls, |received|, c.writes)|;
    if |received| < |full| {
      assert full[..|received|] + full[|received|..|received| + n] == full[..|received| + n];
    }
  }

  /** Over any number of reconnects, at any state of a growing log and broken off anywhere, the client
      has received a prefix of the log: no event is missing in between and none comes twice. */
  lemma {:induction false} ReconnectsDeliverPrefix(id: string, connections: seq<Connection>, full: seq<Event>)
    requires |id| > 4 && Contiguous(id, full) && |full| < UINT64_LIMIT
    requires forall c <- connections :: ReadsOf(c.polls, full)
    ensures Received(id, connections) <= full
  {
    if connections != [] {
      var earlier, last := connections[..|connections| - 1], connections[|connections| - 1];
      assert last in connections;
      ReconnectsDeliverPrefix(id, earlier, full);
      ReconnectExtends(id, Received(id, earlier), last, full);
    }
  }

  // ----- when one connection is enough ----------------------------------------------------

  /** Later turns read later states of the log. */
  ghost predicate Growing(polls: seq<Poll>) {
    forall i, j | 0 <= i < j < |polls| :: polls[i].log <= polls[j].log
  }

  /** The log that the last turn reads: the loop ends at the first turn that finds a terminal status. */
  function LastRead(polls: seq<Poll>): seq<Event>
    decreases |polls|
  {
    if polls == [] then []
    else if polls[0].terminal || |polls| == 1 then polls[0].log
    else LastRead(polls[1..])
  }

  lemma {:induction false} LastReadIsLatest(polls: seq<Poll>)
    requires Growing(polls) && polls != []
    ensures polls[0].log <= LastRead(polls)
    ensures exists i | 0 <= i < |polls| :: LastRead(polls) == polls[i].log
    decreases |polls|
  {
    if !polls[0].terminal && |polls| > 1 {
      RestIsGrowing(polls);
      LastReadIsLatest(polls[1..]);
      assert polls[1..][0] == polls[1];
      var i :| 0 <= i < |polls| - 1 && LastRead(polls[1..]) == polls[1..][i].log;
      assert polls[i + 1] == polls[1..][i];
    }
  }

  lemma {:induction false} RestIsGrowing(polls: seq<Poll>)
    requires polls != [] && Growing(polls)
    ensures Growing(polls[1..])
  {
    forall i, j | 0 <= i < j < |polls[1..]| ensures polls[1..][i].log <= polls[1..][j].log {
      assert polls[1..][i] == polls[i + 1] && polls[1..][j] == polls[j + 1];
    }
  }

  lemma {:induction false} TurnSends(id: string, log: seq<Event>, cursor: nat)
    requires Contiguous(id, log)
    ensures var events := EventsAfter(log, cursor);
            && |events| == (if cursor >= |log| then 0 else |log| - cursor)
            && CursorAfter(cursor, events) == (if cursor >= |log| then cursor else |log|)
  {
    hide EventsAfter;
    EventsAfterIsSlice(id, log, cursor);
  }

  function Least(a: nat, b: nat): nat {
    if a <= b then a else b
  }

  /** How much a connection sends: what lies between its cursor and the last log it reads, cut off where
      its writes end. */
  lemma {:induction false} ServedSize(id: string, polls: seq<Poll>, cursor: nat, writes: nat, full: seq<Event>)
    requires Contiguous(id, full) && ReadsOf(polls, full) && Growing(polls)
    ensures |Served(polls, cursor, writes)| ==
            if cursor >= |LastRead(polls)| then 0 else Least(writes, |LastRead(polls)| - cursor)
    decreases |polls|
  {
    hide EventsAfter;
    if polls != [] {
      var log := polls[0].log;
      PrefixIsContiguous(id, log, full);
      TurnSends(id, log, cursor);
      LastReadIsLatest(polls);
      var events := EventsAfter(log, cursor);
      if |events| <= writes && !polls[0].terminal {
        RestIsGrowing(polls);
        ServedSize(id, polls[1..], CursorAfter(cursor, events), writes - |events|, full);
        if |polls| == 1 {
          assert polls[1..] == [];
        }
      }
    }
  }

  /** One connection delivers all the rest of a log if and only if all its writes for it go through and
      the last log that it reads is the whole one. */
  lemma {:induction false} ConnectionCompletesIff(id: string, polls: seq<Poll>, cursor: nat, writes: nat,
                                                  full: seq<Event>)
    requires Contiguous(id, full) && ReadsOf(polls, full) && Growing(polls) && cursor < |full|
    ensures Served(polls, cursor, writes) == full[cursor..] <==>
            writes >= |full| - cursor && LastRead(polls) == full
  {
    hide Served, EventsAfter;
    ServedSize(id, polls, cursor, writes, full);
    ServedIsSlice(id, polls, cursor, writes, full);
    LastReadIsPrefix(polls, full);
  }

  lemma {:induction false} LastReadIsPrefix(polls: seq<Poll>, full: seq<Event>)
    requires ReadsOf(polls, full) && Growing(polls)
    ensures LastRead(polls) <= full
    ensures |LastRead(polls)| == |full| ==> LastRead(polls) == full
  {
    hide Growing, LastRead;
    if polls != [] {
      LastReadIsLatest(polls);
    } else {
      assert LastRead([]) == [] by { NoRead(); }
    }
  }

  lemma {:induction false} NoRead()
    ensures LastRead([]) == []
  {
  }

  /** A client that lacks something has the whole log after one more connection exactly then. */
  lemma {:induction false} ReconnectCompletesIff(id: string, connections: seq<Connection>, c: Connection,
                                                 full: seq<Event>)
    requires |id| > 4 && Contiguous(id, full) && |full| < UINT64_LIMIT
    requires forall c <- connections :: ReadsOf(c.polls, full)
    requires ReadsOf(c.polls, full) && Growing(c.polls) && |Received(id, connections)| < |full|
    ensures Received(id, connections + [c]) == full <==>
            c.writes >= |full| - |Received(id, connections)| && LastRead(c.polls) == full
  {
    hide Parsed, EventsAfter, Served, LastRead, Growing;
    var before := Received(id, connections);
    assert (connections + [c])[..|connections|] == connections;
    ReconnectsDeliverPrefix(id, connections, full);
    ReconnectExtends(id, before, c, full);
    ConnectionCompletesIff(id, c.polls, |before|, c.writes, full);
    assert full == full[..|before|] + full[|before|..];
    var served := Served(c.polls, |before|, c.writes);
    if before + served == full {
      assert served == full[|before|..];
    }
  }

  /** Without the reconnect the tail may be missing: the status is read after the log, so a record
      that became terminal in between ends the connection before its last event was sent. */
  lemma {:induction false} TerminalCheckDropsTail(id: string, log: seq<Event>, last: Event, writes: nat)
    requires Contiguous(id, log + [last]) && writes >= |log|
    ensures Served([Poll(log, true)], 0, writes) == log != log + [last]
  {
    assert forall i | 0 <= i < |log| :: log[i] == (log + [last])[i];
    EventsAfterIsSlice(id, log, 0);
  }
}
