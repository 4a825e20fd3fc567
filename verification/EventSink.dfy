/** The sink that stores provider events while the upstream stream is still open, and what is left
    to store once the complete result is there. */
module EventSink {
  import opened Text
  import opened ExecutionTypes

  /** One call of a driver on the sink. `stored` is the joint verdict of the event reducer and of the
      compare-and-swap write, which fails for good once the execution is terminal. */
  datatype SinkCall = Emit(event: ProviderEvent, stored: bool) | EmitProgress(stored: bool)

  function Ids(events: seq<ProviderEvent>): set<string> {
    set e | e in events :: e.eventId
  }

  predicate DistinctEvents(events: seq<ProviderEvent>) {
    forall i, j | 0 <= i < j < |events| :: events[i].eventId != events[j].eventId
  }

  /** What reaches the log: stored events, each identifier once. */
  function Streamed(calls: seq<SinkCall>): (events: seq<ProviderEvent>)
    ensures DistinctEvents(events)
  {
    if calls == [] then []
    else
      var earlier, last := Streamed(calls[..|calls| - 1]), calls[|calls| - 1];
      if last.Emit? && last.stored && last.event.eventId !in Ids(earlier) then earlier + [last.event]
      else earlier
  }

  /** Something of this dispatch is public: an event, or the progress of a resource. */
  predicate Emitted(calls: seq<SinkCall>) {
    exists call <- calls :: call.stored
  }

  /** The part of a history whose identifiers have not been emitted, in order. */
  function Pending(history: seq<ProviderEvent>, emitted: set<string>): seq<ProviderEvent> {
    if history == [] then []
    else
      var last := history[|history| - 1];
      Pending(history[..|history| - 1], emitted) + if last.eventId in emitted then [] else [last]
  }

  /** `log` is what the store has taken from this sink. */
  class DurableEventSink {
    var emittedProviderEventIds: set<string>
    var emittedResourceEvents: nat
    var log: seq<ProviderEvent>
    ghost var calls: seq<SinkCall>

    ghost predicate Valid()
      reads this
    {
      && log == Streamed(calls) && emittedProviderEventIds == Ids(log)
      && (emittedProviderEventIds != {} || emittedResourceEvents > 0 <==> Emitted(calls))
    }

    constructor ()
      ensures Valid() && calls == [] && log == []
    {
      emittedProviderEventIds, emittedResourceEvents, log, calls := {}, 0, [], [];
    }

    /** Emit and EmitResourceProgress: a repeated event is accepted and not stored again. */
    method Call(call: SinkCall)
      requires Valid()
      modifies this
      ensures Valid() && calls == old(calls) + [call]
      ensures log == if call.Emit? && call.stored && (forall e <- old(log) :: e.eventId != call.event.eventId)
                     then old(log) + [call.event] else old(log)
    {
      hide Streamed, Emitted;
      calls := calls + [call];
      StreamedAppend(old(calls), call);
      EmittedAppend(old(calls), call);
      StreamedIsEmitted(old(calls));
      if call.EmitProgress? {
        if call.stored {
          emittedResourceEvents := emittedResourceEvents + 1;
        }
        return;
      }
      if call.event.eventId in emittedProviderEventIds {
        return;
      }
      if call.stored {
        log := log + [call.event];
        emittedProviderEventIds := emittedProviderEventIds + {call.event.eventId};
      }
    }

    method EmittedCount() returns (n: nat)
      requires Valid()
      ensures n > 0 <==> Emitted(calls)
    {
      n := |emittedProviderEventIds| + emittedResourceEvents;
    }

    method FilterPending(events: seq<ProviderEvent>) returns (pending: seq<ProviderEvent>)
      requires Valid()
      ensures pending == Pending(events, Ids(Streamed(calls)))
    {
      pending := [];
      for i := 0 to |events|
        invariant pending == Pending(events[..i], emittedProviderEventIds)
      {
        assert events[..i + 1][..i] == events[..i];
        if events[i].eventId !in emittedProviderEventIds {
          pending := pending + [events[i]];
        }
      }
      assert events[..|events|] == events;
    }
  }

  lemma {:induction false} StreamedAppend(calls: seq<SinkCall>, call: SinkCall)
    ensures Streamed(calls + [call]) ==
            if call.Emit? && call.stored && call.event.eventId !in Ids(Streamed(calls))
            then Streamed(calls) + [call.event] else Streamed(calls)
    ensures Ids(Streamed(calls)) == {} <==> Streamed(calls) == []
  {
    assert (calls + [call])[..|calls|] == calls;
    if Streamed(calls) != [] {
      assert Streamed(calls)[0].eventId in Ids(Streamed(calls));
    }
  }

  lemma {:induction false} EmittedAppend(calls: seq<SinkCall>, call: SinkCall)
    ensures Emitted(calls + [call]) <==> Emitted(calls) || call.stored
  {
    if Emitted(calls) {
      var c :| c in calls && c.stored;
      assert c in calls + [call];
    }
    assert call in calls + [call];
  }

  lemma {:induction false} StreamedIsEmitted(calls: seq<SinkCall>)
    ensures Streamed(calls) != [] ==> Emitted(calls)
  {
    if calls != [] {
      var last := calls[|calls| - 1];
      StreamedIsEmitted(calls[..|calls| - 1]);
      EmittedAppend(calls[..|calls| - 1], last);
      assert calls[..|calls| - 1] + [last] == calls;
    }
  }

  // ----- in the order of the stream -------------------------------------------------------

  /** The positions of some elements, in the order of the list they come from. */
  ghost predicate Increasing(picked: seq<nat>) {
    forall k, l | 0 <= k < l < |picked| :: picked[k] < picked[l]
  }

  /** The first call that stores an event of this identifier. */
  ghost predicate StoresFirst(calls: seq<SinkCall>, i: nat) {
    && i < |calls| && calls[i].Emit? && calls[i].stored
    && forall j | 0 <= j < i :: calls[j].Emit? && calls[j].stored ==> calls[j].event.eventId != calls[i].event.eventId
  }

  predicate Stores(call: SinkCall, eventId: string) {
    call.Emit? && call.stored && call.event.eventId == eventId
  }

  lemma {:induction false} SeenIffStored(calls: seq<SinkCall>, eventId: string)
    ensures eventId in Ids(Streamed(calls)) <==> exists call <- calls :: Stores(call, eventId)
  {
    if calls != [] {
      var earlier, last := calls[..|calls| - 1], calls[|calls| - 1];
      SeenIffStored(earlier, eventId);
      StreamedAppend(earlier, last);
      assert calls == earlier + [last] && last in calls;
      hide Streamed, Stores;
      LastId(Streamed(earlier), last);
      assert forall call <- earlier :: call in calls;
    }
  }

  lemma {:induction false} LastId(events: seq<ProviderEvent>, last: SinkCall)
    ensures last.Emit? ==> Ids(events + [last.event]) == Ids(events) + {last.event.eventId}
  {
    if last.Emit? {
      assert last.event in events + [last.event] && forall e <- events :: e in events + [last.event];
    }
  }

  lemma {:induction false} FirstsGrow(earlier: seq<SinkCall>, last: SinkCall)
    ensures forall i: nat | i < |earlier| :: StoresFirst(earlier + [last], i) <==> StoresFirst(earlier, i)
    ensures StoresFirst(earlier + [last], |earlier|) <==>
            last.Emit? && last.stored && last.event.eventId !in Ids(Streamed(earlier))
  {
    hide Streamed, Ids;
    var calls := earlier + [last];
    forall i: nat | i < |earlier| ensures StoresFirst(calls, i) <==> StoresFirst(earlier, i) {
      assert forall j | 0 <= j <= i :: calls[j] == earlier[j];
    }
    if last.Emit? {
      SeenIffStored(earlier, last.event.eventId);
      assert forall j | 0 <= j < |earlier| :: calls[j] == earlier[j] && earlier[j] in earlier;
    }
  }

  /** The log shows the first stored event of every identifier as it was emitted, in the order of the
      calls, and nothing else. */
  lemma {:induction false} StreamedIsInOrder(calls: seq<SinkCall>) returns (picked: seq<nat>)
    ensures Increasing(picked) && forall i: nat :: i in picked <==> StoresFirst(calls, i)
    ensures |Streamed(calls)| == |picked|
    ensures forall k | 0 <= k < |picked| ::
              StoresFirst(calls, picked[k]) && Streamed(calls)[k] == calls[picked[k]].event
  {
    hide StoresFirst, Streamed, Ids;
    picked := [];
    if calls == [] {
      NothingStored();
    } else {
      var n := |calls| - 1;
      var earlier := calls[..n];
      assert earlier + [calls[n]] == calls;
      picked := StreamedIsInOrder(earlier);
      StreamedAppend(earlier, calls[n]);
      FirstsGrow(earlier, calls[n]);
      FirstsAreCalls(calls);
      FirstsAreCalls(earlier);
      if StoresFirst(calls, n) {
        picked := picked + [n];
      }
    }
  }

  lemma {:induction false} NothingStored()
    ensures Streamed([]) == [] && forall i: nat :: !StoresFirst([], i)
  {
  }

  lemma {:induction false} FirstsAreCalls(calls: seq<SinkCall>)
    ensures forall i: nat :: StoresFirst(calls, i) ==> i < |calls| && calls[i].Emit?
  {
  }

  /** What is pending keeps the order of the history, whatever was emitted. */
  lemma {:induction false} PendingIsInOrder(history: seq<ProviderEvent>, emitted: set<string>)
    returns (picked: seq<nat>)
    ensures Increasing(picked)
    ensures forall i: nat :: i in picked <==> i < |history| && history[i].eventId !in emitted
    ensures |Pending(history, emitted)| == |picked|
    ensures forall k | 0 <= k < |picked| :: picked[k] in picked && Pending(history, emitted)[k] == history[picked[k]]
  {
    picked := [];
    if history != [] {
      var n := |history| - 1;
      picked := PendingIsInOrder(history[..n], emitted);
      if history[n].eventId !in emitted {
        picked := picked + [n];
      }
    }
  }

  // ----- every event once -----------------------------------------------------------------

  lemma {:induction false} PendingHolds(history: seq<ProviderEvent>, emitted: set<string>, e: ProviderEvent)
    ensures e in Pending(history, emitted) <==> e in history && e.eventId !in emitted
  {
    if history != [] {
      var shorter, last := history[..|history| - 1], history[|history| - 1];
      PendingHolds(shorter, emitted, e);
      assert history == shorter + [last];
    }
  }

  lemma {:induction false} PendingIsDistinct(history: seq<ProviderEvent>, emitted: set<string>)
    requires DistinctEvents(history)
    ensures DistinctEvents(Pending(history, emitted))
  {
    if history != [] {
      var shorter, last := history[..|history| - 1], history[|history| - 1];
      PendingIsDistinct(shorter, emitted);
      forall e | e in Pending(shorter, emitted) ensures e.eventId != last.eventId {
        PendingHolds(shorter, emitted, e);
        var i :| 0 <= i < |shorter| && shorter[i] == e;
      }
    }
  }

  lemma {:induction false} PendingShape(history: seq<ProviderEvent>, emitted: set<string>)
    requires DistinctEvents(history)
    ensures DistinctEvents(Pending(history, emitted))
    ensures forall e :: e in Pending(history, emitted) <==> e in history && e.eventId !in emitted
  {
    hide Pending, DistinctEvents;
    PendingIsDistinct(history, emitted);
    forall e ensures e in Pending(history, emitted) <==> e in history && e.eventId !in emitted {
      PendingHolds(history, emitted, e);
    }
  }

  /** Events with distinct identifiers and the same members are the same bag. */
  lemma {:induction false} SameBag(a: seq<ProviderEvent>, b: seq<ProviderEvent>)
    requires DistinctEvents(a) && DistinctEvents(b)
    requires forall e :: e in a <==> e in b
    ensures multiset(a) == multiset(b)
  {
    forall e ensures multiset(a)[e] == multiset(b)[e] {
      AtMostOnce(a, e);
      AtMostOnce(b, e);
    }
  }

  lemma {:induction false} AtMostOnce(a: seq<ProviderEvent>, e: ProviderEvent)
    requires DistinctEvents(a)
    ensures multiset(a)[e] == if e in a then 1 else 0
  {
    if a != [] {
      var shorter, last := a[..|a| - 1], a[|a| - 1];
      AtMostOnce(shorter, e);
      assert a == shorter + [last];
    }
  }

  /** Exactly once: the streamed events and the pending rest make up the validated history, no
      event missing and none twice, if and only if everything streamed belongs to the history. */
  lemma {:induction false} StreamedPlusPendingIff(calls: seq<SinkCall>, history: seq<ProviderEvent>)
    requires DistinctEvents(history)
    ensures var streamed := Streamed(calls);
            multiset(streamed + Pending(history, Ids(streamed))) == multiset(history) <==>
            forall e <- streamed :: e in history
  {
    var streamed := Streamed(calls);
    var pending := Pending(history, Ids(streamed));
    PendingShape(history, Ids(streamed));
    if multiset(streamed + pending) == multiset(history) {
      forall e <- streamed ensures e in history {
        assert e in multiset(streamed + pending);
      }
    }
    if forall e <- streamed :: e in history {
      OwnIds(streamed, history);
      SameBag(streamed + pending, history);
    }
  }

  lemma {:induction false} OwnIds(streamed: seq<ProviderEvent>, history: seq<ProviderEvent>)
    requires DistinctEvents(history) && DistinctEvents(streamed) && forall e <- streamed :: e in history
    ensures forall e <- history :: e.eventId in Ids(streamed) <==> e in streamed
    ensures DistinctEvents(streamed + Pending(history, Ids(streamed)))
    ensures forall e :: e in streamed + Pending(history, Ids(streamed)) <==> e in history
  {
    PendingShape(history, Ids(streamed));
    forall e <- history ensures e.eventId in Ids(streamed) <==> e in streamed {
      if e.eventId in Ids(streamed) {
        var s :| s in streamed && s.eventId == e.eventId;
        SameIdSameEvent(history, s, e);
      }
    }
    var all, pending := streamed + Pending(history, Ids(streamed)), Pending(history, Ids(streamed));
    forall i, j | 0 <= i < j < |all| ensures all[i].eventId != all[j].eventId {
      if i < |streamed| <= j {
        assert streamed[i] in streamed && all[j] in pending;
      } else if |streamed| <= i {
        assert all[i] == pending[i - |streamed|] && all[j] == pending[j - |streamed|];
      }
    }
  }

  lemma {:induction false} SameIdSameEvent(history: seq<ProviderEvent>, a: ProviderEvent, b: ProviderEvent)
    requires DistinctEvents(history) && a in history && b in history && a.eventId == b.eventId
    ensures a == b
  {
    var i :| 0 <= i < |history| && history[i] == a;
    var j :| 0 <= j < |history| && history[j] == b;
    assert i == j;
  }

  /** In order: the log shows the history itself if and only if the stream was a prefix of it. */
  lemma {:induction false} StreamedInOrderIff(calls: seq<SinkCall>, history: seq<ProviderEvent>)
    requires DistinctEvents(history)
    ensures var streamed := Streamed(calls);
            streamed + Pending(history, Ids(streamed)) == history <==> streamed <= history
  {
    var streamed := Streamed(calls);
    if streamed <= history {
      PendingAfterPrefix(history, |streamed|);
      assert streamed == history[..|streamed|];
      assert history == history[..|streamed|] + history[|streamed|..];
    }
    if streamed + Pending(history, Ids(streamed)) == history {
      assert streamed <= streamed + Pending(history, Ids(streamed));
    }
  }

  lemma {:induction false} NothingPending(history: seq<ProviderEvent>, emitted: set<string>)
    requires forall e <- history :: e.eventId in emitted
    ensures Pending(history, emitted) == []
  {
    if history != [] {
      NothingPending(history[..|history| - 1], emitted);
    }
  }

  lemma {:induction false} NotInPrefix(history: seq<ProviderEvent>, n: nat)
    requires DistinctEvents(history) && n < |history|
    ensures history[|history| - 1].eventId !in Ids(history[..n])
  {
    forall e | e in history[..n] ensures e.eventId != history[|history| - 1].eventId {
      var i :| 0 <= i < n && history[i] == e;
    }
  }

  lemma {:induction false} PendingAfterPrefix(history: seq<ProviderEvent>, n: nat)
    requires DistinctEvents(history) && n <= |history|
    ensures Pending(history, Ids(history[..n])) == history[n..]
    decreases |history| - n
  {
    if n == |history| {
      NothingPending(history, Ids(history[..n]));
    } else {
      var shorter := history[..|history| - 1];
      hide Ids;
      assert shorter[..n] == history[..n];
      PendingAfterPrefix(shorter, n);
      NotInPrefix(history, n);
      assert history[n..] == shorter[n..] + [history[|history| - 1]];
    }
  }
}
