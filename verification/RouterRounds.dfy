/** The loops behind router tool rounds: selecting the calls of a provider result, committing a
    round, and rebuilding the counters of an interrupted execution. */
module RouterRounds {
  import opened Text
  import opened ExecutionTypes
  import opened RouterHistory

  // ----- the plan -------------------------------------------------------------------------

  method MaximumRouterToolCalls(plan: Plan) returns (total: nat)
    ensures total == Ceilings(Bindings(plan))
  {
    hide Ceilings, StandardBindings, ExtensionBindings;
    NoCeilings();
    total := 0;
    for i := 0 to |plan.standard|
      invariant total == Ceilings(StandardBindings(plan.standard[..i]))
    {
      var entry := plan.standard[i];
      StandardCeiling(plan.standard, i);
      if entry.mode == Router && entry.binding.Some? {
        total := total + entry.binding.value.maximumCalls;
      }
    }
    assert plan.standard[..|plan.standard|] == plan.standard;
    for i := 0 to |plan.extensions|
      invariant total == Ceilings(StandardBindings(plan.standard))
                         + Ceilings(ExtensionBindings(plan.extensions[..i]))
    {
      var entry := plan.extensions[i];
      ExtensionCeiling(plan.extensions, i);
      if entry.binding.Some? {
        total := total + entry.binding.value.maximumCalls;
      }
    }
    assert plan.extensions[..|plan.extensions|] == plan.extensions;
    CeilingsConcat(StandardBindings(plan.standard), ExtensionBindings(plan.extensions));
  }

  lemma {:induction false} NoCeilings()
    ensures Ceilings(StandardBindings([])) == 0 && Ceilings(ExtensionBindings([])) == 0
  {
  }

  lemma {:induction false} StandardCeiling(entries: seq<StandardEntry>, i: nat)
    requires i < |entries|
    ensures Ceilings(StandardBindings(entries[..i + 1])) ==
            Ceilings(StandardBindings(entries[..i]))
            + if entries[i].mode == Router && entries[i].binding.Some?
              then entries[i].binding.value.maximumCalls else 0
  {
    hide Ceilings;
    var b := entries[i].binding;
    assert entries[..i + 1][..i] == entries[..i];
    if entries[i].mode == Router && b.Some? {
      CeilingsConcat(StandardBindings(entries[..i]), [b.value]);
    } else {
      CeilingsConcat(StandardBindings(entries[..i]), []);
    }
  }

  lemma {:induction false} ExtensionCeiling(entries: seq<ExtensionEntry>, i: nat)
    requires i < |entries|
    ensures Ceilings(ExtensionBindings(entries[..i + 1])) ==
            Ceilings(ExtensionBindings(entries[..i]))
            + if entries[i].binding.Some? then entries[i].binding.value.maximumCalls else 0
  {
    hide Ceilings;
    var b := entries[i].binding;
    assert entries[..i + 1][..i] == entries[..i];
    if b.Some? {
      CeilingsConcat(ExtensionBindings(entries[..i]), [b.value]);
    } else {
      CeilingsConcat(ExtensionBindings(entries[..i]), []);
    }
  }

  lemma {:induction false} CeilingsConcat(a: seq<Binding>, b: seq<Binding>)
    ensures Ceilings(a + b) == Ceilings(a) + Ceilings(b)
    ensures b == [] ==> Ceilings(b) == 0
    ensures |b| == 1 ==> Ceilings(b) == b[0].maximumCalls
    decreases |b|
  {
    if b == [] {
      assert a + b == a;
    } else {
      CeilingsConcat(a, b[..|b| - 1]);
      assert (a + b)[..|a + b| - 1] == a + b[..|b| - 1];
    }
  }

  method PlannedBindings(plan: Plan) returns (planned: map<string, Binding>)
    ensures planned == Planned(plan)
  {
    planned := map[];
    for i := 0 to |plan.standard|
      invariant planned == StandardByName(plan.standard[..i])
    {
      var entry := plan.standard[i];
      assert plan.standard[..i + 1][..i] == plan.standard[..i];
      if entry.mode == Router && entry.binding.Some? {
        planned := planned[StandardName(entry.kind) := entry.binding.value];
      }
    }
    assert plan.standard[..|plan.standard|] == plan.standard;
    for i := 0 to |plan.extensions|
      invariant planned == ExtensionByName(StandardByName(plan.standard), plan.extensions[..i])
    {
      var entry := plan.extensions[i];
      assert plan.extensions[..i + 1][..i] == plan.extensions[..i];
      if entry.binding.Some? {
        planned := planned[ExtensionName(entry.kind) := entry.binding.value];
      }
    }
    assert plan.extensions[..|plan.extensions|] == plan.extensions;
  }

  // ----- selecting the calls of a result --------------------------------------------------

  datatype OutputItem = OutputItem(isCall: bool, callId: string, name: string, completed: bool)

  datatype RouterCall = RouterCall(callId: string, name: string, binding: Binding)

  /** The planned calls of a result, in the order of the provider: `picked` names the items they come from.
      A planned call must be complete and identified; a reserved name that is not planned is an error. */
  method RouterToolCalls(items: seq<OutputItem>, plan: Plan)
    returns (r: Result<seq<RouterCall>, ()>, ghost picked: seq<nat>)
    ensures r.Ok? <==>
              forall item <- items | item.isCall ::
                if item.name in Planned(plan) then item.completed && Trim(item.callId) != ""
                else !ReservedName(item.name)
    ensures r.Ok? ==>
              && |r.value| == |picked|
              && (forall k, l | 0 <= k < l < |picked| :: picked[k] < picked[l])
              && (forall i: nat :: i in picked <==> i < |items| && items[i].isCall && items[i].name in Planned(plan))
              && (forall k | 0 <= k < |picked| ::
                    && picked[k] < |items| && items[picked[k]].name in Planned(plan)
                    && r.value[k] == RouterCall(items[picked[k]].callId, items[picked[k]].name,
                                                Planned(plan)[items[picked[k]].name]))
              && forall c <- r.value :: WellPlanned(c, Planned(plan))
  {
    hide Trim, Blank, ReservedName, Planned;
    var planned := PlannedBindings(plan);
    var calls: seq<RouterCall> := [];
    picked := [];
    for i := 0 to |items|
      invariant forall k | 0 <= k < i && items[k].isCall ::
                  if items[k].name in planned then items[k].completed && Trim(items[k].callId) != ""
                  else !ReservedName(items[k].name)
      invariant |calls| == |picked| && forall k, l | 0 <= k < l < |picked| :: picked[k] < picked[l]
      invariant forall j: nat :: j in picked <==> j < i && items[j].isCall && items[j].name in planned
      invariant forall k | 0 <= k < |picked| ::
                  && picked[k] < i && items[picked[k]].name in planned
                  && calls[k] == RouterCall(items[picked[k]].callId, items[picked[k]].name,
                                            planned[items[picked[k]].name])
      invariant forall c <- calls :: WellPlanned(c, planned)
    {
      var item := items[i];
      assert item in items;
      if !item.isCall {
        continue;
      }
      if item.name !in planned {
        if ReservedName(item.name) {
          return Err(()), picked;
        }
        continue;
      }
      BlankIsTrimmedAway(item.callId);
      if !item.completed || Trim(item.callId) == "" {
        return Err(()), picked;
      }
      calls, picked := calls + [RouterCall(item.callId, item.name, planned[item.name])], picked + [i];
    }
    return Ok(calls), picked;
  }

  predicate WellPlanned(call: RouterCall, planned: map<string, Binding>) {
    call.name in planned && call.binding == planned[call.name] && !Blank(call.callId)
  }

  // ----- reading the history --------------------------------------------------------------

  lemma {:induction false} CountedConcat(a: seq<ContextItem>, b: seq<ContextItem>,
                                         planned: map<string, Binding>)
    ensures Counted(a + b, planned) == Counted(a, planned) + Counted(b, planned)
    decreases |b|
  {
    if b == [] {
      assert a + b == a;
    } else {
      CountedConcat(a, b[..|b| - 1], planned);
      assert (a + b)[..|a + b| - 1] == a + b[..|b| - 1];
    }
  }

  lemma {:induction false} CountedRemove(calls: seq<ContextItem>, k: nat, planned: map<string, Binding>)
    requires k < |calls| && calls[k].ToolCall? && calls[k].name in planned
    ensures Counted(calls[..k] + calls[k + 1..], planned) + multiset{planned[calls[k].name].id}
            == Counted(calls, planned)
  {
    assert calls == calls[..k] + ([calls[k]] + calls[k + 1..]);
    CountedConcat(calls[..k], [calls[k]] + calls[k + 1..], planned);
    CountedConcat([calls[k]], calls[k + 1..], planned);
    CountedConcat(calls[..k], calls[k + 1..], planned);
    assert [calls[k]][..0] == [];
    assert Counted([calls[k]], planned) == multiset{planned[calls[k].name].id};
  }

  lemma {:induction false} CallsStep(context: seq<ContextItem>, i: nat)
    requires i < |context|
    ensures Calls(context[..i + 1])
            == Calls(context[..i]) + if Reserved(context[i]) then [context[i]] else []
    ensures Calls(context[..i + 1]) <= Calls(context)
  {
    assert context[..i + 1][..i] == context[..i];
    assert context == context[..i + 1] + context[i + 1..];
    CallsConcat(context[..i + 1], context[i + 1..]);
  }

  lemma {:induction false} IdsAppend(calls: seq<ContextItem>, item: ContextItem)
    requires DistinctIds(calls) && CallId(item) !in CallIds(calls)
    ensures DistinctIds(calls + [item])
    ensures CallIds(calls + [item]) == CallIds(calls) + {CallId(item)}
  {
    forall i | 0 <= i < |calls| ensures CallId(calls[i]) in CallIds(calls) {
      assert calls[i] in calls;
    }
  }

  lemma {:induction false} NoCallsYet(context: seq<ContextItem>)
    ensures Calls(context[..0]) == [] && CallIds([]) == {} && DistinctIds([])
  {
  }

  /** The first pass: every reserved call must be a committed one with an identifier of its own. */
  method CollectCalls(context: seq<ContextItem>, planned: map<string, Binding>)
    returns (r: Result<(seq<ContextItem>, set<string>), ()>)
    ensures r.Ok? <==>
              (forall c <- Calls(context) :: Committed(c, planned)) && DistinctIds(Calls(context))
    ensures r.Ok? ==> r.value == (Calls(context), CallIds(Calls(context)))
  {
    hide Trim, Blank, ReservedName, Calls, Committed;
    NoCallsYet(context);
    var calls: seq<ContextItem> := [];
    var seen: set<string> := {};
    for i := 0 to |context|
      invariant calls == Calls(context[..i]) && seen == CallIds(calls)
      invariant (forall c <- calls :: Committed(c, planned)) && DistinctIds(calls)
    {
      var item := context[i];
      CallsStep(context, i);
      if !Reserved(item) {
        continue;
      }
      ghost var all := Calls(context);
      assert all[|calls|] == item;
      if !Committed(item, planned) {
        return Err(());
      }
      var id := CallId(item);
      if id in seen {
        ghost var k :| 0 <= k < |calls| && CallId(calls[k]) == id;
        assert all[k] == calls[k];
        return Err(());
      }
      IdsAppend(calls, item);
      calls, seen := calls + [item], seen + {id};
    }
    assert context[..|context|] == context;
    return Ok((calls, seen));
  }

  predicate AnswersSame(a: ContextItem, b: ContextItem, seen: set<string>) {
    a.ToolResult? && b.ToolResult? && CallId(a) == CallId(b) && CallId(a) in seen
  }

  /** No call of `seen` is answered twice. */
  predicate SingleAnswers(context: seq<ContextItem>, seen: set<string>) {
    forall j, k | 0 <= j < |context| && 0 <= k < |context| ::
      AnswersSame(context[j], context[k], seen) ==> j == k
  }

  /** `results` holds the answers to the calls of `seen`. */
  ghost predicate ResultsOf(context: seq<ContextItem>, seen: set<string>,
                            results: map<string, ContextItem>)
  {
    && (forall id | id in results :: id in seen && Answers(results[id], id) && results[id] in context)
    && (forall item <- context :: item.ToolResult? && CallId(item) in seen ==>
          CallId(item) in results && results[CallId(item)] == item)
  }

  /** The second pass: the result of each collected call. A second answer is corruption. */
  method CollectResults(context: seq<ContextItem>, seen: set<string>)
    returns (r: Result<map<string, ContextItem>, ()>)
    ensures r.Ok? <==> SingleAnswers(context, seen)
    ensures r.Ok? ==> ResultsOf(context, seen, r.value)
  {
    hide Trim;
    var results: map<string, ContextItem> := map[];
    for i := 0 to |context|
      invariant SingleAnswers(context[..i], seen) && ResultsOf(context[..i], seen, results)
    {
      var item := context[i];
      assert context[..i + 1] == context[..i] + [item];
      if !item.ToolResult? {
        continue;
      }
      var id := CallId(item);
      if id !in seen {
        continue;
      }
      if id in results {
        ghost var j :| 0 <= j < i && context[..i][j] == results[id];
        assert AnswersSame(context[j], context[i], seen);
        return Err(());
      }
      results := results[id := item];
    }
    assert context[..|context|] == context;
    return Ok(results);
  }

  /** routerToolHistory. The last loop follows a Go map, which has no order: any of the
      remaining calls may come next. */
  method RouterToolHistory(record: Record) returns (r: Result<History, ()>)
    requires PlanValid(record.plan)
    ensures r == Restored(record)
  {
    var total := MaximumRouterToolCalls(record.plan);
    if total == 0 {
      return Ok(History(multiset{}, {}));
    }
    if record.request.conversation.None? {
      return Err(());
    }
    var context := record.request.conversation.value;
    var planned := PlannedBindings(record.plan);
    PlannedConsistent(record.plan);
    var collected := CollectCalls(context, planned);
    if collected.Err? {
      return Err(());
    }
    var calls, seen := collected.value.0, collected.value.1;
    var results := CollectResults(context, seen);
    if results.Err? {
      if Restorable(context, planned) {
        RestorableHasSingleAnswers(context, planned);
      }
      return Err(());
    }
    var counted := CountCalls(context, calls, results.value, planned);
    if counted.Err? {
      return Err(());
    }
    return Ok(History(counted.value, seen));
  }

  lemma {:induction false} PlannedConsistent(plan: Plan)
    requires PlanValid(plan)
    ensures Consistent(Planned(plan))
  {
    PlannedShape(plan);
  }

  lemma {:induction false} RestorableHasSingleAnswers(context: seq<ContextItem>, planned: map<string, Binding>)
    requires Restorable(context, planned)
    ensures SingleAnswers(context, CallIds(Calls(context)))
  {
    forall j, k | 0 <= j < |context| && 0 <= k < |context|
                  && AnswersSame(context[j], context[k], CallIds(Calls(context)))
      ensures j == k
    {
      var c :| c in Calls(context) && CallId(c) == CallId(context[j]);
      AnswersAreEqual(context, c, j, k);
    }
  }

  method CountCalls(context: seq<ContextItem>, calls: seq<ContextItem>,
                    results: map<string, ContextItem>, planned: map<string, Binding>)
    returns (r: Result<multiset<string>, ()>)
    requires Consistent(planned) && forall c <- calls :: c.ToolCall? && c.name in planned
    requires SingleAnswers(context, CallIds(calls)) && ResultsOf(context, CallIds(calls), results)
    ensures r.Ok? <==> (forall c <- calls :: AnsweredOnce(context, c))
                       && WithinCeilings(Counted(calls, planned), planned)
    ensures r.Ok? ==> r.value == Counted(calls, planned)
  {
    var counts: multiset<string> := multiset{};
    var pending := calls;
    while pending != []
      invariant forall c <- pending :: c in calls
      invariant forall c <- calls :: c in pending || AnsweredOnce(context, c)
      invariant counts + Counted(pending, planned) == Counted(calls, planned)
      invariant WithinCeilings(counts, planned)
      decreases |pending|
    {
      var k :| 0 <= k < |pending|;
      var item := pending[k];
      assert item in calls && CallId(item) in CallIds(calls);
      if CallId(item) !in results || !Pairs(results[CallId(item)], item) {
        Unpaired(context, calls, results, item);
        return Err(());
      }
      PairedOnce(context, calls, results, item);
      CountedRemove(pending, k, planned);
      RemoveKeepsOthers(pending, k);
      var binding := planned[item.name];
      CeilingStep(counts, planned, item.name);
      counts := counts + multiset{binding.id};
      pending := pending[..k] + pending[k + 1..];
      if counts[binding.id] > binding.maximumCalls {
        assert Counted(calls, planned)[binding.id] > planned[item.name].maximumCalls;
        return Err(());
      }
    }
    return Ok(counts);
  }

  lemma {:induction false} RemoveKeepsOthers(s: seq<ContextItem>, k: nat)
    requires k < |s|
    ensures forall c <- s :: c == s[k] || c in s[..k] + s[k + 1..]
    ensures forall c <- s[..k] + s[k + 1..] :: c in s
  {
    assert s == s[..k] + [s[k]] + s[k + 1..];
  }

  lemma {:induction false} Unpaired(context: seq<ContextItem>, calls: seq<ContextItem>,
                                    results: map<string, ContextItem>, c: ContextItem)
    requires CallId(c) in CallIds(calls) && ResultsOf(context, CallIds(calls), results)
    requires CallId(c) !in results || !Pairs(results[CallId(c)], c)
    ensures !AnsweredOnce(context, c)
  {
    forall j | 0 <= j < |context| && Answers(context[j], CallId(c)) ensures !Pairs(context[j], c) {
      assert context[j] in context;
    }
  }

  lemma {:induction false} PairedOnce(context: seq<ContextItem>, calls: seq<ContextItem>,
                                      results: map<string, ContextItem>, c: ContextItem)
    requires CallId(c) in CallIds(calls) && ResultsOf(context, CallIds(calls), results)
    requires SingleAnswers(context, CallIds(calls))
    requires CallId(c) in results && Pairs(results[CallId(c)], c)
    ensures AnsweredOnce(context, c)
  {
    var j :| 0 <= j < |context| && context[j] == results[CallId(c)];
    forall k | 0 <= k < |context| && Answers(context[k], CallId(c)) ensures k == j {
      assert AnswersSame(context[j], context[k], CallIds(calls));
    }
  }

  // ----- committing a round ---------------------------------------------------------------

  /** routerChildIdentifier: a digest of the execution, the call and the round. */
  function Preimage(executionId: string, callId: string, round: nat): string {
    executionId + [NUL] + callId + [NUL] + Decimal(round)
  }

  /** A digest that does not collide makes the identifiers of distinct calls and rounds distinct,
      whatever the provider put into the call identifier, NUL included. */
  lemma {:induction false} PreimageInjective(e1: string, c1: string, r1: nat,
                                             e2: string, c2: string, r2: nat)
    requires NUL !in e1 && NUL !in e2
    requires Preimage(e1, c1, r1) == Preimage(e2, c2, r2)
    ensures e1 == e2 && c1 == c2 && r1 == r2
  {
    DecimalRoundTrip(r1);
    DecimalRoundTrip(r2);
    LastSeparator(e1 + [NUL] + c1, Decimal(r1), e2 + [NUL] + c2, Decimal(r2), NUL);
    FirstSeparator(e1, c1, e2, c2, NUL);
    DecimalInjective(r1, r2);
  }

  /** The identifiers of one execution's router children, for a given digest. */
  function ChildIdentifier(digest: string -> string, prefix: string, executionId: string,
                           callId: string, round: nat): string
  {
    prefix + "_" + digest(Preimage(executionId, callId, round))
  }

  lemma {:induction false} ChildIdentifiersDiffer(digest: string -> string, prefix: string,
                                                  e1: string, c1: string, r1: nat,
                                                  e2: string, c2: string, r2: nat)
    requires forall a, b :: digest(a) == digest(b) ==> a == b
    requires NUL !in e1 && NUL !in e2
    ensures ChildIdentifier(digest, prefix, e1, c1, r1) == ChildIdentifier(digest, prefix, e2, c2, r2)
            <==> e1 == e2 && c1 == c2 && r1 == r2
  {
    var id1, id2 := ChildIdentifier(digest, prefix, e1, c1, r1), ChildIdentifier(digest, prefix, e2, c2, r2);
    if id1 == id2 {
      var n := |prefix| + 1;
      assert id1[n..] == digest(Preimage(e1, c1, r1)) && id2[n..] == digest(Preimage(e2, c2, r2));
      PreimageInjective(e1, c1, r1, e2, c2, r2);
    }
  }

  /** The part of vcp.ValidateContext that concerns identities and relations. */
  predicate ContextValid(items: seq<ContextItem>) {
    && (forall i | 0 <= i < |items| :: !Blank(items[i].itemId) && items[i].sequence != 0)
    && (forall i, j | 0 <= i < j < |items| ::
          items[i].itemId != items[j].itemId && items[i].sequence < items[j].sequence)
    && (forall i, j | 0 <= i < j < |items| && items[i].ToolCall? && items[j].ToolCall? ::
          items[i].callId != items[j].callId)
    && (forall i | 0 <= i < |items| && items[i].ToolResult? :: CalledBefore(items, i))
    && (forall i | 0 <= i < |items| && items[i].parentItemId != "" :: ParentBefore(items, i))
  }

  predicate CalledBefore(items: seq<ContextItem>, i: nat)
    requires i < |items| && items[i].ToolResult?
  {
    exists k | 0 <= k < i :: items[k].ToolCall? && items[k].callId == items[i].callId
  }

  predicate ParentBefore(items: seq<ContextItem>, i: nat)
    requires i < |items|
  {
    exists k | 0 <= k < i :: items[k].itemId == items[i].parentItemId
  }

  /** With trimmed call identifiers on both sides, a context that passes the validator is
      unambiguous: only white space can break recovery. */
  lemma {:induction false} TrimmedContextsAreUnambiguous(context: seq<ContextItem>, log: seq<Entry>)
    requires ContextValid(context + Injected(log))
    requires forall e <- log :: Trimmed(e.callId)
    requires forall item <- context :: item.ToolCall? ==> Trimmed(item.callId)
    ensures Unambiguous(context, log)
  {
    hide Injected, Trim, Blank, ParentBefore, Trimmed;
    var items := context + Injected(log);
    InjectedAt(log);
    forall r, i | 0 <= r < |context| && context[r].ToolResult? && 0 <= i < |log|
      ensures Trim(context[r].callId) != log[i].callId
    {
      assert items[r] == context[r] && CalledBefore(items, r);
      var k :| 0 <= k < r && items[k].ToolCall? && items[k].callId == items[r].callId;
      assert items[k] == context[k] && context[k] in context;
      TrimFixesTrimmed(context[k].callId);
      var own := |context| + 2 * i;
      assert items[own] == Injected(log)[2 * i] && items[own].ToolCall?;
      assert items[k].callId != items[own].callId;
    }
    forall item <- context ensures item.ToolResult? ==> Trim(item.callId) !in LogIds(log) {
      var r :| 0 <= r < |context| && context[r] == item;
    }
  }

  const SPACED_CONTEXT := [
    ToolCall("i1", 1, "", "", "x ", "", "", true),
    ToolResult("i2", 2, "i1", "", "x ")]

  function PlainEntry(): Entry {
    Entry("x", StandardName(WebSearch), "c", "i3", "i4", 3)
  }

  function SearchPlan(): Plan {
    Plan([StandardEntry(WebSearch, Router, Some(Binding("b", 1)))], [])
  }

  /** White space does break it: a caller's own call "x " is no duplicate of the router call "x"
      for the validator, but its result answers the router call once both are trimmed. */
  lemma {:induction false} WhitespaceBreaksRecovery(record: Record)
    requires record.plan == SearchPlan()
    requires record.request.conversation == Some(SPACED_CONTEXT + Injected([PlainEntry()]))
    ensures PlanValid(record.plan) && Admissible(SPACED_CONTEXT)
    ensures LogOk([PlainEntry()], Planned(record.plan))
    ensures ContextValid(record.request.conversation.value)
    ensures Restored(record).Err?
  {
    hide PlanValid, LogCounts, Planned, Restored, ContextValid, Injected, Unambiguous, Blank, NoRepeat, LogIds,
      WithinCeilings, ReservedName, Trimmed;
    var log := [PlainEntry()];
    SearchPlanShape();
    SpacedContextIsValid();
    EmptyNameIsNotReserved();
    SpacedIsAmbiguous();
    RecoveryRestoresLiveIff(record, SPACED_CONTEXT, log);
    if Restored(record).Ok? {
      RestoredCounts(record, SPACED_CONTEXT, log);
    }
  }

  lemma {:induction false} SpacedIsAmbiguous()
    ensures !Unambiguous(SPACED_CONTEXT, [PlainEntry()]) && AllTrimmed([PlainEntry()])
  {
    hide Trim;
    SpacedIdTrims();
    assert SPACED_CONTEXT[1] in SPACED_CONTEXT && PlainEntry() in [PlainEntry()];
    assert !IsSpace("x"[0]);
  }

  lemma {:induction false} SearchPlanShape()
    ensures PlanValid(SearchPlan()) && LogOk([PlainEntry()], Planned(SearchPlan()))
  {
    hide Blank, LogCounts, StandardBindings, StandardByName, NoRepeat;
    var plan, log := SearchPlan(), [PlainEntry()];
    SearchPlanBindings();
    PlainLogCounts();
    NotBlank("x");
    NotBlank("c");
  }

  lemma {:induction false} SearchPlanBindings()
    ensures Planned(SearchPlan()) == map[StandardName(WebSearch) := Binding("b", 1)]
    ensures Bindings(SearchPlan()) == [Binding("b", 1)]
  {
    var plan := SearchPlan();
    assert plan.standard[..0] == [];
  }

  lemma {:induction false} PlainLogCounts()
    ensures NoRepeat([PlainEntry()])
    ensures LogCounts([PlainEntry()], map[StandardName(WebSearch) := Binding("b", 1)]) == multiset{"b"}
  {
    hide LogIds;
    assert [PlainEntry()][..0] == [];
    NothingSeen();
  }

  lemma {:induction false} NothingSeen()
    ensures LogIds([]) == {}
  {
  }

  /** Two pairs of a call and its result, one after the other. */
  lemma {:induction false} TwoPairsAreValid(items: seq<ContextItem>)
    requires |items| == 4
    requires items[0].ToolCall? && items[1].ToolResult? && items[2].ToolCall? && items[3].ToolResult?
    requires forall i | 0 <= i < 4 :: !Blank(items[i].itemId) && items[i].sequence == i + 1
    requires forall i, j | 0 <= i < j < 4 :: items[i].itemId != items[j].itemId
    requires items[0].callId == items[1].callId != items[2].callId == items[3].callId
    requires items[0].parentItemId == items[2].parentItemId == ""
    requires items[1].parentItemId == items[0].itemId && items[3].parentItemId == items[2].itemId
    ensures ContextValid(items)
  {
    hide Blank;
    assert items[0].callId == items[1].callId && items[2].callId == items[3].callId;
    assert items[0].itemId == items[1].parentItemId && items[2].itemId == items[3].parentItemId;
  }

  lemma {:induction false} SpacedContextIsValid()
    ensures ContextValid(SPACED_CONTEXT + Injected([PlainEntry()]))
  {
    hide Blank, ContextValid;
    var e := PlainEntry();
    var items := SPACED_CONTEXT + Injected([e]);
    assert [e][..0] == [] && Injected([e]) == [CallItem(e), ResultItem(e)];
    assert items == [SPACED_CONTEXT[0], SPACED_CONTEXT[1], CallItem(e), ResultItem(e)];
    NotBlank("i1");
    NotBlank("i2");
    NotBlank("i3");
    NotBlank("i4");
    assert "i1"[1] == '1' && "i2"[1] == '2' && "i3"[1] == '3' && "i4"[1] == '4';
    assert |"x "| == 2 && |"x"| == 1;
    TwoPairsAreValid(items);
  }

  lemma {:induction false} NotBlank(s: string)
    requires s != [] && !IsSpace(s[0])
    ensures !Blank(s)
  {
  }

  lemma {:induction false} SpacedIdTrims()
    ensures Trim("x ") == "x"
  {
    assert "x "[..1] == "x";
    assert TrimRight("x") == "x" && TrimLeft("x ") == "x ";
  }

  lemma {:induction false} EmptyNameIsNotReserved()
    ensures !ReservedName("") && NAMESPACE != ""
  {
  }

  // ----- the round ------------------------------------------------------------------------

  function NextSequence(items: seq<ContextItem>): nat {
    if items == [] then 1
    else
      var earlier, last := NextSequence(items[..|items| - 1]), items[|items| - 1].sequence;
      if last >= earlier then last + 1 else earlier
  }

  /** The next sequence number is the first above all that are taken. */
  lemma {:induction false} NextSequenceIsFirstFree(items: seq<ContextItem>)
    ensures forall item <- items :: item.sequence < NextSequence(items)
    ensures NextSequence(items) == 1 || exists item <- items :: NextSequence(items) == item.sequence + 1
    ensures NextSequence(items) >= 1
  {
    if items != [] {
      var earlier, last := items[..|items| - 1], items[|items| - 1];
      NextSequenceIsFirstFree(earlier);
      assert items == earlier + [last] && last in items;
    }
  }

  /** One child execution: its identifier, or a failure. */
  datatype ChildResult = Child(id: string) | ChildFailed

  /** What the loop takes from its surroundings: the item identifiers of the execution, by prefix,
      call and round, and the verdict of the request validator on a conversation. */
  datatype Surroundings = Surroundings(
    identify: (string, string, nat) -> string,
    accepts: seq<ContextItem> -> bool)

  function NewEntry(context: seq<ContextItem>, call: RouterCall, childId: string, round: nat,
                    env: Surroundings): Entry
  {
    Entry(call.callId, call.name, childId,
          env.identify("call_item", call.callId, round),
          env.identify("result_item", call.callId, round),
          NextSequence(context))
  }

  method AppendRouterToolResult(context: seq<ContextItem>, call: RouterCall, childId: string,
                                round: nat, env: Surroundings)
    returns (r: Option<Entry>)
    ensures r == var e := NewEntry(context, call, childId, round, env);
                 if env.accepts(context + [CallItem(e), ResultItem(e)]) then Some(e) else None
    ensures r.Some? ==>
              var e := r.value;
              && e.callId == call.callId && e.name == call.name && e.childId == childId
              && e.callItemId == env.identify("call_item", call.callId, round)
              && e.resultItemId == env.identify("result_item", call.callId, round)
              && (forall item <- context :: item.sequence < e.sequence)
              && (e.sequence == 1 || exists item <- context :: item.sequence + 1 == e.sequence)
  {
    NextSequenceIsFirstFree(context);
    var sequence := 1;
    for i := 0 to |context|
      invariant sequence == NextSequence(context[..i])
    {
      assert context[..i + 1][..i] == context[..i];
      if context[i].sequence >= sequence {
        sequence := context[i].sequence + 1;
      }
    }
    assert context[..|context|] == context;
    var e := Entry(call.callId, call.name, childId,
                   env.identify("call_item", call.callId, round),
                   env.identify("result_item", call.callId, round),
                   sequence);
    if !env.accepts(context + [CallItem(e), ResultItem(e)]) {
      return None;
    }
    return Some(e);
  }

  /** The bindings and the identifiers of the first `n` calls. */
  function CallBag(calls: seq<RouterCall>, n: nat): multiset<string>
    requires n <= |calls|
  {
    if n == 0 then multiset{} else CallBag(calls, n - 1) + multiset{calls[n - 1].binding.id}
  }

  function IdsOf(calls: seq<RouterCall>, n: nat): set<string>
    requires n <= |calls|
  {
    set k | 0 <= k < n :: calls[k].callId
  }

  /** The live loop lets the first `n` calls of the round pass: no identifier returns, no ceiling
      is passed. */
  predicate Admitted(counts: multiset<string>, seen: set<string>, calls: seq<RouterCall>, n: nat)
    requires n <= |calls|
  {
    n == 0 ||
      var last := calls[n - 1];
      && Admitted(counts, seen, calls, n - 1)
      && last.callId !in seen && last.callId !in IdsOf(calls, n - 1)
      && (counts + CallBag(calls, n))[last.binding.id] <= last.binding.maximumCalls
  }

  lemma {:induction false} AdmittedPrefix(counts: multiset<string>, seen: set<string>,
                                          calls: seq<RouterCall>, m: nat, n: nat)
    requires m <= n <= |calls|
    ensures Admitted(counts, seen, calls, n) ==> Admitted(counts, seen, calls, m)
    decreases n
  {
    if m < n {
      AdmittedPrefix(counts, seen, calls, m, n - 1);
    }
  }

  lemma {:induction false} NothingAdmitted(counts: multiset<string>, seen: set<string>, calls: seq<RouterCall>)
    ensures Admitted(counts, seen, calls, 0) && CallBag(calls, 0) == multiset{} && IdsOf(calls, 0) == {}
  {
  }

  lemma {:induction false} AdmittedStep(counts: multiset<string>, seen: set<string>, calls: seq<RouterCall>,
                                        n: nat)
    requires n < |calls|
    ensures CallBag(calls, n + 1) == CallBag(calls, n) + multiset{calls[n].binding.id}
    ensures IdsOf(calls, n + 1) == IdsOf(calls, n) + {calls[n].callId}
    ensures Admitted(counts, seen, calls, n + 1) <==>
            && Admitted(counts, seen, calls, n) && calls[n].callId !in seen + IdsOf(calls, n)
            && (counts + CallBag(calls, n))[calls[n].binding.id] + 1 <= calls[n].binding.maximumCalls
  {
  }

  /** The calls up to `n` that share the binding `id`. */
  function CallsOf(calls: seq<RouterCall>, n: nat, id: string): set<int>
    requires n <= |calls|
  {
    set k | 0 <= k < n && calls[k].binding.id == id
  }

  lemma {:induction false} CallsOfStep(calls: seq<RouterCall>, n: nat, id: string)
    requires n <= |calls|
    ensures n == 0 ==> CallsOf(calls, n, id) == {}
    ensures n > 0 ==>
              && CallsOf(calls, n, id)
                 == (if calls[n - 1].binding.id == id then CallsOf(calls, n - 1, id) + {n - 1}
                     else CallsOf(calls, n - 1, id))
              && n - 1 !in CallsOf(calls, n - 1, id)
  {
  }

  lemma {:induction false} CallBagCounts(calls: seq<RouterCall>, n: nat, id: string)
    requires n <= |calls|
    ensures CallBag(calls, n)[id] == |CallsOf(calls, n, id)|
  {
    hide CallsOf, CallBag;
    CallsOfStep(calls, n, id);
    if n == 0 {
      NothingAdmitted(multiset{}, {}, calls);
    } else {
      CallBagCounts(calls, n - 1, id);
      AdmittedStep(multiset{}, {}, calls, n - 1);
    }
  }

  /** A call may pass: its identifier is new, among the earlier calls of the round too, and its binding has
      not used up its ceiling with them. */
  predicate MayPass(counts: multiset<string>, seen: set<string>, calls: seq<RouterCall>, i: nat)
    requires i < |calls|
  {
    && calls[i].callId !in seen && (forall j | 0 <= j < i :: calls[j].callId != calls[i].callId)
    && counts[calls[i].binding.id] + |CallsOf(calls, i, calls[i].binding.id)| < calls[i].binding.maximumCalls
  }

  lemma {:induction false} AdmittedIff(counts: multiset<string>, seen: set<string>, calls: seq<RouterCall>, n: nat)
    requires n <= |calls|
    ensures Admitted(counts, seen, calls, n) <==> forall i | 0 <= i < n :: MayPass(counts, seen, calls, i)
  {
    hide Admitted, CallBag, CallsOf;
    if n == 0 {
      NothingAdmitted(counts, seen, calls);
    } else {
      AdmittedIff(counts, seen, calls, n - 1);
      AdmittedStep(counts, seen, calls, n - 1);
      CallBagCounts(calls, n - 1, calls[n - 1].binding.id);
      assert MayPass(counts, seen, calls, n - 1) <==>
             && calls[n - 1].callId !in seen + IdsOf(calls, n - 1)
             && (counts + CallBag(calls, n - 1))[calls[n - 1].binding.id] + 1 <= calls[n - 1].binding.maximumCalls;
      hide MayPass;
    }
  }

  /** The checks before any child runs: a returning identifier or a passed ceiling fails. */
  method AdmitCalls(calls: seq<RouterCall>, counts0: multiset<string>, seen0: set<string>)
    returns (ok: bool, counts: multiset<string>, seen: set<string>)
    ensures ok <==> Admitted(counts0, seen0, calls, |calls|)
    ensures ok <==> forall i | 0 <= i < |calls| :: MayPass(counts0, seen0, calls, i)
    ensures ok ==>
              counts == counts0 + CallBag(calls, |calls|) && seen == seen0 + IdsOf(calls, |calls|)
  {
    hide Admitted, CallBag, IdsOf, MayPass;
    NothingAdmitted(counts0, seen0, calls);
    AdmittedIff(counts0, seen0, calls, |calls|);
    counts, seen := counts0, seen0;
    for i := 0 to |calls|
      invariant counts == counts0 + CallBag(calls, i) && seen == seen0 + IdsOf(calls, i)
      invariant Admitted(counts0, seen0, calls, i)
    {
      var call := calls[i];
      AdmittedStep(counts0, seen0, calls, i);
      AdmittedPrefix(counts0, seen0, calls, i + 1, |calls|);
      if call.callId in seen {
        return false, counts, seen;
      }
      seen := seen + {call.callId};
      counts := counts + multiset{call.binding.id};
      if counts[call.binding.id] > call.binding.maximumCalls {
        return false, counts, seen;
      }
    }
    return true, counts, seen;
  }

  /** The entries that the first `n` calls write after `context`, if their children succeeded and
      every injection passes the validator. */
  function Entries(context: seq<ContextItem>, calls: seq<RouterCall>, results: seq<ChildResult>,
                   n: nat, round: nat, env: Surroundings)
    : (r: Option<seq<Entry>>)
    requires n <= |results| == |calls|
    ensures r.Some? ==> |r.value| == n
  {
    if n == 0 then Some([])
    else
      var earlier := Entries(context, calls, results, n - 1, round, env);
      if earlier.None? || results[n - 1].ChildFailed? then None
      else
        var before := context + Injected(earlier.value);
        var e := NewEntry(before, calls[n - 1], results[n - 1].id, round, env);
        if env.accepts(before + [CallItem(e), ResultItem(e)]) then Some(earlier.value + [e]) else None
  }

  lemma {:induction false} NothingWritten(context: seq<ContextItem>, calls: seq<RouterCall>,
                                          results: seq<ChildResult>, round: nat, env: Surroundings)
    requires |results| == |calls|
    ensures Entries(context, calls, results, 0, round, env) == Some([])
  {
  }

  lemma {:induction false} EntriesStep(context: seq<ContextItem>, calls: seq<RouterCall>,
                                       results: seq<ChildResult>, n: nat, round: nat,
                                       env: Surroundings)
    requires n < |results| == |calls|
    ensures var earlier := Entries(context, calls, results, n, round, env);
            Entries(context, calls, results, n + 1, round, env) ==
            if earlier.None? || results[n].ChildFailed? then None
            else
              var before := context + Injected(earlier.value);
              var e := NewEntry(before, calls[n], results[n].id, round, env);
              if env.accepts(before + [CallItem(e), ResultItem(e)]) then Some(earlier.value + [e]) else None
  {
    hide Injected, NewEntry;
  }

  lemma {:induction false} EntriesPrefix(context: seq<ContextItem>, calls: seq<RouterCall>,
                                         results: seq<ChildResult>, m: nat, n: nat, round: nat,
                                         env: Surroundings)
    requires m <= n <= |results| == |calls|
    ensures Entries(context, calls, results, n, round, env).Some? ==>
              Entries(context, calls, results, m, round, env).Some?
    decreases n
  {
    if m < n {
      EntriesPrefix(context, calls, results, m, n - 1, round, env);
    }
  }

  /** A round is injected when every child succeeded and the validator takes what it is shown, and not when a
      child failed. */
  lemma {:induction false} EntriesSucceed(context: seq<ContextItem>, calls: seq<RouterCall>,
                                          results: seq<ChildResult>, n: nat, round: nat, env: Surroundings)
    requires n <= |results| == |calls|
    ensures Entries(context, calls, results, n, round, env).Some? ==> forall i | 0 <= i < n :: results[i].Child?
    ensures (forall i | 0 <= i < n :: results[i].Child?) && (forall shown :: env.accepts(shown)) ==>
              Entries(context, calls, results, n, round, env).Some?
  {
    hide Injected, NewEntry, CallItem, ResultItem;
    if n > 0 {
      EntriesSucceed(context, calls, results, n - 1, round, env);
    }
  }

  /** The injections of a round, on a candidate that nobody else sees. */
  method InjectResults(context: seq<ContextItem>, calls: seq<RouterCall>,
                       results: seq<ChildResult>, round: nat, env: Surroundings)
    returns (r: Option<seq<Entry>>)
    requires |results| == |calls|
    ensures r == Entries(context, calls, results, |calls|, round, env)
  {
    hide Injected, NewEntry, CallItem, ResultItem, Entries;
    NothingInjected();
    NothingWritten(context, calls, results, round, env);
    var candidate := context;
    var added: seq<Entry> := [];
    for i := 0 to |calls|
      invariant Entries(context, calls, results, i, round, env) == Some(added)
      invariant candidate == context + Injected(added)
    {
      EntriesStep(context, calls, results, i, round, env);
      EntriesPrefix(context, calls, results, i + 1, |calls|, round, env);
      if results[i].ChildFailed? {
        return None;
      }
      var e := AppendRouterToolResult(candidate, calls[i], results[i].id, round, env);
      if e.None? {
        return None;
      }
      InjectedAppend(added, e.value);
      candidate := candidate + [CallItem(e.value), ResultItem(e.value)];
      added := added + [e.value];
    }
    return Some(added);
  }

  lemma {:induction false} NothingInjected()
    ensures Injected([]) == []
  {
  }

  lemma {:induction false} InjectedAppend(log: seq<Entry>, e: Entry)
    ensures Injected(log + [e]) == Injected(log) + [CallItem(e), ResultItem(e)]
  {
    assert (log + [e])[..|log|] == log;
  }

  lemma {:induction false} InjectedConcat(a: seq<Entry>, b: seq<Entry>)
    ensures Injected(a + b) == Injected(a) + Injected(b)
    decreases |b|
  {
    hide CallItem, ResultItem;
    if b == [] {
      assert a + b == a;
    } else {
      var shorter, last := b[..|b| - 1], [CallItem(b[|b| - 1]), ResultItem(b[|b| - 1])];
      InjectedConcat(a, shorter);
      assert (a + b)[..|a + b| - 1] == a + shorter;
      assert Injected(a + b) == Injected(a + shorter) + last;
      assert (Injected(a) + Injected(shorter)) + last == Injected(a) + (Injected(shorter) + last);
    }
  }

  ghost predicate Written(added: seq<Entry>, calls: seq<RouterCall>, results: seq<ChildResult>) {
    && |added| <= |results| == |calls|
    && forall i | 0 <= i < |added| ::
        && results[i].Child?
        && added[i].callId == calls[i].callId && added[i].name == calls[i].name
        && added[i].childId == results[i].id
  }

  /** Calls come from the plan, and child executions have identifiers. */
  ghost predicate Executed(calls: seq<RouterCall>, results: seq<ChildResult>,
                           planned: map<string, Binding>)
  {
    && |results| == |calls|
    && forall i | 0 <= i < |calls| ::
        && WellPlanned(calls[i], planned)
        && (results[i].Child? ==> !Blank(results[i].id))
  }

  lemma {:induction false} EntriesAreWritten(context: seq<ContextItem>, calls: seq<RouterCall>,
                                             results: seq<ChildResult>, n: nat, round: nat,
                                             env: Surroundings)
    requires n <= |results| == |calls|
    requires Entries(context, calls, results, n, round, env).Some?
    ensures Written(Entries(context, calls, results, n, round, env).value, calls, results)
  {
    hide Injected, NextSequence, CallItem, ResultItem, Entries;
    NothingWritten(context, calls, results, round, env);
    if n > 0 {
      EntriesStep(context, calls, results, n - 1, round, env);
      EntriesAreWritten(context, calls, results, n - 1, round, env);
    }
  }

  /** The next admitted call has a planned name and stays within its ceiling. */
  lemma {:induction false} AppendKeepsCapped(log: seq<Entry>, e: Entry, planned: map<string, Binding>,
                                             call: RouterCall)
    requires Capped(log, planned) && Consistent(planned)
    requires call.name in planned && call.binding == planned[call.name] && e.name == call.name
    requires (LogCounts(log, planned) + multiset{call.binding.id})[call.binding.id]
             <= call.binding.maximumCalls
    ensures Capped(log + [e], planned)
    ensures LogCounts(log + [e], planned) == LogCounts(log, planned) + multiset{call.binding.id}
  {
    hide Consistent, WithinCeilings;
    assert (log + [e])[..|log|] == log;
    CeilingStep(LogCounts(log, planned), planned, call.name);
  }

  lemma {:induction false} WrittenSizes(added: seq<Entry>, calls: seq<RouterCall>, results: seq<ChildResult>)
    requires Written(added, calls, results)
    ensures |added| <= |results| == |calls|
  {
  }

  lemma {:induction false} ExecutedCall(added: seq<Entry>, calls: seq<RouterCall>, results: seq<ChildResult>,
                                        planned: map<string, Binding>, n: nat)
    requires Executed(calls, results, planned) && Written(added, calls, results) && n < |added|
    ensures Written(added[..n], calls, results)
    ensures calls[n].name in planned && calls[n].binding == planned[calls[n].name]
    ensures added[n].name == calls[n].name && added[n].callId == calls[n].callId
  {
    hide Blank;
  }

  /** Whatever identifiers `seen` holds: what the live loop admits stays within the ceilings, and
      its counters count it. */
  lemma {:induction false} AdmittedKeepsCaps(log: seq<Entry>, added: seq<Entry>, calls: seq<RouterCall>,
                                             results: seq<ChildResult>, planned: map<string, Binding>,
                                             seen: set<string>)
    requires Capped(log, planned) && Consistent(planned)
    requires Executed(calls, results, planned) && Written(added, calls, results)
    requires Admitted(LogCounts(log, planned), seen, calls, |added|)
    ensures Capped(log + added, planned)
    ensures LogCounts(log + added, planned) == LogCounts(log, planned) + CallBag(calls, |added|)
    decreases |added|
  {
    hide Capped, Consistent, LogCounts, IdsOf, Blank, Executed, Written, Admitted, CallBag;
    WrittenSizes(added, calls, results);
    if added == [] {
      assert log + added == log;
      NothingAdmitted(LogCounts(log, planned), seen, calls);
    } else {
      var n := |added| - 1;
      AdmittedStep(LogCounts(log, planned), seen, calls, n);
      ExecutedCall(added, calls, results, planned, n);
      AdmittedKeepsCaps(log, added[..n], calls, results, planned, seen);
      AppendKeepsCapped(log + added[..n], added[n], planned, calls[n]);
      assert log + added == (log + added[..n]) + [added[n]];
    }
  }

  lemma {:induction false} AppendKeepsNoRepeat(log: seq<Entry>, e: Entry)
    requires NoRepeat(log) && e.callId !in LogIds(log)
    ensures NoRepeat(log + [e]) && LogIds(log + [e]) == LogIds(log) + {e.callId}
  {
    assert (log + [e])[..|log|] == log;
  }

  /** Where the loop has seen every committed identifier, none returns. */
  lemma {:induction false} AdmittedKeepsIds(log: seq<Entry>, added: seq<Entry>, calls: seq<RouterCall>,
                                            results: seq<ChildResult>, counts: multiset<string>)
    requires NoRepeat(log) && Written(added, calls, results)
    requires Admitted(counts, LogIds(log), calls, |added|)
    ensures NoRepeat(log + added) && LogIds(log + added) == LogIds(log) + IdsOf(calls, |added|)
    decreases |added|
  {
    hide NoRepeat, LogIds, CallBag, Admitted, IdsOf;
    if added == [] {
      assert log + added == log;
      NothingAdmitted(counts, LogIds(log), calls);
    } else {
      var n := |added| - 1;
      AdmittedStep(counts, LogIds(log), calls, n);
      AdmittedKeepsIds(log, added[..n], calls, results, counts);
      assert LogIds(log + added[..n]) == LogIds(log) + IdsOf(calls, n);
      AppendKeepsNoRepeat(log + added[..n], added[n]);
      assert log + added == (log + added[..n]) + [added[n]];
    }
  }

  /** What the live loop admits keeps the ceilings whatever it has seen, and keeps identifiers
      from returning where it has seen all of them; its counters count the longer log. */
  lemma {:induction false} AdmittedKeepsLog(log: seq<Entry>, added: seq<Entry>, calls: seq<RouterCall>,
                                            results: seq<ChildResult>, planned: map<string, Binding>,
                                            seen: set<string>)
    requires Capped(log, planned) && Consistent(planned)
    requires Executed(calls, results, planned) && Written(added, calls, results)
    requires Admitted(LogCounts(log, planned), seen, calls, |added|)
    ensures Capped(log + added, planned)
    ensures LogCounts(log + added, planned) == LogCounts(log, planned) + CallBag(calls, |added|)
    ensures NoRepeat(log) && seen == LogIds(log) ==>
              NoRepeat(log + added) && LogIds(log + added) == seen + IdsOf(calls, |added|)
  {
    hide *;
    AdmittedKeepsCaps(log, added, calls, results, planned, seen);
    if NoRepeat(log) && seen == LogIds(log) {
      AdmittedKeepsIds(log, added, calls, results, LogCounts(log, planned));
    }
  }

  lemma {:induction false} CeilingStep(counts: multiset<string>, planned: map<string, Binding>,
                                       name: string)
    requires WithinCeilings(counts, planned) && Consistent(planned) && name in planned
    ensures WithinCeilings(counts + multiset{planned[name].id}, planned) <==>
            counts[planned[name].id] + 1 <= planned[name].maximumCalls
  {
    forall m | m in planned ensures SameBinding(planned, m, name) {
    }
  }

  lemma {:induction false} WrittenIsIdentified(added: seq<Entry>, calls: seq<RouterCall>,
                                               results: seq<ChildResult>, planned: map<string, Binding>)
    requires Executed(calls, results, planned) && Written(added, calls, results)
    ensures Identified(added)
  {
  }

  datatype RoundResult = RoundCommitted | RoundFailed | RoundConflict

  /** The record after a committed round. */
  function RoundRecord(record: Record, added: seq<Entry>): Record
    requires record.request.conversation.Some?
  {
    record.(request := record.request.(
              conversation := Some(record.request.conversation.value + Injected(added))),
            completedRounds := record.completedRounds + 1,
            revision := record.revision + 1)
  }

  lemma {:induction false} RoundRecordIs(record: Record, added: seq<Entry>)
    requires record.request.conversation.Some?
    ensures var t := RoundRecord(record, added);
            && t.completedRounds == record.completedRounds + 1 && t.revision == record.revision + 1
            && t.attempts == record.attempts
            && t.request.conversation == Some(record.request.conversation.value + Injected(added))
  {
  }

  /** The durable record holds the admitted context and a committed log within its ceilings. */
  ghost predicate Stores(record: Record, context: seq<ContextItem>, log: seq<Entry>) {
    && PlanValid(record.plan) && Admissible(context)
    && Capped(log, Planned(record.plan)) && Identified(log)
    && record.request.conversation == Some(context + Injected(log))
    && record.completedRounds <= |log|
  }

  lemma {:induction false} RoundRecordStores(record: Record, context: seq<ContextItem>, log: seq<Entry>,
                                             added: seq<Entry>)
    requires Stores(record, context, log) && Capped(log + added, Planned(record.plan)) && added != []
    requires Identified(added)
    ensures Stores(RoundRecord(record, added), context, log + added)
  {
    hide PlanValid, Admissible, Capped, Planned, Injected, Blank;
    InjectedConcat(log, added);
    assert context + Injected(log) + Injected(added) == context + Injected(log + added);
  }

  /** One round on values: the checks, the injections on a candidate, and `saved`, the verdict of the
      compare-and-swap write that ends it. */
  method RunRound(context: seq<ContextItem>, calls: seq<RouterCall>, results: seq<ChildResult>, saved: bool,
                  counts0: multiset<string>, seen0: set<string>, round: nat, env: Surroundings)
    returns (r: RoundResult, added: seq<Entry>, counts: multiset<string>, seen: set<string>)
    requires |results| == |calls|
    ensures r.RoundCommitted? <==>
              && saved && Admitted(counts0, seen0, calls, |calls|)
              && Entries(context, calls, results, |calls|, round, env).Some?
    ensures r.RoundCommitted? ==>
              && Entries(context, calls, results, |calls|, round, env) == Some(added)
              && counts == counts0 + CallBag(calls, |calls|) && seen == seen0 + IdsOf(calls, |calls|)
  {
    hide Admitted, Entries, CallBag, IdsOf;
    var admitted;
    admitted, counts, seen := AdmitCalls(calls, counts0, seen0);
    if !admitted {
      return RoundFailed, [], counts, seen;
    }
    var injected := InjectResults(context, calls, results, round, env);
    if injected.None? {
      return RoundFailed, [], counts, seen;
    }
    return if saved then RoundCommitted else RoundConflict, injected.value, counts, seen;
  }

  /** The live state of a session between two rounds. */
  datatype Live = Live(record: Record, counts: multiset<string>, seen: set<string>, round: nat)

  /** The session accounts for every committed call, whichever identifiers it has seen. */
  ghost predicate Accounts(live: Live, context: seq<ContextItem>, log: seq<Entry>) {
    && Stores(live.record, context, log)
    && live.counts == LogCounts(log, Planned(live.record.plan))
    && live.round == live.record.completedRounds
  }

  /** ... and it has seen each committed identifier, none of which returned. */
  ghost predicate Tracks(live: Live, context: seq<ContextItem>, log: seq<Entry>) {
    Accounts(live, context, log) && NoRepeat(log) && live.seen == LogIds(log)
  }

  function AfterRound(live: Live, calls: seq<RouterCall>, added: seq<Entry>): Live
    requires live.record.request.conversation.Some?
  {
    Live(RoundRecord(live.record, added), live.counts + CallBag(calls, |calls|),
         live.seen + IdsOf(calls, |calls|), live.round + 1)
  }

  lemma {:induction false} AccountedRecord(live: Live, context: seq<ContextItem>, log: seq<Entry>)
    requires Accounts(live, context, log)
    ensures Stores(live.record, context, log) && Consistent(Planned(live.record.plan))
    ensures Capped(log, Planned(live.record.plan))
    ensures live.record.request.conversation == Some(context + Injected(log))
    ensures live.counts == LogCounts(log, Planned(live.record.plan))
  {
    hide PlanValid, Admissible, Capped, Identified;
    PlannedConsistent(live.record.plan);
  }

  lemma {:induction false} ExecutedResults(calls: seq<RouterCall>, results: seq<ChildResult>,
                                           planned: map<string, Binding>)
    requires Executed(calls, results, planned)
    ensures |results| == |calls|
  {
  }

  lemma {:induction false} AfterRoundAccounts(live: Live, context: seq<ContextItem>, log: seq<Entry>,
                                              calls: seq<RouterCall>, added: seq<Entry>)
    requires Accounts(live, context, log)
    requires Stores(RoundRecord(live.record, added), context, log + added)
    requires LogCounts(log + added, Planned(live.record.plan)) == live.counts + CallBag(calls, |calls|)
    ensures Accounts(AfterRound(live, calls, added), context, log + added)
    ensures AfterRound(live, calls, added).seen == live.seen + IdsOf(calls, |calls|)
  {
    hide Stores, LogCounts, CallBag, IdsOf, Planned;
    StoredConversation(live.record, context, log);
  }

  lemma {:induction false} StoredConversation(record: Record, context: seq<ContextItem>, log: seq<Entry>)
    requires Stores(record, context, log)
    ensures record.request.conversation == Some(context + Injected(log))
  {
    hide PlanValid, Admissible, Capped, Identified;
  }

  lemma {:induction false} StaysTracked(live: Live, context: seq<ContextItem>, log: seq<Entry>)
    requires Accounts(live, context, log)
    ensures Tracks(live, context, log) <==> NoRepeat(log) && live.seen == LogIds(log)
  {
    hide Accounts, NoRepeat, LogIds;
  }

  /** What a round that gets this far leaves behind, as a fact about values. It needs no more than
      a session that accounts for the log; a session that tracks it goes on tracking it. */
  lemma {:induction false} RoundOutcome(live: Live, context: seq<ContextItem>, log: seq<Entry>,
                                        calls: seq<RouterCall>, results: seq<ChildResult>,
                                        env: Surroundings, added: seq<Entry>)
    requires Accounts(live, context, log)
    requires calls != [] && Executed(calls, results, Planned(live.record.plan))
    requires Admitted(live.counts, live.seen, calls, |calls|)
    requires Entries(context + Injected(log), calls, results, |calls|, live.round + 1, env) == Some(added)
    ensures |added| == |calls| && Written(added, calls, results)
    ensures Accounts(AfterRound(live, calls, added), context, log + added)
    ensures Tracks(live, context, log) ==> Tracks(AfterRound(live, calls, added), context, log + added)
  {
    hide *;
    AccountedRecord(live, context, log);
    ExecutedResults(calls, results, Planned(live.record.plan));
    EntriesAreWritten(context + Injected(log), calls, results, |calls|, live.round + 1, env);
    AdmittedKeepsLog(log, added, calls, results, Planned(live.record.plan), live.seen);
    WrittenIsIdentified(added, calls, results, Planned(live.record.plan));
    RoundRecordStores(live.record, context, log, added);
    AfterRoundAccounts(live, context, log, calls, added);
    StaysTracked(live, context, log);
    StaysTracked(AfterRound(live, calls, added), context, log + added);
  }

  lemma {:induction false} StoresRestores(record: Record, context: seq<ContextItem>, log: seq<Entry>)
    requires Stores(record, context, log)
    ensures Restored(record).Ok? ==> Restored(record).value.counts == LogCounts(log, Planned(record.plan))
    ensures Restored(record).Ok? && AllTrimmed(log) ==> Restored(record).value.seen == LogIds(log)
    ensures Restored(record) == Ok(History(LogCounts(log, Planned(record.plan)), LogIds(log))) <==>
            Unambiguous(context, log) && NoRepeat(log)
  {
    hide PlanValid, Admissible, Capped, Identified, Restored, Unambiguous, NoRepeat;
    RecoveryRestoresLiveIff(record, context, log);
    if Restored(record).Ok? {
      RestoredCounts(record, context, log);
    }
  }

  /** The part of the synchronous loop that drives router rounds, with its live counters. */
  class ParentLoop {
    var record: Record
    var routerCallsByBinding: multiset<string>
    var seenRouterToolCalls: set<string>
    var routerRound: nat
    const env: Surroundings

    function State(): Live
      reads this
    {
      Live(record, routerCallsByBinding, seenRouterToolCalls, routerRound)
    }

    constructor (record: Record, env: Surroundings)
      ensures this.env == env && State() == Live(record, multiset{}, {}, record.completedRounds)
    {
      this.record, this.env := record, env;
      routerCallsByBinding, seenRouterToolCalls := multiset{}, {};
      routerRound := record.completedRounds;
    }

    /** A session starts: the counters come from the durable record alone. They account for the
        log whenever it can be read; they track it exactly when its identifiers allow it. */
    method Resume(ghost context: seq<ContextItem>, ghost log: seq<Entry>) returns (ok: bool)
      requires PlanValid(record.plan)
      modifies this`routerCallsByBinding, this`seenRouterToolCalls, this`routerRound
      ensures ok <==> Restored(record).Ok?
      ensures ok ==> Restored(record) == Ok(History(routerCallsByBinding, seenRouterToolCalls))
      ensures ok && Stores(record, context, log) ==> Accounts(State(), context, log)
      ensures Stores(record, context, log) ==>
                (ok && Tracks(State(), context, log) <==> Unambiguous(context, log) && NoRepeat(log))
    {
      hide Stores, Restored, NoRepeat, Unambiguous, LogIds, LogCounts, PlanValid;
      var history := RouterToolHistory(record);
      if Stores(record, context, log) {
        StoresRestores(record, context, log);
      }
      if history.Err? {
        return false;
      }
      routerCallsByBinding, seenRouterToolCalls := history.value.counts, history.value.seen;
      routerRound := record.completedRounds;
      return true;
    }

    /** One round, from the selected calls to the durable commit. */
    method CommitRound(calls: seq<RouterCall>, results: seq<ChildResult>, saved: bool,
                       ghost context: seq<ContextItem>, ghost log: seq<Entry>)
      returns (r: RoundResult, ghost added: seq<Entry>)
      requires Accounts(State(), context, log)
      requires calls != [] && Executed(calls, results, Planned(record.plan))
      modifies this
      ensures r.RoundCommitted? <==>
              && saved
              && Admitted(old(routerCallsByBinding), old(seenRouterToolCalls), calls, |calls|)
              && Entries(context + Injected(log), calls, results, |calls|,
                         old(routerRound) + 1, env).Some?
      ensures r.RoundCommitted? ==>
              && Written(added, calls, results) && |added| == |calls|
              && old(record).request.conversation.Some?
              && State() == AfterRound(old(State()), calls, added)
              && record == RoundRecord(old(record), added)
              && Accounts(State(), context, log + added)
              && (old(Tracks(State(), context, log)) ==> Tracks(State(), context, log + added))
              && routerRound == old(routerRound) + 1 && record.completedRounds == old(record.completedRounds) + 1
              && record.revision == old(record.revision) + 1 && record.attempts == old(record.attempts)
              && record.request.conversation == Some(old(record).request.conversation.value + Injected(added))
      ensures !r.RoundCommitted? ==> record == old(record)
    {
      hide Tracks, Accounts, Planned, Injected, Executed, Entries, Admitted, Written, CallBag, IdsOf, RoundRecord;
      ghost var live := State();
      AccountedRecord(live, context, log);
      ExecutedResults(calls, results, Planned(record.plan));
      routerRound := routerRound + 1;
      var committed, counts, seen;
      r, committed, counts, seen := RunRound(record.request.conversation.value, calls, results, saved,
                                             routerCallsByBinding, seenRouterToolCalls, routerRound, env);
      added := committed;
      if r.RoundCommitted? {
        RoundOutcome(live, context, log, calls, results, env, added);
        RoundRecordIs(record, committed);
        record, routerCallsByBinding, seenRouterToolCalls := RoundRecord(record, committed), counts, seen;
        assert State() == AfterRound(live, calls, added);
      }
    }
  }
}
