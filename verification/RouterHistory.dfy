/** Router-managed tool calls: what one round writes into the parent conversation, and how a
    restarted process reads its call counters back from there. */
module RouterHistory {
  import opened Text
  import opened ExecutionTypes

  const NAMESPACE := "vulcan.router"

  function StandardName(kind: StandardKind): string {
    match kind
    case WebSearch => "vulcan_web_search"
    case WebExtractor => "vulcan_web_extractor"
  }

  function ExtensionName(kind: ExtensionKind): string {
    match kind
    case ImageUnderstanding => "vulcan_image_understanding"
    case AudioUnderstanding => "vulcan_audio_understanding"
    case VideoUnderstanding => "vulcan_video_understanding"
    case ImageGeneration => "vulcan_image_generation"
    case VideoGeneration => "vulcan_video_generation"
    case SpeechGeneration => "vulcan_speech_generation"
    case SpeechTranscription => "vulcan_speech_transcription"
  }

  predicate ReservedName(name: string) {
    || (exists kind: StandardKind :: name == StandardName(kind))
    || (exists kind: ExtensionKind :: name == ExtensionName(kind))
  }

  // ----- the frozen plan ------------------------------------------------------------------

  /** What the plan validator guarantees: router entries carry their binding, and a binding
      identifier has one ceiling. */
  ghost predicate PlanValid(plan: Plan) {
    && (forall i | 0 <= i < |plan.standard| ::
          plan.standard[i].mode == Router <==> plan.standard[i].binding.Some?)
    && (forall i | 0 <= i < |plan.extensions| :: plan.extensions[i].binding.Some?)
    && (forall a, b :: OneCeiling(Bindings(plan), a, b))
  }

  predicate OneCeiling(bindings: seq<Binding>, a: Binding, b: Binding) {
    a in bindings && b in bindings && a.id == b.id ==> a == b
  }

  function StandardBindings(entries: seq<StandardEntry>): seq<Binding> {
    if entries == [] then []
    else
      var last := entries[|entries| - 1];
      StandardBindings(entries[..|entries| - 1])
      + if last.mode == Router && last.binding.Some? then [last.binding.value] else []
  }

  function ExtensionBindings(entries: seq<ExtensionEntry>): seq<Binding> {
    if entries == [] then []
    else
      var last := entries[|entries| - 1];
      ExtensionBindings(entries[..|entries| - 1])
      + if last.binding.Some? then [last.binding.value] else []
  }

  function Bindings(plan: Plan): seq<Binding> {
    StandardBindings(plan.standard) + ExtensionBindings(plan.extensions)
  }

  /** The bindings of a plan are those of its router entries, one for one and in order: `standard` and
      `extensions` name the entries that they come from. */
  lemma {:induction false} BindingsArePicked(plan: Plan) returns (standard: seq<nat>, extensions: seq<nat>)
    ensures forall k, l | 0 <= k < l < |standard| :: standard[k] < standard[l]
    ensures forall k, l | 0 <= k < l < |extensions| :: extensions[k] < extensions[l]
    ensures forall i | 0 <= i < |plan.standard| ::
              i in standard <==> plan.standard[i].mode == Router && plan.standard[i].binding.Some?
    ensures forall i | 0 <= i < |plan.extensions| :: i in extensions <==> plan.extensions[i].binding.Some?
    ensures |Bindings(plan)| == |standard| + |extensions|
    ensures forall k | 0 <= k < |standard| ::
              standard[k] < |plan.standard| && plan.standard[standard[k]].binding == Some(Bindings(plan)[k])
    ensures forall k | 0 <= k < |extensions| ::
              && extensions[k] < |plan.extensions|
              && plan.extensions[extensions[k]].binding == Some(Bindings(plan)[|standard| + k])
  {
    hide StandardBindings, ExtensionBindings;
    standard := StandardPicked(plan.standard);
    extensions := ExtensionsPicked(plan.extensions);
  }

  lemma {:induction false} StandardPicked(entries: seq<StandardEntry>) returns (picked: seq<nat>)
    ensures forall k, l | 0 <= k < l < |picked| :: picked[k] < picked[l]
    ensures forall i {:trigger i in picked} | 0 <= i < |entries| ::
              i in picked <==> entries[i].mode == Router && entries[i].binding.Some?
    ensures |StandardBindings(entries)| == |picked|
    ensures forall k | 0 <= k < |picked| ::
              picked[k] < |entries| && entries[picked[k]].binding == Some(StandardBindings(entries)[k])
  {
    picked := [];
    if entries != [] {
      var n := |entries| - 1;
      var earlier := entries[..n];
      picked := StandardPicked(earlier);
      assert forall k | 0 <= k < |picked| :: entries[picked[k]] == earlier[picked[k]];
      if entries[n].mode == Router && entries[n].binding.Some? {
        picked := picked + [n];
      }
    }
  }

  lemma {:induction false} ExtensionsPicked(entries: seq<ExtensionEntry>) returns (picked: seq<nat>)
    ensures forall k, l | 0 <= k < l < |picked| :: picked[k] < picked[l]
    ensures forall i {:trigger i in picked} | 0 <= i < |entries| :: i in picked <==> entries[i].binding.Some?
    ensures |ExtensionBindings(entries)| == |picked|
    ensures forall k | 0 <= k < |picked| ::
              picked[k] < |entries| && entries[picked[k]].binding == Some(ExtensionBindings(entries)[k])
  {
    picked := [];
    if entries != [] {
      var n := |entries| - 1;
      var earlier := entries[..n];
      picked := ExtensionsPicked(earlier);
      assert forall k | 0 <= k < |picked| :: entries[picked[k]] == earlier[picked[k]];
      if entries[n].binding.Some? {
        picked := picked + [n];
      }
    }
  }

  function Ceilings(bindings: seq<Binding>): nat {
    if bindings == [] then 0
    else Ceilings(bindings[..|bindings| - 1]) + bindings[|bindings| - 1].maximumCalls
  }

  function StandardByName(entries: seq<StandardEntry>): map<string, Binding> {
    if entries == [] then map[]
    else
      var last := entries[|entries| - 1];
      var earlier := StandardByName(entries[..|entries| - 1]);
      if last.mode == Router && last.binding.Some?
      then earlier[StandardName(last.kind) := last.binding.value] else earlier
  }

  function ExtensionByName(base: map<string, Binding>, entries: seq<ExtensionEntry>)
    : map<string, Binding>
  {
    if entries == [] then base
    else
      var last := entries[|entries| - 1];
      var earlier := ExtensionByName(base, entries[..|entries| - 1]);
      if last.binding.Some? then earlier[ExtensionName(last.kind) := last.binding.value] else earlier
  }

  /** The binding behind each reserved function name that the plan enables. */
  function Planned(plan: Plan): map<string, Binding> {
    ExtensionByName(StandardByName(plan.standard), plan.extensions)
  }

  /** No two kinds share a function name. */
  lemma {:induction false} NamesDiffer(a: StandardKind, b: StandardKind, c: ExtensionKind, d: ExtensionKind)
    ensures StandardName(a) == StandardName(b) <==> a == b
    ensures ExtensionName(c) == ExtensionName(d) <==> c == d
    ensures StandardName(a) != ExtensionName(c)
  {
    NamesAreLong(a, c);
    NamesAreLong(b, d);
  }

  lemma {:induction false} NamesAreLong(a: StandardKind, c: ExtensionKind)
    ensures (|StandardName(a)|, |ExtensionName(c)|) ==
            (if a == WebSearch then 17 else 20,
             match c
             case ImageUnderstanding => 26
             case AudioUnderstanding => 26
             case VideoUnderstanding => 26
             case ImageGeneration => 23
             case VideoGeneration => 23
             case SpeechGeneration => 24
             case SpeechTranscription => 27)
    ensures ExtensionName(c)[7] ==
            match c
            case ImageUnderstanding => 'i'
            case AudioUnderstanding => 'a'
            case VideoUnderstanding => 'v'
            case ImageGeneration => 'i'
            case VideoGeneration => 'v'
            case SpeechGeneration => 's'
            case SpeechTranscription => 's'
  {
  }

  predicate OffersStandard(e: StandardEntry, kind: StandardKind) {
    e.kind == kind && e.mode == Router && e.binding.Some?
  }

  predicate OffersExtension(e: ExtensionEntry, kind: ExtensionKind) {
    e.kind == kind && e.binding.Some?
  }

  lemma {:induction false} StandardIsOffered(entries: seq<StandardEntry>, kind: StandardKind)
    ensures StandardName(kind) in StandardByName(entries) <==> exists e <- entries :: OffersStandard(e, kind)
  {
    hide StandardName, ExtensionName;
    if entries != [] {
      var earlier, last := entries[..|entries| - 1], entries[|entries| - 1];
      StandardIsOffered(earlier, kind);
      NamesDiffer(last.kind, kind, ImageGeneration, ImageGeneration);
      assert entries == earlier + [last] && last in entries;
    }
  }

  lemma {:induction false} LastStandardCounts(entries: seq<StandardEntry>, kind: StandardKind, i: nat)
    requires i < |entries| && OffersStandard(entries[i], kind)
    requires forall j | i < j < |entries| :: !OffersStandard(entries[j], kind)
    ensures StandardName(kind) in StandardByName(entries)
    ensures StandardByName(entries)[StandardName(kind)] == entries[i].binding.value
  {
    hide StandardName, ExtensionName;
    var n := |entries| - 1;
    NamesDiffer(entries[n].kind, kind, ImageGeneration, ImageGeneration);
    if i < n {
      LastStandardCounts(entries[..n], kind, i);
    }
  }

  lemma {:induction false} ExtensionIsOffered(base: map<string, Binding>, entries: seq<ExtensionEntry>,
                                              kind: ExtensionKind)
    ensures ExtensionName(kind) in ExtensionByName(base, entries) <==>
            ExtensionName(kind) in base || exists e <- entries :: OffersExtension(e, kind)
  {
    hide StandardName, ExtensionName;
    if entries != [] {
      var earlier, last := entries[..|entries| - 1], entries[|entries| - 1];
      ExtensionIsOffered(base, earlier, kind);
      NamesDiffer(WebSearch, WebSearch, last.kind, kind);
      assert entries == earlier + [last] && last in entries;
    }
  }

  lemma {:induction false} LastExtensionCounts(base: map<string, Binding>, entries: seq<ExtensionEntry>,
                                               kind: ExtensionKind, i: nat)
    requires i < |entries| && OffersExtension(entries[i], kind)
    requires forall j | i < j < |entries| :: !OffersExtension(entries[j], kind)
    ensures ExtensionName(kind) in ExtensionByName(base, entries)
    ensures ExtensionByName(base, entries)[ExtensionName(kind)] == entries[i].binding.value
  {
    hide StandardName, ExtensionName;
    var n := |entries| - 1;
    NamesDiffer(WebSearch, WebSearch, entries[n].kind, kind);
    if i < n {
      LastExtensionCounts(base, entries[..n], kind, i);
    }
  }

  lemma {:induction false} StandardStays(base: map<string, Binding>, entries: seq<ExtensionEntry>, kind: StandardKind)
    ensures StandardName(kind) in ExtensionByName(base, entries) <==> StandardName(kind) in base
    ensures StandardName(kind) in base ==>
              ExtensionByName(base, entries)[StandardName(kind)] == base[StandardName(kind)]
  {
    hide StandardName, ExtensionName;
    if entries != [] {
      StandardStays(base, entries[..|entries| - 1], kind);
      NamesDiffer(kind, kind, entries[|entries| - 1].kind, ImageGeneration);
    }
  }

  lemma {:induction false} NoExtensionYet(entries: seq<StandardEntry>, kind: ExtensionKind)
    ensures ExtensionName(kind) !in StandardByName(entries)
  {
    hide StandardName, ExtensionName;
    if entries != [] {
      NoExtensionYet(entries[..|entries| - 1], kind);
      NamesDiffer(entries[|entries| - 1].kind, WebSearch, kind, kind);
    }
  }

  /** The plan enables exactly the functions of its router entries. */
  lemma {:induction false} PlannedIffOffered(plan: Plan, standard: StandardKind, extension: ExtensionKind)
    ensures StandardName(standard) in Planned(plan) <==> exists e <- plan.standard :: OffersStandard(e, standard)
    ensures ExtensionName(extension) in Planned(plan) <==>
            exists e <- plan.extensions :: OffersExtension(e, extension)
  {
    hide StandardByName, ExtensionByName, StandardName, ExtensionName, OffersStandard, OffersExtension;
    StandardIsOffered(plan.standard, standard);
    StandardStays(StandardByName(plan.standard), plan.extensions, standard);
    NoExtensionYet(plan.standard, extension);
    ExtensionIsOffered(StandardByName(plan.standard), plan.extensions, extension);
  }

  /** The last entry of a kind decides its binding. */
  lemma {:induction false} LastEntryDecides(plan: Plan, i: nat, j: nat)
    ensures i < |plan.standard| && OffersStandard(plan.standard[i], plan.standard[i].kind)
            && (forall k | i < k < |plan.standard| :: !OffersStandard(plan.standard[k], plan.standard[i].kind)) ==>
              var name := StandardName(plan.standard[i].kind);
              name in Planned(plan) && plan.standard[i].binding == Some(Planned(plan)[name])
    ensures j < |plan.extensions| && OffersExtension(plan.extensions[j], plan.extensions[j].kind)
            && (forall k | j < k < |plan.extensions| ::
                  !OffersExtension(plan.extensions[k], plan.extensions[j].kind)) ==>
              var name := ExtensionName(plan.extensions[j].kind);
              name in Planned(plan) && plan.extensions[j].binding == Some(Planned(plan)[name])
  {
    hide StandardByName, ExtensionByName, StandardName, ExtensionName;
    if i < |plan.standard| && OffersStandard(plan.standard[i], plan.standard[i].kind)
       && forall k | i < k < |plan.standard| :: !OffersStandard(plan.standard[k], plan.standard[i].kind)
    {
      LastStandardCounts(plan.standard, plan.standard[i].kind, i);
      StandardStays(StandardByName(plan.standard), plan.extensions, plan.standard[i].kind);
    }
    if j < |plan.extensions| && OffersExtension(plan.extensions[j], plan.extensions[j].kind)
       && forall k | j < k < |plan.extensions| :: !OffersExtension(plan.extensions[k], plan.extensions[j].kind)
    {
      LastExtensionCounts(StandardByName(plan.standard), plan.extensions, plan.extensions[j].kind, j);
    }
  }

  lemma {:induction false} StandardByNameShape(entries: seq<StandardEntry>)
    ensures forall name | name in StandardByName(entries) ::
              ReservedName(name) && StandardByName(entries)[name] in StandardBindings(entries)
  {
    if entries != [] {
      StandardByNameShape(entries[..|entries| - 1]);
    }
  }

  lemma {:induction false} ExtensionByNameShape(base: map<string, Binding>, entries: seq<ExtensionEntry>)
    requires forall name | name in base :: ReservedName(name)
    ensures forall name | name in ExtensionByName(base, entries) ::
              && ReservedName(name)
              && (ExtensionByName(base, entries)[name] in ExtensionBindings(entries)
                  || (name in base && ExtensionByName(base, entries)[name] == base[name]))
  {
    if entries != [] {
      ExtensionByNameShape(base, entries[..|entries| - 1]);
    }
  }

  predicate NamesReserved(planned: map<string, Binding>) {
    forall name | name in planned :: ReservedName(name)
  }

  /** Planned names are reserved, and equal binding identifiers mean equal bindings. */
  lemma {:induction false} PlannedShape(plan: Plan)
    ensures NamesReserved(Planned(plan))
    ensures forall name | name in Planned(plan) :: Planned(plan)[name] in Bindings(plan)
    ensures PlanValid(plan) ==> Consistent(Planned(plan))
  {
    StandardByNameShape(plan.standard);
    ExtensionByNameShape(StandardByName(plan.standard), plan.extensions);
    var planned := Planned(plan);
    if PlanValid(plan) {
      forall m, n ensures SameBinding(planned, m, n) {
        if m in planned && n in planned {
          assert OneCeiling(Bindings(plan), planned[m], planned[n]);
        }
      }
    }
  }

  /** Names that share a binding identifier share the binding. */
  ghost predicate Consistent(planned: map<string, Binding>) {
    forall m, n :: SameBinding(planned, m, n)
  }

  predicate SameBinding(planned: map<string, Binding>, m: string, n: string) {
    m in planned && n in planned && planned[m].id == planned[n].id ==> planned[m] == planned[n]
  }

  // ----- reading the history back ---------------------------------------------------------

  datatype History = History(counts: multiset<string>, seen: set<string>)

  /** A call item that claims the router's namespace or one of its names. */
  predicate Reserved(item: ContextItem) {
    item.ToolCall? && (item.namespace == NAMESPACE || ReservedName(item.name))
  }

  /** A call that a committed round wrote. */
  predicate Committed(item: ContextItem, planned: map<string, Binding>) {
    && item.ToolCall? && item.namespace == NAMESPACE && ReservedName(item.name) && item.name in planned
    && item.completed && !Blank(item.delegationId) && !Blank(item.callId)
  }

  /** The identifier under which a call and its result meet: both sides are trimmed. */
  function CallId(item: ContextItem): string {
    if item.Other? then "" else Trim(item.callId)
  }

  /** The reserved calls of a context, in order. */
  function Calls(context: seq<ContextItem>): (calls: seq<ContextItem>)
    ensures forall c <- calls :: Reserved(c) && c in context
  {
    if context == [] then []
    else
      var last := context[|context| - 1];
      Calls(context[..|context| - 1]) + if Reserved(last) then [last] else []
  }

  function CallIds(calls: seq<ContextItem>): set<string> {
    set c | c in calls :: CallId(c)
  }

  predicate DistinctIds(calls: seq<ContextItem>) {
    forall i, j | 0 <= i < j < |calls| :: CallId(calls[i]) != CallId(calls[j])
  }

  /** How often each binding was called. */
  function Counted(calls: seq<ContextItem>, planned: map<string, Binding>): multiset<string> {
    if calls == [] then multiset{}
    else
      var last := calls[|calls| - 1];
      Counted(calls[..|calls| - 1], planned)
      + if last.ToolCall? && last.name in planned then multiset{planned[last.name].id} else multiset{}
  }

  predicate WithinCeilings(counts: multiset<string>, planned: map<string, Binding>) {
    forall name | name in planned :: counts[planned[name].id] <= planned[name].maximumCalls
  }

  predicate Answers(result: ContextItem, callId: string) {
    result.ToolResult? && CallId(result) == callId
  }

  predicate Pairs(result: ContextItem, call: ContextItem) {
    && call.ToolCall? && result.ToolResult?
    && result.parentItemId == call.itemId && result.delegationId == call.delegationId
  }

  /** Exactly one item of the context answers `call`, and it is the call's own result. */
  ghost predicate AnsweredOnce(context: seq<ContextItem>, call: ContextItem) {
    exists j | 0 <= j < |context| ::
      && Answers(context[j], CallId(call)) && Pairs(context[j], call)
      && forall k | 0 <= k < |context| && Answers(context[k], CallId(call)) :: k == j
  }

  /** The contexts from which the counters can be restored. */
  ghost predicate Restorable(context: seq<ContextItem>, planned: map<string, Binding>) {
    var calls := Calls(context);
    && (forall c <- calls :: Committed(c, planned))
    && DistinctIds(calls)
    && (forall c <- calls :: AnsweredOnce(context, c))
    && WithinCeilings(Counted(calls, planned), planned)
  }

  /** routerToolHistory as a function of the durable record. */
  ghost function Restored(record: Record): Result<History, ()> {
    if Ceilings(Bindings(record.plan)) == 0 then Ok(History(multiset{}, {}))
    else if record.request.conversation.None? then Err(())
    else
      var context := record.request.conversation.value;
      var planned := Planned(record.plan);
      if Restorable(context, planned)
      then Ok(History(Counted(Calls(context), planned), CallIds(Calls(context)))) else Err(())
  }

  // ----- one round ------------------------------------------------------------------------

  /** One call that a committed round left in the context. */
  datatype Entry = Entry(callId: string, name: string, childId: string,
                         callItemId: string, resultItemId: string, sequence: nat)

  function CallItem(e: Entry): ContextItem {
    ToolCall(e.callItemId, e.sequence, "", e.childId, e.callId, NAMESPACE, e.name, true)
  }

  function ResultItem(e: Entry): ContextItem {
    ToolResult(e.resultItemId, e.sequence + 1, e.callItemId, e.childId, e.callId)
  }

  function Injected(log: seq<Entry>): seq<ContextItem> {
    if log == [] then []
    else
      var last := log[|log| - 1];
      Injected(log[..|log| - 1]) + [CallItem(last), ResultItem(last)]
  }

  lemma {:induction false} InjectedAt(log: seq<Entry>)
    ensures |Injected(log)| == 2 * |log|
    ensures forall i | 0 <= i < |log| ::
              Injected(log)[2 * i] == CallItem(log[i]) && Injected(log)[2 * i + 1] == ResultItem(log[i])
  {
    if log != [] {
      InjectedAt(log[..|log| - 1]);
    }
  }

  function CallItems(log: seq<Entry>): (items: seq<ContextItem>)
    ensures |items| == |log|
    ensures forall i | 0 <= i < |log| :: items[i] == CallItem(log[i])
  {
    if log == [] then [] else CallItems(log[..|log| - 1]) + [CallItem(log[|log| - 1])]
  }

  function LogIds(log: seq<Entry>): set<string> {
    set e | e in log :: e.callId
  }

  function LogCounts(log: seq<Entry>, planned: map<string, Binding>): multiset<string> {
    if log == [] then multiset{}
    else
      var last := log[|log| - 1];
      LogCounts(log[..|log| - 1], planned)
      + if last.name in planned then multiset{planned[last.name].id} else multiset{}
  }

  predicate NoRepeat(log: seq<Entry>) {
    log == [] ||
      var earlier := log[..|log| - 1];
      NoRepeat(earlier) && log[|log| - 1].callId !in LogIds(earlier)
  }

  lemma {:induction false} NoRepeatMeansDistinct(log: seq<Entry>, i: nat, j: nat)
    requires NoRepeat(log) && i < j < |log|
    ensures log[i].callId != log[j].callId
  {
    var earlier := log[..|log| - 1];
    if j < |log| - 1 {
      NoRepeatMeansDistinct(earlier, i, j);
    } else {
      assert earlier[i] in earlier;
    }
  }

  lemma {:induction false} DistinctMeansNoRepeat(log: seq<Entry>)
    requires DistinctIds(CallItems(log))
    ensures NoRepeat(log)
  {
    hide Trim;
    if log != [] {
      var earlier, n := log[..|log| - 1], |log| - 1;
      assert forall i | 0 <= i < n :: CallItems(log)[i] == CallItems(earlier)[i];
      DistinctMeansNoRepeat(earlier);
      forall e <- earlier ensures e.callId != log[n].callId {
        var i :| 0 <= i < n && earlier[i] == e;
        assert CallId(CallItems(log)[i]) != CallId(CallItems(log)[n]);
      }
    }
  }

  /** What holds of everything that was ever committed: planned names, and the ceilings. */
  ghost predicate Capped(log: seq<Entry>, planned: map<string, Binding>) {
    && (forall e <- log :: e.name in planned)
    && WithinCeilings(LogCounts(log, planned), planned)
  }

  /** ... and, where nothing but trimmed identifiers came in, identifiers that never return. */
  ghost predicate Checked(log: seq<Entry>, planned: map<string, Binding>) {
    Capped(log, planned) && NoRepeat(log)
  }

  /** Provider calls and child executions have identifiers. */
  predicate Identified(log: seq<Entry>) {
    forall e <- log :: !Blank(e.callId) && !Blank(e.childId)
  }

  ghost predicate LogOk(log: seq<Entry>, planned: map<string, Binding>) {
    Checked(log, planned) && Identified(log)
  }

  /** A context that admission accepts: no caller item poses as a router call. */
  predicate Admissible(context: seq<ContextItem>) {
    forall item <- context :: !Reserved(item)
  }

  lemma {:induction false} CallsConcat(a: seq<ContextItem>, b: seq<ContextItem>)
    ensures Calls(a + b) == Calls(a) + Calls(b)
    decreases |b|
  {
    hide Reserved;
    if b == [] {
      assert a + b == a;
    } else {
      CallsConcat(a, b[..|b| - 1]);
      assert (a + b)[..|a + b| - 1] == a + b[..|b| - 1];
    }
  }

  lemma {:induction false} NoCalls(context: seq<ContextItem>)
    requires Admissible(context)
    ensures Calls(context) == []
  {
    if context != [] {
      NoCalls(context[..|context| - 1]);
    }
  }

  lemma {:induction false} CallsOfEntry(e: Entry)
    requires ReservedName(e.name)
    ensures Calls([CallItem(e), ResultItem(e)]) == [CallItem(e)]
  {
    var items := [CallItem(e), ResultItem(e)];
    assert items[..1] == [CallItem(e)] && [CallItem(e)][..0] == [];
    assert Calls([CallItem(e)]) == [CallItem(e)];
  }

  /** The reserved calls of the parent context are exactly the committed ones. */
  lemma {:induction false} CallsOfInjected(context: seq<ContextItem>, log: seq<Entry>,
                                           planned: map<string, Binding>)
    requires Admissible(context) && NamesReserved(planned) && forall e <- log :: e.name in planned
    ensures Calls(context + Injected(log)) == CallItems(log)
  {
    hide Reserved, ReservedName, CallItem, ResultItem, Calls;
    if log == [] {
      assert context + Injected(log) == context;
      NoCalls(context);
    } else {
      var shorter, last := log[..|log| - 1], log[|log| - 1];
      CallsOfInjected(context, shorter, planned);
      assert context + Injected(log)
          == context + Injected(shorter) + [CallItem(last), ResultItem(last)];
      CallsConcat(context + Injected(shorter), [CallItem(last), ResultItem(last)]);
      CallsOfEntry(last);
    }
  }

  lemma {:induction false} CountsOfInjected(log: seq<Entry>, planned: map<string, Binding>)
    ensures Counted(CallItems(log), planned) == LogCounts(log, planned)
  {
    if log != [] {
      CountsOfInjected(log[..|log| - 1], planned);
      assert CallItems(log)[..|log| - 1] == CallItems(log[..|log| - 1]);
    }
  }

  /** The condition for restoring exactly what the live loop holds: call identifiers carry no
      surrounding white space, and no caller result answers to one of them once trimmed. */
  ghost predicate Unambiguous(context: seq<ContextItem>, log: seq<Entry>) {
    && (forall e <- log :: Trimmed(e.callId))
    && (forall item <- context :: item.ToolResult? ==> Trim(item.callId) !in LogIds(log))
  }

  /** Under the condition, only its own result answers a committed call. */
  lemma {:induction false} OnlyOwnResultAnswers(context: seq<ContextItem>, log: seq<Entry>,
                                                i: nat, k: nat)
    requires i < |log| && k < |context + Injected(log)| && Unambiguous(context, log)
    requires NoRepeat(log)
    ensures Answers((context + Injected(log))[k], log[i].callId) <==> k == |context| + 2 * i + 1
  {
    hide TrimLeft, TrimRight;
    var items := context + Injected(log);
    InjectedAt(log);
    assert log[i].callId in LogIds(log);
    if k < |context| {
      assert items[k] == context[k] && context[k] in context;
    } else {
      var j := (k - |context|) / 2;
      assert log[j] in log;
      TrimFixesTrimmed(log[j].callId);
      if j != i {
        NoRepeatMeansDistinct(log, if i < j then i else j, if i < j then j else i);
      }
      assert items[k] == Injected(log)[k - |context|];
      assert k - |context| == 2 * j || k - |context| == 2 * j + 1;
    }
  }

  lemma {:induction false} OwnResultAnswers(context: seq<ContextItem>, log: seq<Entry>, i: nat)
    requires i < |log| && Unambiguous(context, log)
    requires NoRepeat(log)
    ensures AnsweredOnce(context + Injected(log), CallItem(log[i]))
  {
    var items, own := context + Injected(log), |context| + 2 * i + 1;
    InjectedAt(log);
    TrimFixesTrimmed(log[i].callId);
    assert items[own] == Injected(log)[2 * i + 1];
    forall k | 0 <= k < |items|
      ensures Answers(items[k], log[i].callId) <==> k == own
    {
      OnlyOwnResultAnswers(context, log, i, k);
    }
  }

  lemma {:induction false} CallItemsAreCommitted(log: seq<Entry>, planned: map<string, Binding>)
    requires LogOk(log, planned) && NamesReserved(planned) && forall e <- log :: Trimmed(e.callId)
    ensures forall c <- CallItems(log) :: Committed(c, planned)
    ensures DistinctIds(CallItems(log))
  {
    forall i | 0 <= i < |log|
      ensures CallId(CallItem(log[i])) == log[i].callId && Committed(CallItem(log[i]), planned)
    {
      assert log[i] in log;
      TrimFixesTrimmed(log[i].callId);
    }
    forall i, j | 0 <= i < j < |log| ensures CallItem(log[i]).callId != CallItem(log[j]).callId {
      NoRepeatMeansDistinct(log, i, j);
    }
  }

  lemma {:induction false} RestoresIfUnambiguous(context: seq<ContextItem>, log: seq<Entry>,
                                                 planned: map<string, Binding>)
    requires Admissible(context) && LogOk(log, planned) && NamesReserved(planned)
    requires Unambiguous(context, log)
    ensures Restorable(context + Injected(log), planned)
    ensures CallIds(Calls(context + Injected(log))) == LogIds(log)
  {
    CallsOfInjected(context, log, planned);
    CountsOfInjected(log, planned);
    CallItemsAreCommitted(log, planned);
    IdsOfCallItems(log);
    forall c | c in CallItems(log) ensures AnsweredOnce(context + Injected(log), c) {
      var i :| 0 <= i < |log| && CallItems(log)[i] == c;
      OwnResultAnswers(context, log, i);
    }
  }

  lemma {:induction false} IdsOfCallItems(log: seq<Entry>)
    requires forall e <- log :: Trimmed(e.callId)
    ensures CallIds(CallItems(log)) == LogIds(log)
  {
    var calls := CallItems(log);
    forall e <- log ensures Trim(e.callId) == e.callId {
      TrimFixesTrimmed(e.callId);
    }
    forall id | id in LogIds(log) ensures id in CallIds(calls) {
      var i :| 0 <= i < |log| && log[i].callId == id;
      assert calls[i] in calls;
    }
    forall id | id in CallIds(calls) ensures id in LogIds(log) {
      var i :| 0 <= i < |log| && CallId(calls[i]) == id;
      assert log[i] in log;
    }
  }

  /** In a restorable context no caller item answers a committed call. */
  lemma {:induction false} CallersDoNotAnswer(context: seq<ContextItem>, log: seq<Entry>,
                                              planned: map<string, Binding>, i: nat, k: nat)
    requires Admissible(context) && Capped(log, planned) && NamesReserved(planned)
    requires i < |log| && k < |context|
    requires Restorable(context + Injected(log), planned)
    ensures !Answers(context[k], Trim(log[i].callId))
  {
    hide Committed, WithinCeilings, Counted, ReservedName, DistinctIds, Identified, TrimLeft, TrimRight;
    var items := context + Injected(log);
    CallsOfInjected(context, log, planned);
    assert CallItems(log)[i] in Calls(items);
    var own := |context| + 2 * i + 1;
    InjectedAt(log);
    assert items[own] == Injected(log)[2 * i + 1] && items[k] == context[k];
    if Answers(items[k], Trim(log[i].callId)) {
      AnswersAreEqual(items, CallItem(log[i]), k, own);
    }
  }

  lemma {:induction false} AnswersAreEqual(items: seq<ContextItem>, call: ContextItem, a: nat, b: nat)
    requires AnsweredOnce(items, call) && a < |items| && b < |items|
    requires Answers(items[a], CallId(call)) && Answers(items[b], CallId(call))
    ensures a == b
  {
  }

  lemma {:induction false} UnambiguousIfRestored(context: seq<ContextItem>, log: seq<Entry>,
                                                 planned: map<string, Binding>)
    requires Admissible(context) && Capped(log, planned) && NamesReserved(planned)
    requires Restorable(context + Injected(log), planned)
    requires CallIds(Calls(context + Injected(log))) == LogIds(log)
    ensures Unambiguous(context, log) && NoRepeat(log)
  {
    hide Committed, WithinCeilings, Counted, ReservedName, Blank, TrimLeft, TrimRight, AnsweredOnce, Identified,
      NoRepeat;
    CallsOfInjected(context, log, planned);
    DistinctMeansNoRepeat(log);
    forall e <- log ensures Trimmed(e.callId) {
      assert e.callId in CallIds(CallItems(log));
      var c :| c in CallItems(log) && CallId(c) == e.callId;
      TrimFixesTrimmed(c.callId);
    }
    forall item | item in context && item.ToolResult? ensures Trim(item.callId) !in LogIds(log) {
      var k :| 0 <= k < |context| && context[k] == item;
      forall i | 0 <= i < |log| ensures log[i].callId != Trim(item.callId) {
        assert log[i] in log;
        TrimFixesTrimmed(log[i].callId);
        CallersDoNotAnswer(context, log, planned, i, k);
      }
    }
  }

  /** Crash recovery, exactly: after committed rounds the counters read back from the durable
      record are those of the committed calls if and only if the identifiers are unambiguous and
      none of them returned. */
  lemma {:induction false} RecoveryRestoresLiveIff(record: Record, context: seq<ContextItem>,
                                                   log: seq<Entry>)
    requires PlanValid(record.plan) && Admissible(context)
    requires Capped(log, Planned(record.plan)) && Identified(log)
    requires record.request.conversation == Some(context + Injected(log))
    ensures Restored(record) == Ok(History(LogCounts(log, Planned(record.plan)), LogIds(log))) <==>
            Unambiguous(context, log) && NoRepeat(log)
  {
    var planned := Planned(record.plan);
    PlannedShape(record.plan);
    CallsOfInjected(context, log, planned);
    CountsOfInjected(log, planned);
    LogIsBounded(log, record.plan);
    if Ceilings(Bindings(record.plan)) == 0 {
      assert log == [] && LogIds(log) == {};
    } else {
      if Unambiguous(context, log) && NoRepeat(log) {
        RestoresIfUnambiguous(context, log, planned);
      }
      if Restored(record) == Ok(History(LogCounts(log, planned), LogIds(log))) {
        UnambiguousIfRestored(context, log, planned);
      }
    }
  }

  predicate AllTrimmed(log: seq<Entry>) {
    forall e <- log :: Trimmed(e.callId)
  }

  /** Whatever the identifiers look like, a history that can be read at all has counted every
      committed call; and where they carry no surrounding white space it has seen every one. */
  lemma {:induction false} RestoredCounts(record: Record, context: seq<ContextItem>, log: seq<Entry>)
    requires PlanValid(record.plan) && Admissible(context) && Capped(log, Planned(record.plan))
    requires record.request.conversation == Some(context + Injected(log))
    requires Restored(record).Ok?
    ensures Restored(record).value.counts == LogCounts(log, Planned(record.plan))
    ensures AllTrimmed(log) ==> Restored(record).value.seen == LogIds(log)
  {
    hide PlanValid, Capped, Restorable, Trimmed, OneCeiling;
    var planned := Planned(record.plan);
    PlannedShape(record.plan);
    CappedNames(log, planned);
    CallsOfInjected(context, log, planned);
    CountsOfInjected(log, planned);
    LogIsBounded(log, record.plan);
    if AllTrimmed(log) {
      IdsOfCallItems(log);
    }
  }

  lemma {:induction false} CappedNames(log: seq<Entry>, planned: map<string, Binding>)
    requires Capped(log, planned)
    ensures forall e <- log :: e.name in planned
  {
    hide WithinCeilings;
  }

  // ----- the number of calls --------------------------------------------------------------

  lemma {:induction false} LogSize(log: seq<Entry>, planned: map<string, Binding>)
    requires forall e <- log :: e.name in planned
    ensures |LogCounts(log, planned)| == |log|
    ensures forall id <- LogCounts(log, planned) :: exists name :: name in planned && planned[name].id == id
  {
    if log != [] {
      LogSize(log[..|log| - 1], planned);
    }
  }

  predicate HasCeiling(id: string, bindings: seq<Binding>) {
    exists b <- bindings :: b.id == id
  }

  /** A bag whose members all have a ceiling is no larger than the ceilings together. */
  lemma {:induction false} BagIsBounded(counts: multiset<string>, bindings: seq<Binding>)
    requires forall id <- counts :: HasCeiling(id, bindings)
    requires forall i | 0 <= i < |bindings| :: counts[bindings[i].id] <= bindings[i].maximumCalls
    ensures |counts| <= Ceilings(bindings)
  {
    if bindings == [] {
      assert counts == multiset{};
    } else {
      var last := bindings[|bindings| - 1];
      var rest := counts[last.id := 0];
      forall id <- rest ensures HasCeiling(id, bindings[..|bindings| - 1]) {
        assert id in counts;
        var b :| b in bindings && b.id == id;
        assert b in bindings[..|bindings| - 1];
      }
      BagIsBounded(rest, bindings[..|bindings| - 1]);
    }
  }

  /** No execution commits more router calls than the plan's ceilings add up to. */
  lemma {:induction false} LogIsBounded(log: seq<Entry>, plan: Plan)
    requires PlanValid(plan) && Capped(log, Planned(plan))
    ensures |log| <= Ceilings(Bindings(plan))
  {
    var planned, bindings := Planned(plan), Bindings(plan);
    var counts := LogCounts(log, planned);
    PlannedShape(plan);
    LogSize(log, planned);
    forall id <- counts ensures HasCeiling(id, bindings) {
      var name :| name in planned && planned[name].id == id;
      assert planned[name] in bindings;
    }
    forall i | 0 <= i < |bindings| ensures counts[bindings[i].id] <= bindings[i].maximumCalls {
      if bindings[i].id in counts {
        var name :| name in planned && planned[name].id == bindings[i].id;
        assert planned[name] in bindings && bindings[i] in bindings;
        assert OneCeiling(bindings, planned[name], bindings[i]);
      }
    }
    BagIsBounded(counts, bindings);
  }
}
