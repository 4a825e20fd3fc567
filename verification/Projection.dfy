/** Request projections: the path-conflict validator and the mutations it lets through. */
module Projection {
  import opened Text
  import opened Json

  // ----- dotted paths ---------------------------------------------------------------------

  const DOT := '.'

  /** The segments of a dotted path. */
  function Segments(path: string): (segments: Path)
    ensures segments != []
  {
    if path == "" then [""]
    else
      var rest := Segments(path[1..]);
      if path[0] == DOT then [""] + rest else [[path[0]] + rest[0]] + rest[1..]
  }

  /** `path == candidate`, or one begins with the other and a dot: the test of the validator. */
  predicate Conflicts(path: string, candidate: string) {
    path == candidate || candidate + [DOT] <= path || path + [DOT] <= candidate
  }

  function Dotted(segments: Path): string {
    if segments == [] then ""
    else if |segments| == 1 then segments[0]
    else segments[0] + [DOT] + Dotted(segments[1..])
  }

  lemma {:induction false} DottedSegments(path: string)
    ensures Dotted(Segments(path)) == path
  {
    if path != "" {
      var rest := Segments(path[1..]);
      DottedSegments(path[1..]);
      if path[0] == DOT {
        assert ([""] + rest)[1..] == rest;
      } else {
        assert ([[path[0]] + rest[0]] + rest[1..])[1..] == rest[1..];
        assert path == [path[0]] + path[1..];
      }
    }
  }

  lemma {:induction false} SegmentsOfJoin(p: string, q: string)
    ensures Segments(p + [DOT] + q) == Segments(p) + Segments(q)
  {
    var joined := p + [DOT] + q;
    if p == "" {
      assert joined[1..] == q;
    } else {
      assert joined[1..] == p[1..] + [DOT] + q;
      SegmentsOfJoin(p[1..], q);
    }
  }

  lemma {:induction false} DottedOfParts(a: Path, b: Path)
    requires a != [] && b != []
    ensures Dotted(a + b) == Dotted(a) + [DOT] + Dotted(b)
  {
    if |a| == 1 {
      assert (a + b)[1..] == b;
    } else {
      assert (a + b)[1..] == a[1..] + b;
      DottedOfParts(a[1..], b);
    }
  }

  /** The dotted-prefix test is the prefix test on segments, for every pair of strings. */
  lemma {:induction false} DottedPrefixIff(p: string, q: string)
    ensures p + [DOT] <= q <==> Segments(p) < Segments(q)
    ensures p == q <==> Segments(p) == Segments(q)
  {
    DottedSegments(p);
    DottedSegments(q);
    if p + [DOT] <= q {
      var rest := q[|p| + 1..];
      assert q == p + [DOT] + rest;
      SegmentsOfJoin(p, rest);
    }
    if Segments(p) < Segments(q) {
      var rest := Segments(q)[|Segments(p)|..];
      assert Segments(q) == Segments(p) + rest;
      DottedOfParts(Segments(p), rest);
    }
  }

  /** No conflict means exactly that neither path leads through the other. */
  lemma {:induction false} ConflictIff(p: string, q: string)
    ensures Conflicts(p, q) <==> !Apart(Segments(p), Segments(q))
  {
    DottedPrefixIff(p, q);
    DottedPrefixIff(q, p);
  }

  // ----- the validator --------------------------------------------------------------------

  /** An assignment; a value that is not one valid JSON text is None. */
  datatype Parameter = Parameter(path: string, value: Option<Json>)

  datatype Rule = Rule(value: string, sets: seq<Parameter>, deletes: seq<string>)

  datatype Additional = Additional(
    defaults: seq<Parameter>, overrides: seq<Parameter>, filters: seq<string>)

  datatype RequestProjection = RequestProjection(
    effort: seq<Rule>, summary: seq<Rule>, additional: Additional)

  predicate PathConflictsWithSet(path: string, existing: set<string>) {
    exists candidate <- existing :: Conflicts(path, candidate)
  }

  predicate IsLetter(c: char) {
    'A' <= c <= 'Z' || 'a' <= c <= 'z' || c == '_'
  }

  predicate SegmentOk(s: string) {
    s != "" && IsLetter(s[0]) && forall c <- s :: IsLetter(c) || IsDigit(c) || c == '-'
  }

  function Normalized(root: string): string {
    seq(|root|, i requires 0 <= i < |root| =>
      if root[i] == '-' then '_'
      else if 'A' <= root[i] <= 'Z' then (root[i] as int + 32) as char else root[i])
  }

  const PROTECTED := {
    "model", "messages", "input", "instructions", "system", "tools", "tool_choice", "stream",
    "previous_response_id", "authorization", "proxy_authorization", "api_key", "apikey", "x_api_key",
    "access_token", "auth_token", "token", "secret", "client_secret", "password", "credential",
    "cookie", "set_cookie"}

  /** validatePayloadPath: an explicit object path outside the protocol's own fields. */
  predicate PathOk(path: string) {
    && (forall s <- Segments(path) :: SegmentOk(s))
    && Normalized(Segments(path)[0]) !in PROTECTED
  }

  /** The validator refuses a path that TrimSpace would change. */
  predicate PlainPath(path: string) {
    Trim(path) == path && PathOk(path)
  }

  predicate Pairwise(paths: seq<string>) {
    forall i, j | 0 <= i < j < |paths| :: !Conflicts(paths[i], paths[j])
  }

  predicate ApartFrom(paths: seq<string>, owned: set<string>) {
    forall p, c | p in paths && c in owned :: !Conflicts(p, c)
  }

  function Paths(parameters: seq<Parameter>): seq<string> {
    seq(|parameters|, i requires 0 <= i < |parameters| => parameters[i].path)
  }

  predicate ParametersOk(parameters: seq<Parameter>, owned: set<string>) {
    && (forall p <- parameters :: PlainPath(p.path) && p.value.Some?)
    && Pairwise(Paths(parameters)) && ApartFrom(Paths(parameters), owned)
  }

  predicate FiltersOk(filters: seq<string>, owned: set<string>) {
    (forall p <- filters :: PlainPath(p)) && Pairwise(filters) && ApartFrom(filters, owned)
  }

  function RulePaths(r: Rule): seq<string> {
    Paths(r.sets) + r.deletes
  }

  predicate RuleOk(r: Rule) {
    && r.value != "" && Trim(r.value) == r.value
    && (r.sets != [] || r.deletes != [])
    && (forall p <- r.sets :: PlainPath(p.path) && p.value.Some?)
    && (forall p <- r.deletes :: PlainPath(p))
    && Pairwise(RulePaths(r))
  }

  predicate RulesOk(rules: seq<Rule>) {
    && (forall r <- rules :: RuleOk(r))
    && (forall i, j | 0 <= i < j < |rules| :: rules[i].value != rules[j].value)
  }

  function Owned(rules: seq<Rule>): set<string> {
    set r, p | r in rules && p in RulePaths(r) :: p
  }

  predicate SetsApart(a: set<string>, b: set<string>) {
    forall p, q | p in a && q in b :: !Conflicts(p, q)
  }

  /** The projections that the validator is meant to accept. */
  predicate Accepted(p: RequestProjection) {
    var reasoning := Owned(p.effort) + Owned(p.summary);
    && RulesOk(p.effort) && RulesOk(p.summary) && SetsApart(Owned(p.effort), Owned(p.summary))
    && ParametersOk(p.additional.defaults, reasoning)
    && ParametersOk(p.additional.overrides, reasoning)
    && FiltersOk(p.additional.filters, reasoning)
  }

  lemma {:induction false} ConflictsIsSymmetric(p: string, q: string)
    ensures Conflicts(p, q) <==> Conflicts(q, p)
  {
  }

  lemma {:induction false} PairwiseAppend(paths: seq<string>, path: string)
    requires Pairwise(paths)
    ensures Pairwise(paths + [path]) <==> !PathConflictsWithSet(path, set p | p in paths)
  {
    hide Conflicts;
    var all := paths + [path];
    if PathConflictsWithSet(path, set p | p in paths) {
      var c :| c in paths && Conflicts(path, c);
      var i :| 0 <= i < |paths| && paths[i] == c;
      ConflictsIsSymmetric(path, c);
      assert Conflicts(all[i], all[|paths|]);
    } else {
      forall i | 0 <= i < |paths| ensures !Conflicts(all[i], path) {
        assert paths[i] in paths;
        ConflictsIsSymmetric(paths[i], path);
      }
    }
  }

  lemma {:induction false} PairwisePrefix(paths: seq<string>, n: nat)
    requires n <= |paths| && Pairwise(paths)
    ensures Pairwise(paths[..n])
  {
    hide Conflicts;
  }

  /** The shared body of the loops: the path joins those seen, unless it is refused. */
  method CheckPath(path: string, seen: set<string>, owned: set<string>, ghost before: seq<string>)
    returns (ok: bool)
    requires Pairwise(before) && seen == set p | p in before
    requires ApartFrom(before, owned)
    ensures ok <==> PlainPath(path) && Pairwise(before + [path]) && ApartFrom(before + [path], owned)
  {
    hide PathOk, Conflicts, Trim;
    PairwiseAppend(before, path);
    ok := Trim(path) == path && PathOk(path)
          && !PathConflictsWithSet(path, seen) && !PathConflictsWithSet(path, owned);
  }

  method ValidatePayloadParameters(parameters: seq<Parameter>, owned: set<string>) returns (ok: bool)
    ensures ok <==> ParametersOk(parameters, owned)
  {
    hide PlainPath, Conflicts;
    var seen: set<string> := {};
    for i := 0 to |parameters|
      invariant ParametersOk(parameters[..i], owned)
      invariant seen == set p | p in Paths(parameters[..i])
    {
      ghost var before := Paths(parameters[..i]);
      assert parameters[i] in parameters && parameters[..i + 1] == parameters[..i] + [parameters[i]];
      assert Paths(parameters[..i + 1]) == before + [parameters[i].path];
      assert Paths(parameters)[..i + 1] == Paths(parameters[..i + 1]);
      var plain := CheckPath(parameters[i].path, seen, owned, before);
      if !plain || parameters[i].value.None? {
        if Pairwise(Paths(parameters)) {
          PairwisePrefix(Paths(parameters), i + 1);
        }
        assert forall p <- before + [parameters[i].path] :: p in Paths(parameters);
        return false;
      }
      seen := seen + {parameters[i].path};
    }
    assert parameters[..|parameters|] == parameters;
    return true;
  }

  method ValidateFilters(filters: seq<string>, seen0: set<string>, owned: set<string>,
                         ghost before: seq<string>)
    returns (ok: bool)
    requires Pairwise(before) && ApartFrom(before, owned) && seen0 == set p | p in before
    ensures ok <==>
              && (forall p <- filters :: PlainPath(p))
              && Pairwise(before + filters) && ApartFrom(before + filters, owned)
  {
    hide PlainPath, Conflicts;
    var seen := seen0;
    assert before + filters[..0] == before;
    for i := 0 to |filters|
      invariant forall p <- filters[..i] :: PlainPath(p)
      invariant Pairwise(before + filters[..i]) && ApartFrom(before + filters[..i], owned)
      invariant seen == set p | p in before + filters[..i]
    {
      ghost var now := before + filters[..i];
      assert filters[i] in filters && before + filters[..i + 1] == now + [filters[i]];
      assert (before + filters)[..|now| + 1] == now + [filters[i]];
      var plain := CheckPath(filters[i], seen, owned, now);
      if !plain {
        if Pairwise(before + filters) {
          PairwisePrefix(before + filters, |now| + 1);
        }
        assert forall p <- now + [filters[i]] :: p in before + filters;
        return false;
      }
      seen := seen + {filters[i]};
    }
    assert filters[..|filters|] == filters;
    return true;
  }

  /** One rule: its assignments among themselves, then its deletions against all of them. */
  method ValidateRule(r: Rule) returns (ok: bool)
    ensures ok <==> RuleOk(r)
  {
    hide PlainPath, Conflicts, Trim;
    if r.value == "" || Trim(r.value) != r.value || (r.sets == [] && r.deletes == []) {
      return false;
    }
    var setsOk := ValidatePayloadParameters(r.sets, {});
    if !setsOk {
      if Pairwise(RulePaths(r)) {
        PairwisePrefix(RulePaths(r), |r.sets|);
        assert RulePaths(r)[..|r.sets|] == Paths(r.sets);
      }
      return false;
    }
    ok := ValidateFilters(r.deletes, set p | p in Paths(r.sets), {}, Paths(r.sets));
  }

  method ValidateReasoningRules(rules: seq<Rule>) returns (ok: bool, owned: set<string>)
    ensures ok <==> RulesOk(rules)
    ensures ok ==> owned == Owned(rules)
  {
    hide RuleOk, RulePaths;
    owned := {};
    var seenValues: set<string> := {};
    for i := 0 to |rules|
      invariant RulesOk(rules[..i]) && owned == Owned(rules[..i])
      invariant seenValues == set r | r in rules[..i] :: r.value
    {
      var rule := rules[i];
      assert rule in rules && rules[..i + 1] == rules[..i] + [rule];
      var ruleOk := ValidateRule(rule);
      if !ruleOk {
        return false, owned;
      }
      if rule.value in seenValues {
        ghost var k :| 0 <= k < i && rules[..i][k].value == rule.value;
        assert rules[k].value == rules[i].value;
        return false, owned;
      }
      seenValues := seenValues + {rule.value};
      owned := owned + set p | p in RulePaths(rule);
    }
    assert rules[..|rules|] == rules;
    return true, owned;
  }

  /** RequestProjection.Validate accepts exactly the intended projections. */
  method Validate(p: RequestProjection) returns (ok: bool)
    ensures ok <==> Accepted(p)
  {
    hide RulesOk, Owned, ParametersOk, PlainPath, Conflicts;
    var effortOk, effortPaths := ValidateReasoningRules(p.effort);
    if !effortOk {
      return false;
    }
    var summaryOk, summaryPaths := ValidateReasoningRules(p.summary);
    if !summaryOk {
      return false;
    }
    if exists path <- summaryPaths :: PathConflictsWithSet(path, effortPaths) {
      ghost var path :| path in summaryPaths && PathConflictsWithSet(path, effortPaths);
      ghost var c :| c in effortPaths && Conflicts(path, c);
      ConflictsIsSymmetric(path, c);
      return false;
    }
    forall e, s | e in effortPaths && s in summaryPaths ensures !Conflicts(e, s) {
      ConflictsIsSymmetric(e, s);
    }
    var reasoningPaths := effortPaths + summaryPaths;
    var defaultsOk := ValidatePayloadParameters(p.additional.defaults, reasoningPaths);
    if !defaultsOk {
      return false;
    }
    var overridesOk := ValidatePayloadParameters(p.additional.overrides, reasoningPaths);
    if !overridesOk {
      return false;
    }
    assert [] + p.additional.filters == p.additional.filters;
    ok := ValidateFilters(p.additional.filters, {}, reasoningPaths, []);
  }

  // ----- model rules beside provider rules ------------------------------------------------

  function ReasoningOwned(p: RequestProjection): set<string> {
    Owned(p.effort) + Owned(p.summary)
  }

  function AdditionalOwned(a: Additional): set<string> {
    (set p | p in Paths(a.defaults)) + (set p | p in Paths(a.overrides)) + (set p | p in a.filters)
  }

  /** What a catalog snapshot demands of each offering beside its provider's additional rules. */
  predicate Compatible(provider: Additional, model: RequestProjection) {
    && Accepted(RequestProjection([], [], provider)) && Accepted(model)
    && SetsApart(ReasoningOwned(model), AdditionalOwned(provider))
  }

  method RulesPaths(rules: seq<Rule>) returns (paths: set<string>)
    ensures paths == Owned(rules)
  {
    hide RulePaths;
    paths := {};
    for i := 0 to |rules|
      invariant paths == Owned(rules[..i])
    {
      assert rules[..i + 1] == rules[..i] + [rules[i]];
      paths := paths + set p | p in RulePaths(rules[i]);
    }
    assert rules[..|rules|] == rules;
  }

  /** The part of Snapshot.Validate that keeps an offering's reasoning rules apart from the provider's
      additional rules. The paths come from a Go map, in any order. */
  method ValidateReasoningPaths(provider: Additional, model: RequestProjection) returns (ok: bool)
    ensures ok <==> SetsApart(ReasoningOwned(model), AdditionalOwned(provider))
  {
    hide Conflicts, Owned, Paths;
    var effortPaths := RulesPaths(model.effort);
    var summaryPaths := RulesPaths(model.summary);
    var providerPaths := AdditionalOwned(provider);
    var remaining := effortPaths + summaryPaths;
    while remaining != {}
      invariant remaining <= ReasoningOwned(model)
      invariant SetsApart(ReasoningOwned(model) - remaining, providerPaths)
      decreases remaining
    {
      var path :| path in remaining;
      if PathConflictsWithSet(path, providerPaths) {
        return false;
      }
      remaining := remaining - {path};
    }
    assert ReasoningOwned(model) - {} == ReasoningOwned(model);
    return true;
  }

  // ----- applying a projection ------------------------------------------------------------

  function SetMutation(p: Parameter): Mutation
    requires p.value.Some?
  {
    SetTo(Segments(p.path), p.value.value)
  }

  function DefaultMutation(p: Parameter): Mutation
    requires p.value.Some?
  {
    SetDefault(Segments(p.path), p.value.value)
  }

  predicate Valued(parameters: seq<Parameter>) {
    forall i | 0 <= i < |parameters| :: parameters[i].value.Some?
  }

  function Sets(parameters: seq<Parameter>): seq<Mutation>
    requires Valued(parameters)
  {
    seq(|parameters|, i requires 0 <= i < |parameters| => SetMutation(parameters[i]))
  }

  function Defaults(parameters: seq<Parameter>): seq<Mutation>
    requires Valued(parameters)
  {
    seq(|parameters|, i requires 0 <= i < |parameters| => DefaultMutation(parameters[i]))
  }

  function Deletes(paths: seq<string>): seq<Mutation> {
    seq(|paths|, i requires 0 <= i < |paths| => DeleteAt(Segments(paths[i])))
  }

  function RuleMutations(r: Rule): seq<Mutation>
    requires Valued(r.sets)
  {
    Sets(r.sets) + Deletes(r.deletes)
  }

  /** The rule for a requested value: the first that names it. */
  function Chosen(rules: seq<Rule>, requested: string): Option<Rule> {
    if rules == [] then None
    else if rules[0].value == requested then Some(rules[0]) else Chosen(rules[1..], requested)
  }

  predicate RulesValued(rules: seq<Rule>) {
    forall i | 0 <= i < |rules| :: Valued(rules[i].sets)
  }

  lemma {:induction false} ChosenIsARule(rules: seq<Rule>, requested: string)
    ensures Chosen(rules, requested).Some? ==>
              Chosen(rules, requested).value in rules && Chosen(rules, requested).value.value == requested
    ensures Chosen(rules, requested).None? ==> forall r <- rules :: r.value != requested
  {
    if rules != [] {
      ChosenIsARule(rules[1..], requested);
      assert rules == [rules[0]] + rules[1..];
    }
  }

  /** What a requested mode does: nothing if none is requested, an error if no rule names it. */
  function ReasoningMutations(rules: seq<Rule>, requested: string): Option<seq<Mutation>>
    requires RulesValued(rules)
  {
    if requested == "" then Some([])
    else
      match Chosen(rules, requested)
      case None => None
      case Some(r) => ChosenIsARule(rules, requested); Some(RuleMutations(r))
  }

  predicate AdditionalValued(a: Additional) {
    Valued(a.defaults) && Valued(a.overrides)
  }

  function AdditionalMutations(a: Additional): seq<Mutation>
    requires AdditionalValued(a)
  {
    Defaults(a.defaults) + Sets(a.overrides) + Deletes(a.filters)
  }

  /** The order of applyRequestProjections: defaults, reasoning, overrides, filters. */
  function ModelMutations(a: Additional, effort: seq<Mutation>, summary: seq<Mutation>): seq<Mutation>
    requires AdditionalValued(a)
  {
    Defaults(a.defaults) + (effort + summary) + (Sets(a.overrides) + Deletes(a.filters))
  }

  lemma {:induction false} AcceptedIsValued(p: RequestProjection)
    requires Accepted(p)
    ensures RulesValued(p.effort) && RulesValued(p.summary) && AdditionalValued(p.additional)
  {
    hide PlainPath, Conflicts, Pairwise, ApartFrom, Paths, SetsApart, Owned;
    ParametersAreValued(p.additional.defaults);
    ParametersAreValued(p.additional.overrides);
    forall i | 0 <= i < |p.effort| ensures Valued(p.effort[i].sets) {
      assert RuleOk(p.effort[i]);
      ParametersAreValued(p.effort[i].sets);
    }
    forall i | 0 <= i < |p.summary| ensures Valued(p.summary[i].sets) {
      assert RuleOk(p.summary[i]);
      ParametersAreValued(p.summary[i].sets);
    }
  }

  lemma {:induction false} ParametersAreValued(parameters: seq<Parameter>)
    ensures (forall p <- parameters :: p.value.Some?) ==> Valued(parameters)
  {
    if forall p <- parameters :: p.value.Some? {
      forall i | 0 <= i < |parameters| ensures parameters[i].value.Some? {
        assert parameters[i] in parameters;
      }
    }
  }

  lemma {:induction false} ApplyOneMore(j: Option<Json>, ms: seq<Mutation>, m: Mutation)
    ensures ApplyAll(j, ms + [m]) == Then(ApplyAll(j, ms), m)
  {
    hide Apply;
    ApplyAllSplits(j, ms, [m]);
  }

  method ApplyDefaults(body: Json, parameters: seq<Parameter>) returns (r: Option<Json>)
    requires Valued(parameters)
    ensures r == ApplyAll(Some(body), Defaults(parameters))
  {
    hide Exists, Set, Delete, ApplyAll;
    var projected := body;
    NothingApplied(Some(body));
    for i := 0 to |parameters|
      invariant Some(projected) == ApplyAll(Some(body), Defaults(parameters)[..i])
    {
      var p := parameters[i];
      assert Defaults(parameters)[..i + 1] == Defaults(parameters)[..i] + [DefaultMutation(p)];
      ApplyOneMore(Some(body), Defaults(parameters)[..i], DefaultMutation(p));
      if Exists(projected, Segments(p.path)) {
        continue;
      }
      var updated := Set(projected, Segments(p.path), p.value.value);
      if updated.None? {
        FailureStays(Some(body), Defaults(parameters), i + 1);
        return None;
      }
      projected := updated.value;
    }
    assert Defaults(parameters)[..|parameters|] == Defaults(parameters);
    return Some(projected);
  }

  method ApplySets(body: Json, parameters: seq<Parameter>) returns (r: Option<Json>)
    requires Valued(parameters)
    ensures r == ApplyAll(Some(body), Sets(parameters))
  {
    hide Exists, Set, Delete, ApplyAll;
    var projected := body;
    NothingApplied(Some(body));
    for i := 0 to |parameters|
      invariant Some(projected) == ApplyAll(Some(body), Sets(parameters)[..i])
    {
      var p := parameters[i];
      assert Sets(parameters)[..i + 1] == Sets(parameters)[..i] + [SetMutation(p)];
      ApplyOneMore(Some(body), Sets(parameters)[..i], SetMutation(p));
      var updated := Set(projected, Segments(p.path), p.value.value);
      if updated.None? {
        FailureStays(Some(body), Sets(parameters), i + 1);
        return None;
      }
      projected := updated.value;
    }
    assert Sets(parameters)[..|parameters|] == Sets(parameters);
    return Some(projected);
  }

  method ApplyDeletes(body: Json, paths: seq<string>) returns (r: Json)
    ensures Some(r) == ApplyAll(Some(body), Deletes(paths))
  {
    hide Exists, Set, Delete, ApplyAll;
    r := body;
    NothingApplied(Some(body));
    for i := 0 to |paths|
      invariant Some(r) == ApplyAll(Some(body), Deletes(paths)[..i])
    {
      assert Deletes(paths)[..i + 1] == Deletes(paths)[..i] + [DeleteAt(Segments(paths[i]))];
      ApplyOneMore(Some(body), Deletes(paths)[..i], DeleteAt(Segments(paths[i])));
      r := Delete(r, Segments(paths[i]));
    }
    assert Deletes(paths)[..|paths|] == Deletes(paths);
  }

  lemma {:induction false} NothingApplied(j: Option<Json>)
    ensures ApplyAll(j, []) == j
    ensures ApplyAll(None, []) == None
  {
  }

  lemma {:induction false} FailureStays(j: Option<Json>, ms: seq<Mutation>, n: nat)
    requires n <= |ms| && ApplyAll(j, ms[..n]).None?
    ensures ApplyAll(j, ms).None?
  {
    hide Apply;
    assert ms == ms[..n] + ms[n..];
    ApplyAllSplits(j, ms[..n], ms[n..]);
  }

  method ApplyReasoningRule(body: Json, requested: string, rules: seq<Rule>) returns (r: Option<Json>)
    requires RulesValued(rules) && requested != ""
    ensures r == match ReasoningMutations(rules, requested)
                 case None => None
                 case Some(ms) => ApplyAll(Some(body), ms)
  {
    hide ApplyAll;
    for i := 0 to |rules|
      invariant Chosen(rules, requested) == Chosen(rules[i..], requested)
    {
      assert rules[i..][1..] == rules[i + 1..];
      if rules[i].value == requested {
        ApplyAllSplits(Some(body), Sets(rules[i].sets), Deletes(rules[i].deletes));
        var withSets := ApplySets(body, rules[i].sets);
        if withSets.None? {
          NothingMore(Deletes(rules[i].deletes));
          return None;
        }
        var deleted := ApplyDeletes(withSets.value, rules[i].deletes);
        return Some(deleted);
      }
    }
    return None;
  }

  lemma {:induction false} NothingMore(ms: seq<Mutation>)
    ensures ApplyAll(None, ms) == None
  {
  }

  method ApplyAdditional(body: Json, a: Additional) returns (r: Option<Json>)
    requires AdditionalValued(a)
    ensures r == ApplyAll(Some(body), AdditionalMutations(a))
  {
    hide ApplyAll, Defaults, Sets, Deletes;
    ApplyAllSplits(Some(body), Defaults(a.defaults) + Sets(a.overrides), Deletes(a.filters));
    ApplyAllSplits(Some(body), Defaults(a.defaults), Sets(a.overrides));
    NothingMore(Sets(a.overrides));
    NothingMore(Deletes(a.filters));
    var defaulted := ApplyDefaults(body, a.defaults);
    if defaulted.None? {
      return None;
    }
    var overridden := ApplySets(defaulted.value, a.overrides);
    if overridden.None? {
      return None;
    }
    var filtered := ApplyDeletes(overridden.value, a.filters);
    return Some(filtered);
  }

  /** ApplyRequestProjections as a function: provider rules first, then the model's. */
  ghost function Projected(body: Json, provider: Additional, model: RequestProjection, effort: string,
                           summary: string): Option<Json>
  {
    if !body.Object? || !Accepted(RequestProjection([], [], provider)) || !Accepted(model) then None
    else
      AcceptedIsValued(RequestProjection([], [], provider));
      AcceptedIsValued(model);
      var e, s := ReasoningMutations(model.effort, effort), ReasoningMutations(model.summary, summary);
      if e.None? || s.None? then None
      else ApplyAll(Some(body), AdditionalMutations(provider) + ModelMutations(model.additional, e.value, s.value))
  }

  // ----- what the request holds -----------------------------------------------------------

  /** What a tree holds at a dotted path. */
  function Held(j: Json, path: string): Option<Json> {
    At(j, Segments(path))
  }

  predicate Beside(path: string, others: set<string>) {
    forall other <- others :: !Conflicts(path, other)
  }

  /** The paths of the rules for a requested value. */
  function RequestedPaths(rules: seq<Rule>, requested: string): set<string> {
    set r, p | r in rules && requested != "" && r.value == requested && p in RulePaths(r) :: p
  }

  /** Every path that the model's projection may change for this request. */
  function ModelPaths(model: RequestProjection, effort: string, summary: string): set<string> {
    AdditionalOwned(model.additional) + RequestedPaths(model.effort, effort) + RequestedPaths(model.summary, summary)
  }

  /** What three additional lists leave in the request, between mutations of the `earlier` and the `later`
      paths: a filtered path holds nothing and an overridden one its override, unless something after it comes
      near, and a default only fills what the body left open, unless anything else comes near. */
  ghost predicate AdditionalHolds(body: Json, a: Additional, earlier: set<string>, later: set<string>, request: Json) {
    var filters := set f | f in a.filters;
    var overrides := set p | p in Paths(a.overrides);
    && (forall f <- a.filters :: Beside(f, later) ==> Held(request, f) == None)
    && (forall o <- a.overrides ::
          Beside(o.path, filters) && Beside(o.path, later) ==> Held(request, o.path) == o.value)
    && (forall d <- a.defaults ::
          Beside(d.path, overrides) && Beside(d.path, filters) && Beside(d.path, earlier) && Beside(d.path, later) ==>
            Held(request, d.path) == if Held(body, d.path).Some? then Held(body, d.path) else d.value)
  }

  /** A requested mode has a rule, and the request holds what the rule sets and nothing that it deletes. */
  ghost predicate RulesHold(rules: seq<Rule>, requested: string, request: Json) {
    && (requested != "" ==> exists r <- rules :: r.value == requested)
    && forall r <- rules :: requested != "" && r.value == requested ==>
         && (forall p <- r.sets :: Held(request, p.path) == p.value)
         && forall p <- r.deletes :: Held(request, p) == None
  }

  /** Everything that is apart from all paths of both projections is as the body has it: the protected fields
      of the protocol in particular. */
  ghost predicate RestIsKept(body: Json, changed: set<string>, request: Json) {
    && (forall q | (forall p <- changed :: Apart(Segments(p), q)) :: At(request, q) == At(body, q))
    && (forall root | Normalized(root) in PROTECTED :: At(request, [root]) == At(body, [root]))
  }

  /** The request that leaves, read path by path. */
  ghost predicate RequestHolds(body: Json, provider: Additional, model: RequestProjection, effort: string,
                               summary: string, request: Json)
  {
    && AdditionalHolds(body, provider, {}, ModelPaths(model, effort, summary), request)
    && AdditionalHolds(body, model.additional, AdditionalOwned(provider), {}, request)
    && RulesHold(model.effort, effort, request) && RulesHold(model.summary, summary, request)
    && RestIsKept(body, AdditionalOwned(provider) + ModelPaths(model, effort, summary), request)
  }

  method ApplyRequestProjections(body: Json, provider: Additional, model: RequestProjection, effort: string,
                                 summary: string)
    returns (r: Option<Json>)
    ensures r == Projected(body, provider, model, effort, summary)
    ensures r.Some? ==> RequestHolds(body, provider, model, effort, summary, r.value)
  {
    hide Accepted, ApplyAll, Defaults, Sets, Deletes, ReasoningMutations, RequestHolds;
    if !body.Object? {
      return None;
    }
    var providerOk := Validate(RequestProjection([], [], provider));
    if !providerOk {
      return None;
    }
    var modelOk := Validate(model);
    if !modelOk {
      return None;
    }
    AcceptedIsValued(RequestProjection([], [], provider));
    AcceptedIsValued(model);
    var provided := ApplyAdditional(body, provider);
    r := ApplyModel(provided, model, effort, summary);
    var e, s := ReasoningMutations(model.effort, effort), ReasoningMutations(model.summary, summary);
    if e.Some? && s.Some? {
      ApplyAllSplits(Some(body), AdditionalMutations(provider),
                     ModelMutations(model.additional, e.value, s.value));
      if r.Some? {
        ProjectedHolds(body, provider, model, effort, summary, r.value);
      }
    }
  }

  method ApplyModel(provided: Option<Json>, model: RequestProjection, effort: string, summary: string)
    returns (r: Option<Json>)
    requires RulesValued(model.effort) && RulesValued(model.summary) && AdditionalValued(model.additional)
    ensures var e, s := ReasoningMutations(model.effort, effort), ReasoningMutations(model.summary, summary);
            r == if e.None? || s.None? then None
                 else ApplyAll(provided, ModelMutations(model.additional, e.value, s.value))
  {
    hide ApplyAll, Defaults, Sets, Deletes, ReasoningMutations;
    ghost var e, s := ReasoningMutations(model.effort, effort), ReasoningMutations(model.summary, summary);
    ghost var a := model.additional;
    if e.Some? && s.Some? {
      SplitsModel(provided, a, e.value, s.value);
    }
    if provided.None? {
      return None;
    }
    var projected := ApplyDefaults(provided.value, model.additional.defaults);
    if projected.Some? {
      projected := ApplyMode(projected.value, effort, model.effort);
    }
    if projected.Some? {
      projected := ApplyMode(projected.value, summary, model.summary);
    }
    if projected.Some? {
      projected := ApplySets(projected.value, model.additional.overrides);
    }
    if projected.None? {
      return None;
    }
    var filtered := ApplyDeletes(projected.value, model.additional.filters);
    return Some(filtered);
  }

  method ApplyMode(body: Json, requested: string, rules: seq<Rule>) returns (r: Option<Json>)
    requires RulesValued(rules)
    ensures r == match ReasoningMutations(rules, requested)
                 case None => None
                 case Some(ms) => ApplyAll(Some(body), ms)
  {
    hide Chosen;
    if requested == "" {
      return Some(body);
    }
    r := ApplyReasoningRule(body, requested, rules);
  }

  lemma {:induction false} SplitsModel(j: Option<Json>, a: Additional, e: seq<Mutation>, s: seq<Mutation>)
    requires AdditionalValued(a)
    ensures ApplyAll(j, ModelMutations(a, e, s)) ==
            ApplyAll(ApplyAll(ApplyAll(ApplyAll(ApplyAll(j, Defaults(a.defaults)), e), s), Sets(a.overrides)),
                     Deletes(a.filters))
    ensures ApplyAll(None, Defaults(a.defaults)) == None
    ensures ApplyAll(None, e) == None && ApplyAll(None, s) == None
    ensures ApplyAll(None, Sets(a.overrides)) == None && ApplyAll(None, Deletes(a.filters)) == None
  {
    hide ApplyAll, Defaults, Sets, Deletes;
    var d, o, f := Defaults(a.defaults), Sets(a.overrides), Deletes(a.filters);
    ApplyAllSplits(j, d + (e + s), o + f);
    ApplyAllSplits(j, d, e + s);
    ApplyAllSplits(ApplyAll(j, d), e, s);
    ApplyAllSplits(ApplyAll(ApplyAll(ApplyAll(j, d), e), s), o, f);
    NothingMore(d);
    NothingMore(e);
    NothingMore(s);
    NothingMore(o);
    NothingMore(f);
  }

  // ----- mutation order is not observable -------------------------------------------------

  /** The paths of mutations are the segments of dotted paths. */
  ghost predicate Follow(ms: seq<Mutation>, paths: seq<string>) {
    |ms| == |paths| && forall i | 0 <= i < |ms| :: ms[i].path == Segments(paths[i])
  }

  lemma {:induction false} PairwiseIsUnordered(ms: seq<Mutation>, paths: seq<string>)
    requires Follow(ms, paths) && Pairwise(paths)
    ensures Unordered(ms)
  {
    hide Conflicts, Apart, Segments;
    forall i, j | 0 <= i < j < |ms| ensures Apart(ms[i].path, ms[j].path) {
      ConflictIff(paths[i], paths[j]);
    }
  }

  lemma {:induction false} ConflictFreeIsApart(a: seq<Mutation>, ps: seq<string>, b: seq<Mutation>, qs: seq<string>)
    requires Follow(a, ps) && Follow(b, qs)
    requires forall p, q | p in ps && q in qs :: !Conflicts(p, q)
    ensures AllApart(a, b)
  {
    hide Conflicts, Apart, Segments;
    forall m, n | m in a && n in b ensures Apart(m.path, n.path) {
      var i :| 0 <= i < |a| && a[i] == m;
      var j :| 0 <= j < |b| && b[j] == n;
      assert ps[i] in ps && qs[j] in qs;
      ConflictIff(ps[i], qs[j]);
    }
  }

  lemma {:induction false} MutationsFollow(a: Additional, r: Rule)
    requires AdditionalValued(a) && Valued(r.sets)
    ensures Follow(Defaults(a.defaults), Paths(a.defaults))
    ensures Follow(Sets(a.overrides), Paths(a.overrides))
    ensures Follow(Deletes(a.filters), a.filters)
    ensures Follow(RuleMutations(r), RulePaths(r))
  {
    hide Segments;
  }

  /** The rule that a mode selects, with the empty rule for no mode. */
  ghost predicate Selects(rules: seq<Rule>, requested: string, r: Rule) {
    if requested == "" then r == Rule("", [], []) else Chosen(rules, requested) == Some(r)
  }

  lemma {:induction false} SelectedRule(rules: seq<Rule>, requested: string, r: Rule)
    requires RulesOk(rules) && RulesValued(rules) && Selects(rules, requested, r)
    ensures Valued(r.sets) && ReasoningMutations(rules, requested) == Some(RuleMutations(r))
    ensures Pairwise(RulePaths(r)) && forall p <- RulePaths(r) :: p in Owned(rules)
  {
    hide Conflicts, PlainPath, Trim;
    if requested != "" {
      ChosenIsARule(rules, requested);
    } else {
      assert RuleMutations(r) == [];
    }
  }

  /** What acceptance says about the mutations of one request. */
  ghost predicate Independent(d: seq<Mutation>, e: seq<Mutation>, s: seq<Mutation>, o: seq<Mutation>,
                              f: seq<Mutation>)
  {
    && Unordered(d) && Unordered(o) && Unordered(f) && Unordered(e) && Unordered(s)
    && AllApart(e, s)
    && AllApart(d, e) && AllApart(o, e) && AllApart(f, e)
    && AllApart(d, s) && AllApart(o, s) && AllApart(f, s)
  }

  lemma {:induction false} AcceptedIsIndependent(p: RequestProjection, effort: string, e: Rule, summary: string,
                                                 s: Rule)
    requires Accepted(p) && Selects(p.effort, effort, e) && Selects(p.summary, summary, s)
    ensures RulesValued(p.effort) && RulesValued(p.summary) && AdditionalValued(p.additional)
    ensures Valued(e.sets) && Valued(s.sets)
    ensures ReasoningMutations(p.effort, effort) == Some(RuleMutations(e))
    ensures ReasoningMutations(p.summary, summary) == Some(RuleMutations(s))
    ensures var a := p.additional;
            Independent(Defaults(a.defaults), RuleMutations(e), RuleMutations(s), Sets(a.overrides),
                        Deletes(a.filters))
  {
    hide Conflicts, PlainPath, Paths, RulePaths, Pairwise, Owned, RulesOk, Follow, RulesValued,
      Defaults, RuleMutations, Sets, Deletes, ReasoningMutations, Unordered, AllApart, Selects, Valued;
    var a := p.additional;
    AcceptedIsValued(p);
    SelectedRule(p.effort, effort, e);
    SelectedRule(p.summary, summary, s);
    MutationsFollow(a, e);
    MutationsFollow(a, s);
    PairwiseIsUnordered(Defaults(a.defaults), Paths(a.defaults));
    PairwiseIsUnordered(Sets(a.overrides), Paths(a.overrides));
    PairwiseIsUnordered(Deletes(a.filters), a.filters);
    PairwiseIsUnordered(RuleMutations(e), RulePaths(e));
    PairwiseIsUnordered(RuleMutations(s), RulePaths(s));
    ConflictFreeIsApart(RuleMutations(e), RulePaths(e), RuleMutations(s), RulePaths(s));
    ConflictFreeIsApart(Defaults(a.defaults), Paths(a.defaults), RuleMutations(e), RulePaths(e));
    ConflictFreeIsApart(Sets(a.overrides), Paths(a.overrides), RuleMutations(e), RulePaths(e));
    ConflictFreeIsApart(Deletes(a.filters), a.filters, RuleMutations(e), RulePaths(e));
    ConflictFreeIsApart(Defaults(a.defaults), Paths(a.defaults), RuleMutations(s), RulePaths(s));
    ConflictFreeIsApart(Sets(a.overrides), Paths(a.overrides), RuleMutations(s), RulePaths(s));
    ConflictFreeIsApart(Deletes(a.filters), a.filters, RuleMutations(s), RulePaths(s));
  }

  lemma {:induction false} UnorderedConcat(a: seq<Mutation>, b: seq<Mutation>)
    requires Unordered(a) && Unordered(b) && AllApart(a, b)
    ensures Unordered(a + b)
  {
    hide Apart;
  }

  lemma {:induction false} ApartConcat(a: seq<Mutation>, b: seq<Mutation>, c: seq<Mutation>)
    ensures AllApart(a, c) && AllApart(b, c) ==> AllApart(a + b, c)
    ensures AllApart(a, b) && AllApart(a, c) ==> AllApart(a, b + c)
  {
    hide Apart;
  }

  lemma {:induction false} SameMembersApart(a: seq<Mutation>, a': seq<Mutation>, b: seq<Mutation>, b': seq<Mutation>)
    requires AllApart(a, b) && multiset(a) == multiset(a') && multiset(b) == multiset(b')
    ensures AllApart(a', b')
  {
    hide Apart;
    forall m, n | m in a' && n in b' ensures Apart(m.path, n.path) {
      assert m in multiset(a') && n in multiset(b');
      assert m in a && n in b;
    }
  }

  lemma {:induction false} BlockReplaced(j: Option<Json>, a: seq<Mutation>, a': seq<Mutation>, b: seq<Mutation>,
                                         b': seq<Mutation>)
    requires Unordered(a) && multiset(a) == multiset(a')
    requires forall i :: ApplyAll(i, b) == ApplyAll(i, b')
    ensures ApplyAll(j, a + b) == ApplyAll(j, a' + b')
  {
    hide Apart, Apply, ApplyAll, Unordered;
    ApplyAllSplits(j, a, b);
    ApplyAllSplits(j, a', b');
    OrderIsNotObservable(j, a, a');
  }

  /** A block that is apart from the rest may stand anywhere in it. */
  lemma {:induction false} BlockAnywhere(j: Option<Json>, rest: seq<Mutation>, k: nat, block: seq<Mutation>)
    requires k <= |rest| && AllApart(rest, block)
    ensures ApplyAll(j, rest[..k] + block + rest[k..]) == ApplyAll(j, block + rest)
  {
    hide Apart, Apply, ApplyAll;
    var before, after := rest[..k], rest[k..];
    assert rest == before + after;
    BlocksCommute(j, before, block);
    ApplyAllSplits(j, before + block, after);
    ApplyAllSplits(j, block + before, after);
    assert (block + before) + after == block + rest;
  }

  /** The order of the additional lists among themselves is kept; inside each it is free. */
  lemma {:induction false} AdditionalInAnyOrder(j: Option<Json>, d: seq<Mutation>, d': seq<Mutation>,
                                                o: seq<Mutation>, o': seq<Mutation>, f: seq<Mutation>,
                                                f': seq<Mutation>)
    requires Unordered(d) && Unordered(o) && Unordered(f)
    requires multiset(d) == multiset(d') && multiset(o) == multiset(o') && multiset(f) == multiset(f')
    ensures ApplyAll(j, d + (o + f)) == ApplyAll(j, d' + (o' + f'))
  {
    hide Apart, Apply, ApplyAll, Unordered;
    forall i ensures ApplyAll(i, f) == ApplyAll(i, f') {
      OrderIsNotObservable(i, f, f');
    }
    forall i ensures ApplyAll(i, o + f) == ApplyAll(i, o' + f') {
      BlockReplaced(i, o, o', f, f');
    }
    BlockReplaced(j, d, d', o + f, o' + f');
  }

  /** The purpose of the validator: for an accepted projection and any requested modes, the reasoning
      mutations in any order, standing before, after or anywhere among the additional ones, and each
      additional list in any order, give the tree that the program computes. */
  lemma {:induction false} MutationOrderIsNotObservable(
      j: Option<Json>, p: RequestProjection, effort: string, e: Rule, summary: string, s: Rule,
      d': seq<Mutation>, r': seq<Mutation>, o': seq<Mutation>, f': seq<Mutation>, k: nat)
    requires Accepted(p) && Selects(p.effort, effort, e) && Selects(p.summary, summary, s)
    requires RulesValued(p.effort) && RulesValued(p.summary) && AdditionalValued(p.additional)
    requires Valued(e.sets) && Valued(s.sets)
    requires multiset(d') == multiset(Defaults(p.additional.defaults))
    requires multiset(r') == multiset(RuleMutations(e) + RuleMutations(s))
    requires multiset(o') == multiset(Sets(p.additional.overrides))
    requires multiset(f') == multiset(Deletes(p.additional.filters))
    requires k <= |d' + (o' + f')|
    ensures ReasoningMutations(p.effort, effort).Some? && ReasoningMutations(p.summary, summary).Some?
    ensures var rest := d' + (o' + f');
            ApplyAll(j, rest[..k] + r' + rest[k..]) ==
            ApplyAll(j, ModelMutations(p.additional, ReasoningMutations(p.effort, effort).value,
                                       ReasoningMutations(p.summary, summary).value))
  {
    hide Accepted, Selects, RulesValued, Valued, Defaults, RuleMutations, Sets, Deletes,
      ReasoningMutations, Apply, ApplyAll, Apart, Unordered, AllApart;
    AcceptedIsIndependent(p, effort, e, summary, s);
    var d, o, f := Defaults(p.additional.defaults), Sets(p.additional.overrides), Deletes(p.additional.filters);
    AnyPlacement(j, d, RuleMutations(e), RuleMutations(s), o, f, d', r', o', f', k);
  }

  /** A block that is apart from the rest may stand anywhere in it, with its own members and those of the
      rest in any order that does not change what they do. */
  lemma {:induction false} BlockAmong(j: Option<Json>, rest: seq<Mutation>, m: nat, block: seq<Mutation>,
                                      rest': seq<Mutation>, k: nat, block': seq<Mutation>)
    requires m <= |rest| && k <= |rest'| && AllApart(rest, block) && Unordered(block)
    requires multiset(rest') == multiset(rest) && multiset(block') == multiset(block)
    requires forall i :: ApplyAll(i, rest) == ApplyAll(i, rest')
    ensures ApplyAll(j, rest'[..k] + block' + rest'[k..]) == ApplyAll(j, rest[..m] + block + rest[m..])
  {
    hide Apply, ApplyAll, Apart, Unordered, AllApart;
    SameMembersApart(rest, rest', block, block');
    BlockAnywhere(j, rest', k, block');
    BlockAnywhere(j, rest, m, block);
    BlockReplaced(j, block, block', rest, rest');
  }

  lemma {:induction false} AnyPlacement(j: Option<Json>, d: seq<Mutation>, e: seq<Mutation>, s: seq<Mutation>,
                                        o: seq<Mutation>, f: seq<Mutation>, d': seq<Mutation>,
                                        r': seq<Mutation>, o': seq<Mutation>, f': seq<Mutation>, k: nat)
    requires Independent(d, e, s, o, f)
    requires multiset(d') == multiset(d) && multiset(r') == multiset(e + s)
    requires multiset(o') == multiset(o) && multiset(f') == multiset(f)
    requires k <= |d' + (o' + f')|
    ensures var rest := d' + (o' + f');
            ApplyAll(j, rest[..k] + r' + rest[k..]) == ApplyAll(j, d + (e + s) + (o + f))
  {
    hide Apply, ApplyAll, Apart, Unordered, AllApart;
    var rest, rest' := d + (o + f), d' + (o' + f');
    UnorderedConcat(e, s);
    RestIsApart(d, e, s, o, f);
    SameRest(d, o, f, d', o', f');
    assert rest[..|d|] == d && rest[|d|..] == o + f;
    forall i ensures ApplyAll(i, rest) == ApplyAll(i, rest') {
      AdditionalInAnyOrder(i, d, d', o, o', f, f');
    }
    BlockAmong(j, rest, |d|, e + s, rest', k, r');
  }

  lemma {:induction false} RestIsApart(d: seq<Mutation>, e: seq<Mutation>, s: seq<Mutation>, o: seq<Mutation>,
                                       f: seq<Mutation>)
    requires Independent(d, e, s, o, f)
    ensures AllApart(d + (o + f), e + s)
  {
    hide Apart, Unordered, AllApart;
    ListsAreApart(d, o, f, e);
    ListsAreApart(d, o, f, s);
    ApartConcat(d + (o + f), e, s);
  }

  lemma {:induction false} ListsAreApart(d: seq<Mutation>, o: seq<Mutation>, f: seq<Mutation>, block: seq<Mutation>)
    requires AllApart(d, block) && AllApart(o, block) && AllApart(f, block)
    ensures AllApart(d + (o + f), block)
  {
    hide AllApart;
    ApartConcat(o, f, block);
    ApartConcat(d, o + f, block);
  }

  lemma {:induction false} SameRest(d: seq<Mutation>, o: seq<Mutation>, f: seq<Mutation>, d': seq<Mutation>,
                                    o': seq<Mutation>, f': seq<Mutation>)
    requires multiset(d') == multiset(d) && multiset(o') == multiset(o) && multiset(f') == multiset(f)
    ensures multiset(d + (o + f)) == multiset(d' + (o' + f'))
  {
  }

  // ----- among the provider's mutations, too ----------------------------------------------

  /** The provider's three lists stay in their order, each in any order of its own. */
  ghost predicate Shuffled(a: Additional, ms: seq<Mutation>, d: seq<Mutation>, o: seq<Mutation>, f: seq<Mutation>)
    requires AdditionalValued(a)
  {
    && ms == d + (o + f) && multiset(d) == multiset(Defaults(a.defaults))
    && multiset(o) == multiset(Sets(a.overrides)) && multiset(f) == multiset(Deletes(a.filters))
  }

  lemma {:induction false} ListsAreUnordered(p: RequestProjection)
    requires Accepted(p)
    ensures AdditionalValued(p.additional)
    ensures var a := p.additional;
            Unordered(Defaults(a.defaults)) && Unordered(Sets(a.overrides)) && Unordered(Deletes(a.filters))
  {
    hide Conflicts, PlainPath, Paths, Pairwise, Owned, RulesOk, Follow, Defaults, Sets, Deletes, Unordered;
    var a := p.additional;
    AcceptedIsValued(p);
    MutationsFollow(a, Rule("", [], []));
    PairwiseIsUnordered(Defaults(a.defaults), Paths(a.defaults));
    PairwiseIsUnordered(Sets(a.overrides), Paths(a.overrides));
    PairwiseIsUnordered(Deletes(a.filters), a.filters);
  }

  /** Shuffling a list of an accepted projection is not observable, nor is where the lists are split. */
  lemma {:induction false} ShuffledAppliesSame(j: Option<Json>, p: RequestProjection, ms: seq<Mutation>,
                                               d: seq<Mutation>, o: seq<Mutation>, f: seq<Mutation>)
    requires Accepted(p) && AdditionalValued(p.additional) && Shuffled(p.additional, ms, d, o, f)
    ensures ApplyAll(j, ms) == ApplyAll(j, AdditionalMutations(p.additional))
    ensures multiset(ms) == multiset(AdditionalMutations(p.additional))
  {
    hide Accepted, ApplyAll, Apply, Unordered, Defaults, Sets, Deletes, Valued;
    var a := p.additional;
    ListsAreUnordered(p);
    var d0, o0, f0 := Defaults(a.defaults), Sets(a.overrides), Deletes(a.filters);
    AdditionalInAnyOrder(j, d0, d, o0, o, f0, f);
    SameRest(d0, o0, f0, d, o, f);
    assert d0 + (o0 + f0) == AdditionalMutations(a);
  }

  lemma {:induction false} ProviderIsApart(provider: Additional, model: RequestProjection, effort: string,
                                           e: Rule, summary: string, s: Rule)
    requires Compatible(provider, model) && Selects(model.effort, effort, e) && Selects(model.summary, summary, s)
    requires AdditionalValued(provider) && Valued(e.sets) && Valued(s.sets)
    ensures AllApart(AdditionalMutations(provider), RuleMutations(e) + RuleMutations(s))
  {
    hide Accepted, Conflicts, Paths, RulePaths, Owned, Follow, Defaults, Sets, Deletes, RuleMutations, AllApart,
      Selects, Valued;
    SelectedPaths(model, effort, e, summary, s);
    MutationsFollow(provider, e);
    MutationsFollow(provider, s);
    RuleIsApart(provider, e, ReasoningOwned(model));
    RuleIsApart(provider, s, ReasoningOwned(model));
    ApartConcat(AdditionalMutations(provider), RuleMutations(e), RuleMutations(s));
  }

  lemma {:induction false} SelectedPaths(p: RequestProjection, effort: string, e: Rule, summary: string, s: Rule)
    requires Accepted(p) && Selects(p.effort, effort, e) && Selects(p.summary, summary, s)
    ensures forall path <- RulePaths(e) :: path in ReasoningOwned(p)
    ensures forall path <- RulePaths(s) :: path in ReasoningOwned(p)
  {
    hide Conflicts, PlainPath, Paths, RulePaths, Owned, RulesOk, Selects, RulesValued;
    AcceptedIsValued(p);
    SelectedRule(p.effort, effort, e);
    SelectedRule(p.summary, summary, s);
  }

  lemma {:induction false} RuleIsApart(provider: Additional, r: Rule, owned: set<string>)
    requires AdditionalValued(provider) && Valued(r.sets)
    requires SetsApart(owned, AdditionalOwned(provider)) && forall path <- RulePaths(r) :: path in owned
    ensures AllApart(AdditionalMutations(provider), RuleMutations(r))
  {
    hide Conflicts, Paths, RulePaths, Follow, Defaults, Sets, Deletes, RuleMutations, AllApart, Valued;
    MutationsFollow(provider, r);
    forall p, q | p in AdditionalOwned(provider) && q in RulePaths(r) ensures !Conflicts(p, q) {
      ConflictsIsSymmetric(q, p);
    }
    var a := provider;
    ConflictFreeIsApart(Defaults(a.defaults), Paths(a.defaults), RuleMutations(r), RulePaths(r));
    ConflictFreeIsApart(Sets(a.overrides), Paths(a.overrides), RuleMutations(r), RulePaths(r));
    ConflictFreeIsApart(Deletes(a.filters), a.filters, RuleMutations(r), RulePaths(r));
    ListsAreApart(Defaults(a.defaults), Sets(a.overrides), Deletes(a.filters), RuleMutations(r));
    assert Defaults(a.defaults) + (Sets(a.overrides) + Deletes(a.filters)) == AdditionalMutations(a);
  }

  /** For an offering of a validated snapshot the reasoning mutations may stand anywhere among all others,
      the provider's included, and every list may be in any order: the request is the one that
      ApplyRequestProjections computes. */
  lemma {:induction false} ReasoningMayStandAnywhere(
      body: Json, provider: Additional, model: RequestProjection, effort: string, e: Rule, summary: string,
      s: Rule, pm: seq<Mutation>, pd: seq<Mutation>, po: seq<Mutation>, pf: seq<Mutation>,
      mm: seq<Mutation>, md: seq<Mutation>, mo: seq<Mutation>, mf: seq<Mutation>, r': seq<Mutation>, k: nat)
    requires body.Object? && Compatible(provider, model)
    requires Selects(model.effort, effort, e) && Selects(model.summary, summary, s)
    requires AdditionalValued(provider) && AdditionalValued(model.additional) && Valued(e.sets) && Valued(s.sets)
    requires Shuffled(provider, pm, pd, po, pf) && Shuffled(model.additional, mm, md, mo, mf)
    requires multiset(r') == multiset(RuleMutations(e) + RuleMutations(s)) && k <= |pm + mm|
    ensures ApplyAll(Some(body), (pm + mm)[..k] + r' + (pm + mm)[k..]) ==
            Projected(body, provider, model, effort, summary)
  {
    hide Accepted, Selects, Valued, Defaults, RuleMutations, Sets, Deletes, ReasoningMutations, Apply, ApplyAll,
      Apart, Unordered, AllApart, RulesValued, SetsApart, Shuffled;
    var own := RequestProjection([], [], provider);
    AcceptedIsIndependent(model, effort, e, summary, s);
    var pm0, mm0 := AdditionalMutations(provider), AdditionalMutations(model.additional);
    var d, o, f := Defaults(model.additional.defaults), Sets(model.additional.overrides),
      Deletes(model.additional.filters);
    var block, rest := RuleMutations(e) + RuleMutations(s), pm0 + mm0;
    UnorderedConcat(RuleMutations(e), RuleMutations(s));
    RestIsApart(d, RuleMutations(e), RuleMutations(s), o, f);
    assert mm0 == d + (o + f);
    ProviderIsApart(provider, model, effort, e, summary, s);
    ApartConcat(pm0, mm0, block);
    ShuffledAppliesSame(None, own, pm, pd, po, pf);
    ShuffledAppliesSame(None, model, mm, md, mo, mf);
    forall i ensures ApplyAll(i, rest) == ApplyAll(i, pm + mm) {
      ShuffledAppliesSame(i, own, pm, pd, po, pf);
      ApplyAllSplits(i, pm0, mm0);
      ApplyAllSplits(i, pm, mm);
      ShuffledAppliesSame(ApplyAll(i, pm), model, mm, md, mo, mf);
    }
    BlockAmong(Some(body), rest, |pm0| + |d|, block, pm + mm, k, r');
    assert rest[..|pm0| + |d|] + block + rest[|pm0| + |d|..] == pm0 + (d + block + (o + f));
  }

  /** A projection that the validator accepts, with a default, an override and a filter. */
  lemma {:induction false} SomeProjectionIsAccepted(v: Json)
    ensures Accepted(RequestProjection([], [], Additional([Parameter("b", Some(v))], [Parameter("c", Some(v))], ["d"])))
  {
    hide PlainPath;
    SingleLetterIsPlain('b');
    SingleLetterIsPlain('c');
    SingleLetterIsPlain('d');
  }

  lemma {:induction false} SingleLetterIsPlain(c: char)
    requires 'a' <= c <= 'z'
    ensures PlainPath([c])
  {
  }

  // ----- the request, path by path --------------------------------------------------------

  ghost predicate Covers(ms: seq<Mutation>, paths: set<string>) {
    forall m <- ms :: exists p <- paths :: m.path == Segments(p)
  }

  lemma {:induction false} BesideIsApart(path: string, ms: seq<Mutation>, paths: set<string>)
    requires Covers(ms, paths) && Beside(path, paths)
    ensures forall m <- ms :: Apart(m.path, Segments(path))
  {
    hide Conflicts, Apart, Segments;
    forall m <- ms ensures Apart(m.path, Segments(path)) {
      var p :| p in paths && m.path == Segments(p);
      ConflictsIsSymmetric(path, p);
      ConflictIff(p, path);
    }
  }

  lemma {:induction false} FollowIsCovered(ms: seq<Mutation>, paths: seq<string>)
    requires Follow(ms, paths)
    ensures Covers(ms, set p | p in paths)
  {
    hide Segments;
    forall m <- ms ensures exists p <- (set p | p in paths) :: m.path == Segments(p) {
      var i :| 0 <= i < |ms| && ms[i] == m;
      assert paths[i] in paths;
    }
  }

  lemma {:induction false} CoversConcat(a: seq<Mutation>, b: seq<Mutation>, ps: set<string>, qs: set<string>)
    requires Covers(a, ps) && Covers(b, qs)
    ensures Covers(a + b, ps + qs)
  {
    hide Segments;
  }

  lemma {:induction false} AdditionalIsCovered(a: Additional)
    requires AdditionalValued(a)
    ensures Covers(Defaults(a.defaults), set p | p in Paths(a.defaults))
    ensures Covers(Sets(a.overrides), set p | p in Paths(a.overrides))
    ensures Covers(Deletes(a.filters), set p | p in a.filters)
    ensures Covers(AdditionalMutations(a), AdditionalOwned(a))
  {
    hide Covers, Follow, Defaults, Sets, Deletes, Valued;
    EmptyIsValued();
    MutationsFollow(a, Rule("", [], []));
    FollowIsCovered(Defaults(a.defaults), Paths(a.defaults));
    FollowIsCovered(Sets(a.overrides), Paths(a.overrides));
    FollowIsCovered(Deletes(a.filters), a.filters);
    var ps, qs, rs := set p | p in Paths(a.defaults), set p | p in Paths(a.overrides), set p | p in a.filters;
    CoversConcat(Defaults(a.defaults), Sets(a.overrides), ps, qs);
    CoversConcat(Defaults(a.defaults) + Sets(a.overrides), Deletes(a.filters), ps + qs, rs);
  }

  lemma {:induction false} EmptyIsValued()
    ensures Valued([])
  {
  }

  lemma {:induction false} BesideBoth(path: string, a: set<string>, b: set<string>)
    ensures Beside(path, a + b) <==> Beside(path, a) && Beside(path, b)
  {
    hide Conflicts;
  }

  lemma {:induction false} FiltersHold(body: Json, before: seq<Mutation>, filters: seq<string>, after: seq<Mutation>,
                                       later: set<string>, request: Json)
    requires ApplyAll(Some(body), before + Deletes(filters) + after) == Some(request)
    requires Unordered(Deletes(filters)) && Covers(after, later)
    ensures forall f <- filters :: Beside(f, later) ==> Held(request, f) == None
  {
    hide Apart, ApplyAll, Unordered, Segments, At, Covers, Beside;
    forall f <- filters | Beside(f, later) ensures Held(request, f) == None {
      var i :| 0 <= i < |filters| && filters[i] == f;
      assert Deletes(filters)[i] in Deletes(filters);
      BesideIsApart(f, after, later);
      BlockDecides(body, before, Deletes(filters), after, DeleteAt(Segments(f)), request);
    }
  }

  lemma {:induction false} SetsHold(body: Json, before: seq<Mutation>, sets: seq<Parameter>, after: seq<Mutation>,
                                    later: set<string>, request: Json)
    requires Valued(sets) && ApplyAll(Some(body), before + Sets(sets) + after) == Some(request)
    requires Unordered(Sets(sets)) && Covers(after, later)
    ensures forall p <- sets :: Beside(p.path, later) ==> Held(request, p.path) == p.value
  {
    hide Apart, ApplyAll, Unordered, Segments, At, Covers, Beside;
    forall p <- sets | Beside(p.path, later) ensures Held(request, p.path) == p.value {
      var i :| 0 <= i < |sets| && sets[i] == p;
      assert Sets(sets)[i] in Sets(sets);
      BesideIsApart(p.path, after, later);
      BlockDecides(body, before, Sets(sets), after, SetMutation(p), request);
    }
  }

  lemma {:induction false} DefaultsHold(body: Json, before: seq<Mutation>, earlier: set<string>,
                                        defaults: seq<Parameter>, among: seq<Mutation>, after: seq<Mutation>,
                                        later: set<string>, request: Json)
    requires Valued(defaults)
    requires ApplyAll(Some(body), before + Defaults(defaults) + (among + after)) == Some(request)
    requires Unordered(Defaults(defaults)) && AllApart(Defaults(defaults), among)
    requires Covers(before, earlier) && Covers(after, later)
    ensures forall d <- defaults :: Beside(d.path, earlier) && Beside(d.path, later) ==>
              Held(request, d.path) == if Held(body, d.path).Some? then Held(body, d.path) else d.value
  {
    hide Apart, ApplyAll, Unordered, Segments, At, Covers, Beside;
    forall d <- defaults | Beside(d.path, earlier) && Beside(d.path, later)
      ensures Held(request, d.path) == if Held(body, d.path).Some? then Held(body, d.path) else d.value
    {
      var i :| 0 <= i < |defaults| && defaults[i] == d;
      var m := Defaults(defaults)[i];
      assert m in Defaults(defaults) && m == DefaultMutation(d);
      BesideIsApart(d.path, before, earlier);
      BesideIsApart(d.path, after, later);
      forall n <- among ensures Apart(n.path, m.path) {
        ApartIsSymmetric(n.path, m.path);
      }
      BlockDecides(body, before, Defaults(defaults), among + after, m, request);
    }
  }

  /** The three lists of one projection, between what comes before and after them, with mutations apart from
      the defaults among them. */
  lemma {:induction false} ListsHold(body: Json, before: seq<Mutation>, earlier: set<string>, a: Additional,
                                     among: seq<Mutation>, after: seq<Mutation>, later: set<string>, request: Json)
    requires AdditionalValued(a) && Covers(before, earlier) && Covers(after, later)
    requires Unordered(Defaults(a.defaults)) && Unordered(Sets(a.overrides)) && Unordered(Deletes(a.filters))
    requires AllApart(Defaults(a.defaults), among)
    requires var (d, o, f) := (Defaults(a.defaults), Sets(a.overrides), Deletes(a.filters));
             ApplyAll(Some(body), before + (d + among + (o + f)) + after) == Some(request)
    ensures AdditionalHolds(body, a, earlier, later, request)
  {
    hide Apart, ApplyAll, Unordered, AllApart, Held, Covers, Beside, Defaults, Sets, Deletes, Valued;
    var d, o, f := Defaults(a.defaults), Sets(a.overrides), Deletes(a.filters);
    var filters, overrides := set f | f in a.filters, set p | p in Paths(a.overrides);
    AdditionalIsCovered(a);
    var all := before + (d + among + (o + f)) + after;
    assert all == (before + d + among + o) + f + after;
    FiltersHold(body, before + d + among + o, a.filters, after, later, request);
    assert all == (before + d + among) + o + (f + after);
    CoversConcat(f, after, filters, later);
    SetsHold(body, before + d + among, a.overrides, f + after, filters + later, request);
    assert all == before + d + (among + (o + (f + after)));
    CoversConcat(o, f + after, overrides, filters + later);
    DefaultsHold(body, before, earlier, a.defaults, among, o + (f + after), overrides + (filters + later), request);
    forall path: string
      ensures Beside(path, filters + later) <==> Beside(path, filters) && Beside(path, later)
      ensures Beside(path, overrides + (filters + later)) <==>
              Beside(path, overrides) && Beside(path, filters) && Beside(path, later)
    {
      BesideBoth(path, filters, later);
      BesideBoth(path, overrides, filters + later);
    }
  }

  /** A rule whose mutations are apart from everything after them. */
  lemma {:induction false} RuleHolds(body: Json, before: seq<Mutation>, r: Rule, after: seq<Mutation>, request: Json)
    requires Valued(r.sets) && ApplyAll(Some(body), before + RuleMutations(r) + after) == Some(request)
    requires Unordered(RuleMutations(r)) && AllApart(after, RuleMutations(r))
    ensures forall p <- r.sets :: Held(request, p.path) == p.value
    ensures forall p <- r.deletes :: Held(request, p) == None
  {
    hide Apart, ApplyAll, Unordered, Segments, At, AllApart;
    var ms := RuleMutations(r);
    AllApartMeans(after, ms);
    forall p <- r.sets ensures Held(request, p.path) == p.value {
      var i :| 0 <= i < |r.sets| && r.sets[i] == p;
      assert ms[i] == SetMutation(p);
      BlockDecides(body, before, ms, after, ms[i], request);
    }
    forall p <- r.deletes ensures Held(request, p) == None {
      var i :| 0 <= i < |r.deletes| && r.deletes[i] == p;
      assert ms[|r.sets| + i] == DeleteAt(Segments(p));
      BlockDecides(body, before, ms, after, ms[|r.sets| + i], request);
    }
  }

  lemma {:induction false} AllApartMeans(a: seq<Mutation>, b: seq<Mutation>)
    requires AllApart(a, b)
    ensures forall m, n | m in a && n in b :: Apart(m.path, n.path)
  {
  }

  lemma {:induction false} RuleIsTheOne(rules: seq<Rule>, requested: string, r: Rule, request: Json)
    requires RulesOk(rules) && Selects(rules, requested, r)
    requires forall p <- r.sets :: Held(request, p.path) == p.value
    requires forall p <- r.deletes :: Held(request, p) == None
    ensures RulesHold(rules, requested, request)
  {
    hide RuleOk, Held;
    if requested != "" {
      ChosenIsARule(rules, requested);
    }
  }

  lemma {:induction false} RuleIsCovered(rules: seq<Rule>, requested: string, r: Rule)
    requires Selects(rules, requested, r) && Valued(r.sets)
    ensures Covers(RuleMutations(r), RequestedPaths(rules, requested))
  {
    hide Segments, Paths, Valued;
    if requested == "" {
      assert RuleMutations(r) == [];
    } else {
      ChosenIsARule(rules, requested);
      EmptyIsValued();
      MutationsFollow(Additional([], [], []), r);
      forall m <- RuleMutations(r) ensures exists p <- RequestedPaths(rules, requested) :: m.path == Segments(p) {
        var i :| 0 <= i < |RuleMutations(r)| && RuleMutations(r)[i] == m;
        assert RulePaths(r)[i] in RulePaths(r);
      }
    }
  }

  lemma {:induction false} AllApartSymmetric(a: seq<Mutation>, b: seq<Mutation>)
    requires AllApart(a, b)
    ensures AllApart(b, a)
  {
    hide Apart;
    forall m, n | m in b && n in a ensures Apart(m.path, n.path) {
      ApartIsSymmetric(m.path, n.path);
    }
  }

  lemma {:induction false} NothingIsApart(ms: seq<Mutation>)
    ensures AllApart(ms, []) && Covers([], {})
  {
  }

  /** The two rules of a request, given what comes before and after them. */
  lemma {:induction false} BothRulesHold(body: Json, before: seq<Mutation>, e: Rule, s: Rule, after: seq<Mutation>,
                                         request: Json)
    requires Valued(e.sets) && Valued(s.sets)
    requires ApplyAll(Some(body), before + (RuleMutations(e) + RuleMutations(s)) + after) == Some(request)
    requires Unordered(RuleMutations(e)) && Unordered(RuleMutations(s))
    requires AllApart(RuleMutations(e), RuleMutations(s))
    requires AllApart(after, RuleMutations(e)) && AllApart(after, RuleMutations(s))
    ensures forall p <- e.sets :: Held(request, p.path) == p.value
    ensures forall p <- e.deletes :: Held(request, p) == None
    ensures forall p <- s.sets :: Held(request, p.path) == p.value
    ensures forall p <- s.deletes :: Held(request, p) == None
  {
    hide ApplyAll, Unordered, AllApart, Held, RuleMutations, Valued;
    var es, ss := RuleMutations(e), RuleMutations(s);
    var all := before + (es + ss) + after;
    assert all == before + es + (ss + after) && all == (before + es) + ss + after;
    AllApartSymmetric(es, ss);
    ApartConcat(ss, after, es);
    RuleHolds(body, before, e, ss + after, request);
    RuleHolds(body, before + es, s, after, request);
  }

  predicate AllPlain(paths: set<string>) {
    forall p <- paths :: PathOk(p)
  }

  lemma {:induction false} AdditionalIsPlain(p: RequestProjection)
    requires Accepted(p)
    ensures AllPlain(AdditionalOwned(p.additional))
  {
    hide PathOk, Conflicts, Trim, Pairwise, ApartFrom, Owned, RulesOk, SetsApart;
    ParametersArePlain(p.additional.defaults);
    ParametersArePlain(p.additional.overrides);
  }

  lemma {:induction false} ParametersArePlain(parameters: seq<Parameter>)
    requires forall p <- parameters :: PlainPath(p.path)
    ensures forall path <- Paths(parameters) :: PathOk(path)
  {
    hide PathOk, Trim;
    forall path <- Paths(parameters) ensures PathOk(path) {
      var i :| 0 <= i < |Paths(parameters)| && Paths(parameters)[i] == path;
      assert parameters[i] in parameters;
    }
  }

  lemma {:induction false} RequestedArePlain(rules: seq<Rule>, requested: string)
    requires RulesOk(rules)
    ensures AllPlain(RequestedPaths(rules, requested))
  {
    hide PathOk, Trim, Pairwise;
    forall r <- rules ensures forall p <- RulePaths(r) :: PathOk(p) {
      assert RuleOk(r);
      ParametersArePlain(r.sets);
    }
  }

  /** What no mutation comes near stays; no plain path comes near a protected field. */
  lemma {:induction false} UncoveredIsKept(body: Json, ms: seq<Mutation>, changed: set<string>, request: Json)
    requires Covers(ms, changed) && AllPlain(changed) && ApplyAll(Some(body), ms) == Some(request)
    ensures RestIsKept(body, changed, request)
  {
    hide ApplyAll, At, Apart, Segments, Normalized;
    forall q | forall p <- changed :: Apart(Segments(p), q) ensures At(request, q) == At(body, q) {
      AllLeaveRest(body, ms, q);
    }
    forall root | Normalized(root) in PROTECTED ensures At(request, [root]) == At(body, [root]) {
      forall p <- changed ensures Apart(Segments(p), [root]) {
        FirstDiffers(Segments(p), root);
      }
    }
  }

  lemma {:induction false} FirstDiffers(path: Path, root: string)
    requires path != []
    ensures path[0] != root ==> Apart(path, [root])
  {
  }

  lemma {:induction false} ModelIsCovered(model: RequestProjection, effort: string, e: Rule, summary: string, s: Rule)
    requires AdditionalValued(model.additional) && Valued(e.sets) && Valued(s.sets)
    requires Selects(model.effort, effort, e) && Selects(model.summary, summary, s)
    ensures Covers(ModelMutations(model.additional, RuleMutations(e), RuleMutations(s)),
                   ModelPaths(model, effort, summary))
  {
    hide Covers, Defaults, Sets, Deletes, RuleMutations, Valued, Selects, RequestedPaths, AdditionalOwned;
    AdditionalIsCovered(model.additional);
    RuleIsCovered(model.effort, effort, e);
    RuleIsCovered(model.summary, summary, s);
    var a, es, ss := model.additional, RuleMutations(e), RuleMutations(s);
    CoversConcat(AdditionalMutations(a), es, AdditionalOwned(a), RequestedPaths(model.effort, effort));
    CoversConcat(AdditionalMutations(a) + es, ss, AdditionalOwned(a) + RequestedPaths(model.effort, effort),
                 RequestedPaths(model.summary, summary));
    SameMembersCovered(AdditionalMutations(a) + es + ss, ModelMutations(a, es, ss),
                       ModelPaths(model, effort, summary));
  }

  lemma {:induction false} SameMembersCovered(a: seq<Mutation>, b: seq<Mutation>, paths: set<string>)
    requires Covers(a, paths) && forall m <- b :: m in a
    ensures Covers(b, paths)
  {
    hide Segments;
  }

  /** The rule that a request without an error has selected. */
  lemma {:induction false} SomeRuleIsSelected(rules: seq<Rule>, requested: string) returns (r: Rule)
    requires RulesValued(rules) && ReasoningMutations(rules, requested).Some?
    ensures Selects(rules, requested, r)
  {
    r := if requested == "" then Rule("", [], []) else Chosen(rules, requested).value;
  }

  lemma {:induction false} ProjectedHolds(body: Json, provider: Additional, model: RequestProjection, effort: string,
                                          summary: string, request: Json)
    requires Projected(body, provider, model, effort, summary) == Some(request)
    ensures RequestHolds(body, provider, model, effort, summary, request)
  {
    hide Accepted, Selects, Valued, Defaults, RuleMutations, Sets, Deletes, ReasoningMutations, ApplyAll, Unordered,
      AllApart, RulesValued, Covers, AdditionalHolds, RulesHold, RestIsKept, Held, AdditionalOwned, ModelPaths,
      RulesOk, AllPlain;
    var own := RequestProjection([], [], provider);
    AcceptedIsValued(own);
    AcceptedIsValued(model);
    var e := SomeRuleIsSelected(model.effort, effort);
    var s := SomeRuleIsSelected(model.summary, summary);
    AcceptedIsIndependent(model, effort, e, summary, s);
    ListsAreUnordered(own);
    var es, ss := RuleMutations(e), RuleMutations(s);
    var d, o, f := Defaults(model.additional.defaults), Sets(model.additional.overrides),
      Deletes(model.additional.filters);
    var pm, mm := AdditionalMutations(provider), ModelMutations(model.additional, es, ss);
    AdditionalIsCovered(provider);
    ModelIsCovered(model, effort, e, summary, s);
    NothingIsApart(Defaults(provider.defaults));
    assert pm + mm == [] + (Defaults(provider.defaults) + [] + (Sets(provider.overrides) + Deletes(provider.filters)))
                      + mm;
    ListsHold(body, [], {}, provider, [], mm, ModelPaths(model, effort, summary), request);
    assert pm + mm == pm + (d + (es + ss) + (o + f)) + [];
    ApartConcat(d, es, ss);
    ListsHold(body, pm, AdditionalOwned(provider), model.additional, es + ss, [], {}, request);
    assert pm + mm == (pm + d) + (es + ss) + (o + f);
    ApartConcat(o, f, es);
    ApartConcat(o, f, ss);
    BothRulesHold(body, pm + d, e, s, o + f, request);
    AcceptedParts(model);
    RuleIsTheOne(model.effort, effort, e, request);
    RuleIsTheOne(model.summary, summary, s, request);
    CoversConcat(pm, mm, AdditionalOwned(provider), ModelPaths(model, effort, summary));
    ChangedArePlain(own, model, effort, summary);
    UncoveredIsKept(body, pm + mm, AdditionalOwned(provider) + ModelPaths(model, effort, summary), request);
  }

  lemma {:induction false} AcceptedParts(p: RequestProjection)
    requires Accepted(p)
    ensures RulesOk(p.effort) && RulesOk(p.summary)
  {
    hide RulesOk;
  }

  lemma {:induction false} ChangedArePlain(own: RequestProjection, model: RequestProjection, effort: string,
                                           summary: string)
    requires Accepted(own) && Accepted(model)
    ensures AllPlain(AdditionalOwned(own.additional) + ModelPaths(model, effort, summary))
  {
    hide PathOk, Accepted, AdditionalOwned, RequestedPaths, RulesOk;
    AcceptedParts(model);
    AdditionalIsPlain(own);
    AdditionalIsPlain(model);
    RequestedArePlain(model.effort, effort);
    RequestedArePlain(model.summary, summary);
  }
}
