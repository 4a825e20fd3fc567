/** Dynamic catalog refreshes: last-good content, failures, and the tombstones of what is gone. */
module DynamicCatalog {
  import opened Text
  import opened CatalogStore

  const MODEL := "model"
  const SERVICE := "service"

  datatype Refresh = Refresh(
    provider: string, authority: string, codeAuthority: bool, sourceRevision: string, etag: string,
    refreshedAt: int, expiresAt: int, candidate: Option<Snapshot>, notModified: bool, failureCode: string)

  // ----- tombstones -----------------------------------------------------------------------

  predicate IsBuried(tombstones: seq<Tombstone>, kind: string, id: string) {
    exists t <- tombstones :: t.kind == kind && t.id == id
  }

  function Key(t: Tombstone): string {
    Joined(t.kind, t.id)
  }

  predicate KnownKinds(tombstones: seq<Tombstone>) {
    forall t <- tombstones :: t.kind == MODEL || t.kind == SERVICE
  }

  predicate Unique(tombstones: seq<Tombstone>) {
    forall i, j | 0 <= i < j < |tombstones| :: Key(tombstones[i]) != Key(tombstones[j])
  }

  function Live(s: Snapshot, kind: string): seq<string> {
    if kind == MODEL then s.models else s.services
  }

  function Tombstones(s: Snapshot): seq<Tombstone> {
    if s.dynamicMetadata.Some? then s.dynamicMetadata.value.tombstones else []
  }

  lemma {:induction false} KeysAreExact(a: Tombstone, b: Tombstone)
    requires (a.kind == MODEL || a.kind == SERVICE) && (b.kind == MODEL || b.kind == SERVICE)
    ensures Key(a) == Key(b) <==> a.kind == b.kind && a.id == b.id
  {
    assert MODEL[0] == 'm' && MODEL[1] == 'o' && MODEL[2] == 'd' && MODEL[3] == 'e' && MODEL[4] == 'l';
    assert SERVICE[0] == 's' && SERVICE[1] == 'e' && SERVICE[2] == 'r' && SERVICE[3] == 'v'
           && SERVICE[4] == 'i' && SERVICE[5] == 'c' && SERVICE[6] == 'e';
    JoinedInjective(a.kind, a.id, b.kind, b.id);
  }

  function KeysOf(tombstones: seq<Tombstone>): set<string> {
    set t | t in tombstones :: Key(t)
  }

  /** Bury what `before` holds and `next` does not, unless it is buried already. */
  method Bury(tombstones: seq<Tombstone>, seen0: set<string>, kind: string, before: seq<string>,
              next: seq<string>, removedAt: int)
    returns (r: seq<Tombstone>, seen: set<string>)
    requires KnownKinds(tombstones) && Unique(tombstones) && seen0 == KeysOf(tombstones)
    requires kind == MODEL || kind == SERVICE
    ensures KnownKinds(r) && Unique(r) && seen == KeysOf(r)
    ensures tombstones <= r
    ensures forall i | |tombstones| <= i < |r| ::
              r[i].kind == kind && r[i].removedAt == removedAt && r[i].id in before && r[i].id !in next
    ensures forall id <- before :: id in next || IsBuried(r, kind, id)
  {
    hide Joined;
    r, seen := tombstones, seen0;
    var nextIds := set id | id in next;
    for k := 0 to |before|
      invariant KnownKinds(r) && Unique(r) && seen == KeysOf(r) && tombstones <= r
      invariant forall i | |tombstones| <= i < |r| ::
                  r[i].kind == kind && r[i].removedAt == removedAt && r[i].id in before && r[i].id !in next
      invariant forall j | 0 <= j < k :: before[j] in next || IsBuried(r, kind, before[j])
    {
      var t := Tombstone(kind, before[k], removedAt);
      if t.id in nextIds {
        continue;
      }
      if Key(t) in seen {
        ghost var same :| same in r && Key(same) == Key(t);
        KeysAreExact(same, t);
        continue;
      }
      ghost var earlier := r;
      assert forall e <- earlier :: Key(e) != Key(t);
      r, seen := r + [t], seen + {Key(t)};
      assert r[|earlier|] == t;
      forall j | 0 <= j < k && before[j] !in next ensures IsBuried(r, kind, before[j]) {
        var b :| b in earlier && b.kind == kind && b.id == before[j];
        assert b in r;
      }
      assert t in r;
    }
  }

  /** dynamicTombstones: earlier removals first, then the models and services that are gone. */
  method DynamicTombstones(previous: Snapshot, next: Snapshot, removedAt: int) returns (r: seq<Tombstone>)
    requires KnownKinds(Tombstones(previous)) && Unique(Tombstones(previous))
    ensures Conserved(previous, next, r, removedAt)
  {
    hide Key;
    var models, seen := Bury(Tombstones(previous), KeysOf(Tombstones(previous)), MODEL, previous.models,
                             next.models, removedAt);
    r, seen := Bury(models, seen, SERVICE, previous.services, next.services, removedAt);
    forall id <- previous.models ensures id in next.models || IsBuried(r, MODEL, id) {
      if id !in next.models {
        var t :| t in models && t.kind == MODEL && t.id == id;
        assert t in r;
      }
    }
    forall i | |Tombstones(previous)| <= i < |r| ensures Removed(previous, next, r[i], removedAt) {
      if i < |models| {
        assert r[i] == models[i];
      }
    }
  }

  predicate Removed(previous: Snapshot, next: Snapshot, t: Tombstone, removedAt: int) {
    && (t.kind == MODEL || t.kind == SERVICE) && t.removedAt == removedAt
    && t.id in Live(previous, t.kind) && t.id !in Live(next, t.kind)
  }

  /** `tombstones` keeps the earlier ones as they are, in front and with their first removal time,
      adds exactly what was removed now, and repeats nothing. */
  ghost predicate Conserved(previous: Snapshot, next: Snapshot, tombstones: seq<Tombstone>, removedAt: int) {
    && Tombstones(previous) <= tombstones && Unique(tombstones) && KnownKinds(tombstones)
    && (forall i | |Tombstones(previous)| <= i < |tombstones| ::
          Removed(previous, next, tombstones[i], removedAt))
    && (forall id <- previous.models :: id in next.models || IsBuried(tombstones, MODEL, id))
    && (forall id <- previous.services :: id in next.services || IsBuried(tombstones, SERVICE, id))
  }

  // ----- one refresh ----------------------------------------------------------------------

  /** The zero snapshot that stands for a provider without one. */
  const NOTHING := Snapshot("", 0, 0, [], [], None, "")

  function Previous(current: Option<Snapshot>): Snapshot {
    if current.Some? then current.value else NOTHING
  }

  /** Exactly one of a candidate, an unmodified source and a failure. */
  predicate OneOutcome(r: Refresh) {
    || (r.candidate.Some? && !r.notModified && Blank(r.failureCode))
    || (r.candidate.None? && r.notModified && Blank(r.failureCode))
    || (r.candidate.None? && !r.notModified && !Blank(r.failureCode))
  }

  predicate KeepsContent(r: Refresh) {
    r.notModified || r.failureCode != ""
  }

  predicate WellFormed(r: Refresh) {
    !Blank(r.provider) && r.refreshedAt != 0 && !r.codeAuthority && OneOutcome(r)
  }

  /** When a refresh can be prepared from what was read. */
  predicate Preparable(current: Option<Snapshot>, r: Refresh) {
    && WellFormed(r)
    && if KeepsContent(r) then current.Some? && current.value.dynamicMetadata.Some?
       else
         && r.candidate.value.provider == r.provider && !Blank(r.sourceRevision)
         && r.refreshedAt < r.expiresAt
  }

  /** Last-good content under new metadata: an unmodified source is fresh, a failed one stale. */
  function Kept(current: Snapshot, r: Refresh): Snapshot
    requires current.dynamicMetadata.Some?
  {
    var d := current.dynamicMetadata.value;
    if r.notModified then
      current.(revision := current.revision + 1, observedAt := r.refreshedAt,
               dynamicMetadata := Some(d.(refreshedAt := r.refreshedAt, status := Fresh, failureCode := "",
                                  expiresAt := r.expiresAt,
                                  etag := if Blank(r.etag) then d.etag else Trim(r.etag))))
    else
      current.(revision := current.revision + 1,
               dynamicMetadata := Some(d.(refreshedAt := r.refreshedAt, status := Stale,
                                  failureCode := Trim(r.failureCode))))
  }

  /** The replacement by a discovered candidate that carries `tombstones`. */
  function Replacement(current: Option<Snapshot>, r: Refresh, tombstones: seq<Tombstone>): Snapshot
    requires r.candidate.Some?
  {
    r.candidate.value.(
      revision := Previous(current).revision + 1, observedAt := r.refreshedAt,
      dynamicMetadata := Some(Dynamic(r.authority, Trim(r.sourceRevision), Trim(r.etag), r.refreshedAt,
                              r.expiresAt, Fresh, "", tombstones)))
  }

  ghost predicate PreparedFrom(current: Option<Snapshot>, r: Refresh, s: Snapshot) {
    && Preparable(current, r)
    && if KeepsContent(r) then s == Kept(current.value, r)
       else
         && s.dynamicMetadata.Some?
         && s == Replacement(current, r, Tombstones(s))
         && Conserved(Previous(current), r.candidate.value, Tombstones(s), r.refreshedAt)
  }

  // ----- the outcome of a refresh, field by field -----------------------------------------

  predicate SameContent(a: Snapshot, b: Snapshot) {
    a.provider == b.provider && a.models == b.models && a.services == b.services && a.content == b.content
  }

  predicate SameSource(a: Dynamic, b: Dynamic) {
    a.authority == b.authority && a.sourceRevision == b.sourceRevision && a.tombstones == b.tombstones
  }

  /** A failed refresh: what was good stays, marked stale. */
  predicate MarksStale(before: Snapshot, r: Refresh, after: Snapshot) {
    && before.dynamicMetadata.Some? && after.dynamicMetadata.Some?
    && SameContent(before, after) && after.revision == before.revision + 1 && after.observedAt == before.observedAt
    && var d, e := before.dynamicMetadata.value, after.dynamicMetadata.value;
       && e.status == Stale && e.failureCode == Trim(r.failureCode) && e.refreshedAt == r.refreshedAt
       && SameSource(d, e) && e.etag == d.etag && e.expiresAt == d.expiresAt
  }

  /** An unmodified source: what was good is fresh again. */
  predicate ConfirmsFresh(before: Snapshot, r: Refresh, after: Snapshot) {
    && before.dynamicMetadata.Some? && after.dynamicMetadata.Some?
    && SameContent(before, after) && after.revision == before.revision + 1 && after.observedAt == r.refreshedAt
    && var d, e := before.dynamicMetadata.value, after.dynamicMetadata.value;
       && e.status == Fresh && e.failureCode == "" && e.refreshedAt == r.refreshedAt && e.expiresAt == r.expiresAt
       && SameSource(d, e) && (Blank(r.etag) ==> e.etag == d.etag) && (!Blank(r.etag) ==> e.etag == Trim(r.etag))
  }

  /** A discovered candidate takes the place of what was there. */
  ghost predicate Replaces(before: Option<Snapshot>, r: Refresh, after: Snapshot) {
    && r.candidate.Some? && after.dynamicMetadata.Some?
    && SameContent(r.candidate.value, after) && after.provider == r.provider && after.observedAt == r.refreshedAt
    && (before.None? ==> after.revision == 1)
    && (before.Some? ==> after.revision == before.value.revision + 1)
    && var e := after.dynamicMetadata.value;
       && e.status == Fresh && e.failureCode == "" && e.refreshedAt == r.refreshedAt && e.expiresAt == r.expiresAt
       && e.authority == r.authority && e.sourceRevision == Trim(r.sourceRevision) && e.etag == Trim(r.etag)
       && Conserved(Previous(before), r.candidate.value, e.tombstones, r.refreshedAt)
  }

  /** An unmodified source goes first, then any failure code that is not empty; a candidate counts only
      without one. */
  ghost predicate Refreshed(before: Option<Snapshot>, r: Refresh, after: Snapshot) {
    if r.notModified then before.Some? && ConfirmsFresh(before.value, r, after)
    else if r.failureCode != "" then before.Some? && MarksStale(before.value, r, after)
    else Replaces(before, r, after)
  }

  lemma {:induction false} NoCodeIsBlank(r: Refresh)
    ensures r.failureCode == "" ==> Blank(r.failureCode)
  {
  }

  lemma {:induction false} PreparedMeans(before: Option<Snapshot>, r: Refresh, after: Snapshot)
    requires PreparedFrom(before, r, after)
    ensures Refreshed(before, r, after)
  {
    hide Trim, Blank, Conserved;
    NoCodeIsBlank(r);
  }

  function Stored(s: State, provider: string): Option<Snapshot> {
    if provider in s.snapshots then Some(s.snapshots[provider]) else None
  }

  predicate Sound(current: Option<Snapshot>) {
    KnownKinds(Tombstones(Previous(current))) && Unique(Tombstones(Previous(current)))
  }

  /** Everything ApplyDynamicRefresh does between its read and its write. */
  method Prepare(current: Option<Snapshot>, r: Refresh) returns (result: Result<Snapshot, CatalogError>)
    requires Sound(current)
    ensures result.Ok? <==> Preparable(current, r)
    ensures result.Ok? ==> PreparedFrom(current, r, result.value)
    ensures result.Ok? ==> Refreshed(current, r, result.value)
    ensures result.Ok? <==>
              && !Blank(r.provider) && r.refreshedAt != 0 && !r.codeAuthority && OneOutcome(r)
              && (r.notModified || r.failureCode != "" ==> current.Some? && current.value.dynamicMetadata.Some?)
              && (!r.notModified && r.failureCode == "" ==>
                    && r.candidate.value.provider == r.provider && !Blank(r.sourceRevision)
                    && r.refreshedAt < r.expiresAt)
  {
    hide Conserved, Trim, Blank, Refreshed;
    BlankIsTrimmedAway(r.provider);
    BlankIsTrimmedAway(r.failureCode);
    BlankIsTrimmedAway(r.sourceRevision);
    if Trim(r.provider) == "" || r.refreshedAt == 0 || r.codeAuthority {
      return Err(InvalidCatalog);
    }
    var outcomes := 0;
    if r.candidate.Some? {
      outcomes := outcomes + 1;
    }
    if r.notModified {
      outcomes := outcomes + 1;
    }
    if Trim(r.failureCode) != "" {
      outcomes := outcomes + 1;
    }
    if outcomes != 1 {
      return Err(InvalidCatalog);
    }
    if r.notModified || r.failureCode != "" {
      if current.None? || current.value.dynamicMetadata.None? {
        return Err(SnapshotNotFound);
      }
      PreparedMeans(current, r, Kept(current.value, r));
      return Ok(Kept(current.value, r));
    }
    NoCodeIsBlank(r);
    var candidate := r.candidate.value;
    if candidate.provider != r.provider || Trim(r.sourceRevision) == "" || !(r.refreshedAt < r.expiresAt) {
      return Err(InvalidCatalog);
    }
    var tombstones := DynamicTombstones(Previous(current), candidate, r.refreshedAt);
    PreparedMeans(current, r, Replacement(current, r, tombstones));
    return Ok(Replacement(current, r, tombstones));
  }

  /** ApplyDynamicRefresh without other writers in between. A refresh that fails changes nothing. */
  method ApplyDynamicRefresh(store: MemoryStore, r: Refresh) returns (result: Result<Snapshot, CatalogError>)
    requires Sound(Stored(store.Value(), r.provider))
    modifies store
    ensures result.Ok? ==>
              && PreparedFrom(Stored(old(store.Value()), r.provider), r, result.value)
              && Refreshed(Stored(old(store.Value()), r.provider), r, result.value)
              && SaveAccepted(old(store.Value()), result.value, store.validates(result.value))
              && store.Value() == Saved(old(store.Value()), result.value, true)
              && Stored(store.Value(), result.value.provider) == Some(result.value)
    ensures result.Err? ==> store.Value() == old(store.Value())
    ensures !Preparable(Stored(old(store.Value()), r.provider), r) ==> result.Err?
    ensures result.Err? && Preparable(Stored(old(store.Value()), r.provider), r) ==>
              exists s :: && PreparedFrom(Stored(old(store.Value()), r.provider), r, s)
                          && !SaveAccepted(old(store.Value()), s, store.validates(s))
  {
    hide Preparable, Conserved, Sound, Kept, Replacement, Refreshed;
    var current := store.Get(r.provider);
    var prepared := Prepare(if current.Ok? then Some(current.value) else None, r);
    if prepared.Err? {
      return prepared;
    }
    var ok := store.Save(prepared.value);
    if !ok {
      return Err(InvalidCatalog);
    }
    return prepared;
  }

  /** The validator's rule for the status: a stale catalog names its failure, a fresh one has none. */
  predicate StatusIsConsistent(d: Dynamic) {
    d.status == Stale <==> d.failureCode != ""
  }

  /** What a refresh prepares obeys this rule unless its failure code is only white space and its source is
      not unmodified: then the candidate is left aside and the stale catalog would have no code, so that
      the validator refuses it. */
  lemma {:induction false} StatusIsConsistentIff(before: Option<Snapshot>, r: Refresh, after: Snapshot)
    requires PreparedFrom(before, r, after)
    ensures after.dynamicMetadata.Some?
    ensures StatusIsConsistent(after.dynamicMetadata.value) <==>
            r.notModified || r.failureCode == "" || !Blank(r.failureCode)
  {
    hide PreparedFrom, Trim, Blank, Conserved;
    PreparedMeans(before, r, after);
    BlankIsTrimmedAway(r.failureCode);
  }

  // ----- concurrent refreshers ------------------------------------------------------------

  /** The store, the versions of the provider's snapshot since it was last deleted or saved outside a
      refresh, what each refresher has read, and which of them have read since then. */
  datatype System = System(store: State, versions: seq<Snapshot>, hands: map<nat, Option<Snapshot>>, era: set<nat>)

  /** A refresher reads, or writes what it prepared from its last read; other providers change; the
      provider itself is deleted or saved outside a refresh. */
  datatype Step =
    | Read(refresher: nat)
    | Commit(refresher: nat, refresh: Refresh, prepared: Snapshot, valid: bool)
    | Other(write: Write)
    | Own(write: Write)

  predicate Elsewhere(w: Write, provider: string) {
    match w
    case Save(snapshot, _) => snapshot.provider != provider
    case Delete(p) => p != provider
  }

  ghost predicate Enabled(s: System, provider: string, step: Step) {
    match step
    case Read(_) => true
    case Commit(w, r, prepared, valid) =>
      && w in s.hands && r.provider == provider && PreparedFrom(s.hands[w], r, prepared)
      && (s.hands[w].Some? ==> s.hands[w].value.provider == provider)
    case Other(write) => Elsewhere(write, provider)
    case Own(write) => !Elsewhere(write, provider) && Validated(write)
  }

  /** The snapshot validator refuses revision zero, unknown kinds and repeated tombstones. */
  ghost predicate Validated(w: Write) {
    w.Save? && w.valid ==> w.snapshot.revision >= 1 && Sound(Some(w.snapshot))
  }

  function Take(s: System, provider: string, step: Step): System {
    match step
    case Read(w) => s.(hands := s.hands[w := Stored(s.store, provider)], era := s.era + {w})
    case Commit(_, _, prepared, valid) =>
      s.(store := Saved(s.store, prepared, valid),
         versions := if SaveAccepted(s.store, prepared, valid) then s.versions + [prepared] else s.versions)
    case Other(write) => s.(store := Written(s.store, write))
    case Own(write) =>
      var store := Written(s.store, write);
      if store == s.store then s
      else System(store, if Stored(store, provider).Some? then [Stored(store, provider).value] else [], s.hands, {})
  }

  /** A refresh that commits has read since the provider was last deleted or saved outside a refresh. */
  predicate FromThisEra(s: System, step: Step) {
    step.Commit? && SaveAccepted(s.store, step.prepared, step.valid) ==> step.refresher in s.era
  }

  /** The latest version is stored, versions have rising positive revisions, hands hold versions. */
  ghost predicate Tracked(s: System, provider: string) {
    && (if s.versions == [] then provider !in s.store.snapshots
        else provider in s.store.snapshots && s.store.snapshots[provider] == s.versions[|s.versions| - 1])
    && (forall i | 0 <= i < |s.versions| :: s.versions[i].provider == provider && s.versions[i].revision >= 1)
    && (forall i, j | 0 <= i < j < |s.versions| :: s.versions[i].revision < s.versions[j].revision)
    && (forall w <- s.era :: w in s.hands && (s.hands[w].Some? ==> s.hands[w].value in s.versions))
  }

  /** Nothing published is forgotten: whatever an earlier version listed is live or buried in a later
      one, and its tombstones are a prefix of the later ones. */
  ghost predicate Remembers(earlier: Snapshot, later: Snapshot) {
    && Tombstones(earlier) <= Tombstones(later)
    && (forall id <- earlier.models :: id in later.models || IsBuried(Tombstones(later), MODEL, id))
    && (forall id <- earlier.services :: id in later.services || IsBuried(Tombstones(later), SERVICE, id))
  }

  ghost predicate AllRemembered(versions: seq<Snapshot>) {
    && (forall i, j | 0 <= i <= j < |versions| :: Remembers(versions[i], versions[j]))
    && (forall i | 0 <= i < |versions| :: Sound(Some(versions[i])))
  }

  lemma {:induction false} PreparedRemembers(current: Option<Snapshot>, r: Refresh, s: Snapshot)
    requires PreparedFrom(current, r, s) && Sound(current)
    ensures Remembers(Previous(current), s) && Sound(Some(s))
    ensures s.revision == Previous(current).revision + 1
    ensures current.Some? && current.value.provider == r.provider ==> s.provider == r.provider
    ensures current.None? ==> s.provider == r.provider
  {
    hide Trim, Blank, Key;
  }

  lemma {:induction false} BuriedStays(a: seq<Tombstone>, b: seq<Tombstone>, kind: string, id: string)
    requires a <= b && IsBuried(a, kind, id)
    ensures IsBuried(b, kind, id)
  {
    var t :| t in a && t.kind == kind && t.id == id;
    assert t in b;
  }

  lemma {:induction false} RemembersIsTransitive(a: Snapshot, b: Snapshot, c: Snapshot)
    requires Remembers(a, b) && Remembers(b, c)
    ensures Remembers(a, c)
  {
    hide IsBuried;
    forall kind, id | IsBuried(Tombstones(b), kind, id) ensures IsBuried(Tombstones(c), kind, id) {
      BuriedStays(Tombstones(b), Tombstones(c), kind, id);
    }
  }

  lemma {:induction false} RemembersItself(a: Snapshot)
    ensures Remembers(a, a)
  {
  }

  /** A commit goes through only from the current version: of two refreshes that start from one
      version, at most one is stored. */
  lemma {:induction false} CommitNeedsCurrent(s: System, provider: string, w: nat, r: Refresh,
                                              prepared: Snapshot, valid: bool)
    requires Tracked(s, provider) && AllRemembered(s.versions) && w in s.era
    requires Enabled(s, provider, Commit(w, r, prepared, valid)) && SaveAccepted(s.store, prepared, valid)
    ensures s.hands[w] == Stored(s.store, provider)
    ensures prepared.provider == provider
  {
    hide Conserved, Remembers, Kept, Replacement, Preparable;
    var base := s.hands[w];
    BaseIsSound(s, provider, w);
    PreparedRemembers(base, r, prepared);
    if base.Some? {
      var i :| 0 <= i < |s.versions| && s.versions[i] == base.value;
      assert s.versions[i].revision <= s.versions[|s.versions| - 1].revision;
    }
  }

  lemma {:induction false} BaseIsSound(s: System, provider: string, w: nat)
    requires Tracked(s, provider) && AllRemembered(s.versions) && w in s.era
    ensures Sound(s.hands[w])
  {
    hide Remembers, Key;
    if s.hands[w].Some? {
      var i :| 0 <= i < |s.versions| && s.versions[i] == s.hands[w].value;
      assert Sound(Some(s.versions[i]));
    }
  }

  lemma {:induction false} AppendIsRemembered(versions: seq<Snapshot>, next: Snapshot)
    requires AllRemembered(versions) && Sound(Some(next))
    requires versions != [] ==> Remembers(versions[|versions| - 1], next)
    ensures AllRemembered(versions + [next])
  {
    hide Remembers, Sound;
    var all, n := versions + [next], |versions|;
    forall i, j | 0 <= i <= j < |all| ensures Remembers(all[i], all[j]) {
      if j < n {
        assert Remembers(versions[i], versions[j]);
      } else if i == n {
        RemembersItself(next);
      } else {
        assert Remembers(versions[i], versions[n - 1]);
        RemembersIsTransitive(versions[i], versions[n - 1], next);
      }
    }
  }

  lemma {:induction false} OwnWriteStartsEra(s: System, provider: string, write: Write)
    requires Tracked(s, provider) && AllRemembered(s.versions) && Enabled(s, provider, Own(write))
    ensures Tracked(Take(s, provider, Own(write)), provider)
    ensures AllRemembered(Take(s, provider, Own(write)).versions)
  {
    hide Remembers, Sound;
    var t := Take(s, provider, Own(write));
    if t != s && t.versions != [] {
      RemembersItself(t.versions[0]);
    }
  }

  lemma {:induction false} CommitKeepsTombstones(s: System, provider: string, w: nat, r: Refresh,
                                                 prepared: Snapshot, valid: bool)
    requires Tracked(s, provider) && AllRemembered(s.versions) && w in s.era
    requires Enabled(s, provider, Commit(w, r, prepared, valid)) && SaveAccepted(s.store, prepared, valid)
    ensures var t := Take(s, provider, Commit(w, r, prepared, valid));
            && Tracked(t, provider) && AllRemembered(t.versions) && s.versions <= t.versions
  {
    hide Remembers, Sound, Conserved, PreparedFrom, AllRemembered;
    CommitNeedsCurrent(s, provider, w, r, prepared, valid);
    BaseIsSound(s, provider, w);
    PreparedRemembers(s.hands[w], r, prepared);
    AppendIsRemembered(s.versions, prepared);
  }

  lemma {:induction false} StepKeepsTombstones(s: System, provider: string, step: Step)
    requires Tracked(s, provider) && AllRemembered(s.versions) && Enabled(s, provider, step)
    requires FromThisEra(s, step)
    ensures Tracked(Take(s, provider, step), provider) && AllRemembered(Take(s, provider, step).versions)
    ensures !step.Own? ==> s.versions <= Take(s, provider, step).versions
  {
    hide AllRemembered, PreparedFrom, Validated;
    if step.Own? {
      OwnWriteStartsEra(s, provider, step.write);
    } else if step.Commit? && SaveAccepted(s.store, step.prepared, step.valid) {
      CommitKeepsTombstones(s, provider, step.refresher, step.refresh, step.prepared, step.valid);
    }
  }

  ghost predicate IsRun(systems: seq<System>, provider: string, steps: seq<Step>) {
    && |systems| == |steps| + 1
    && systems[0].versions == [] && systems[0].hands == map[] && systems[0].era == {}
    && provider !in systems[0].store.snapshots
    && forall k | 0 <= k < |steps| ::
         Enabled(systems[k], provider, steps[k]) && systems[k + 1] == Take(systems[k], provider, steps[k])
  }

  ghost predicate AllFromTheirEra(systems: seq<System>, steps: seq<Step>)
    requires |systems| == |steps| + 1
  {
    forall k | 0 <= k < |steps| :: FromThisEra(systems[k], steps[k])
  }

  /** Without deletes and saves outside refreshes every commit is from its era. */
  lemma {:induction false} RefreshersStayInTheirEra(systems: seq<System>, provider: string, steps: seq<Step>, k: nat)
    requires IsRun(systems, provider, steps) && k <= |steps|
    requires forall i | 0 <= i < |steps| :: !steps[i].Own?
    ensures systems[k].era == systems[k].hands.Keys
    ensures k < |steps| ==> FromThisEra(systems[k], steps[k])
  {
    hide PreparedFrom;
    if k > 0 {
      RefreshersStayInTheirEra(systems, provider, steps, k - 1);
      assert Enabled(systems[k - 1], provider, steps[k - 1]);
    }
  }

  lemma {:induction false} RunKeepsTombstones(systems: seq<System>, provider: string, steps: seq<Step>, k: nat)
    requires IsRun(systems, provider, steps) && AllFromTheirEra(systems, steps) && k <= |steps|
    ensures Tracked(systems[k], provider) && AllRemembered(systems[k].versions)
  {
    hide Take, Enabled, Tracked, AllRemembered, FromThisEra;
    if k == 0 {
      StartIsTracked(systems[0], provider);
    } else {
      RunKeepsTombstones(systems, provider, steps, k - 1);
      StepKeepsTombstones(systems[k - 1], provider, steps[k - 1]);
    }
  }

  lemma {:induction false} StartIsTracked(s: System, provider: string)
    requires s.versions == [] && s.era == {} && provider !in s.store.snapshots
    ensures Tracked(s, provider) && AllRemembered(s.versions)
  {
  }

  /** Conservation over every run of concurrent refreshers, from one delete or save outside a refresh to the
      next: whatever any version of the catalog has listed since then is listed or buried in the stored
      snapshot, no tombstone is lost, moved or changed, and none is there twice. */
  lemma {:induction false} NothingPublishedIsForgotten(systems: seq<System>, provider: string, steps: seq<Step>,
                                                       v: nat, kind: string, id: string)
    requires IsRun(systems, provider, steps) && AllFromTheirEra(systems, steps)
    requires v < |systems[|steps|].versions| && (kind == MODEL || kind == SERVICE)
    ensures provider in systems[|steps|].store.snapshots
    ensures var earlier, now := systems[|steps|].versions[v], systems[|steps|].store.snapshots[provider];
            && (id in Live(earlier, kind) ==> id in Live(now, kind) || IsBuried(Tombstones(now), kind, id))
            && Tombstones(earlier) <= Tombstones(now) && Unique(Tombstones(now))
  {
    hide Key;
    RunKeepsTombstones(systems, provider, steps, |steps|);
    var versions := systems[|steps|].versions;
    assert Remembers(versions[v], versions[|versions| - 1]);
    assert Sound(Some(versions[|versions| - 1]));
    KindsDiffer();
  }

  // ----- stale or fresh -------------------------------------------------------------------

  ghost predicate Commits(s: System, step: Step) {
    step.Commit? && SaveAccepted(s.store, step.prepared, step.valid)
  }

  /** The stored snapshot is what the last committed refresh prepared, as long as nothing else has written
      it: it is stale, with the trimmed code, if and only if that refresh brought a failure code and did not
      say that its source is unmodified. */
  lemma {:induction false} StaleIffLastRefreshFailed(systems: seq<System>, provider: string, steps: seq<Step>,
                                                     k: nat, n: nat)
    requires IsRun(systems, provider, steps) && k < n <= |steps| && Commits(systems[k], steps[k])
    requires forall i | k < i < n :: !Commits(systems[i], steps[i])
    requires forall i | k < i < n && steps[i].Own? :: systems[i + 1] == systems[i]
    ensures Stored(systems[n].store, provider) == Some(steps[k].prepared)
    ensures steps[k].prepared.dynamicMetadata.Some?
    ensures var metadata, r := steps[k].prepared.dynamicMetadata.value, steps[k].refresh;
            && (metadata.status == Stale <==> !r.notModified && r.failureCode != "")
            && metadata.failureCode == (if metadata.status == Stale then Trim(r.failureCode) else "")
            && metadata.refreshedAt == r.refreshedAt
  {
    hide PreparedFrom, Trim, Blank;
    assert Enabled(systems[k], provider, steps[k]);
    if n == k + 1 {
      var step := steps[k];
      PreparedRevision(systems[k].hands[step.refresher], step.refresh, step.prepared);
      PreparedMeans(systems[k].hands[step.refresher], step.refresh, step.prepared);
    } else {
      StaleIffLastRefreshFailed(systems, provider, steps, k, n - 1);
      assert Enabled(systems[n - 1], provider, steps[n - 1]);
      assert systems[n] == Take(systems[n - 1], provider, steps[n - 1]);
    }
  }

  lemma {:induction false} KindsDiffer()
    ensures MODEL != SERVICE
  {
    assert MODEL[0] != SERVICE[0];
  }

  lemma {:induction false} PreparedRevision(current: Option<Snapshot>, r: Refresh, s: Snapshot)
    requires PreparedFrom(current, r, s)
    ensures s.revision == Previous(current).revision + 1
    ensures (current.Some? ==> current.value.provider == r.provider) ==> s.provider == r.provider
  {
    hide Trim, Blank, Conserved;
  }

  /** Of two refreshers that have read the same version, at most one commits, whatever happened since. */
  lemma {:induction false} OneOfTwoCommits(s: System, provider: string, v: nat, w: nat, r1: Refresh, r2: Refresh,
                                           p1: Snapshot, p2: Snapshot)
    requires v != w && v in s.hands && w in s.hands && s.hands[v] == s.hands[w]
    requires Enabled(s, provider, Commit(v, r1, p1, true)) && Enabled(s, provider, Commit(w, r2, p2, true))
    requires SaveAccepted(s.store, p1, true)
    ensures !SaveAccepted(Take(s, provider, Commit(v, r1, p1, true)).store, p2, true)
  {
    hide PreparedFrom;
    PreparedRevision(s.hands[v], r1, p1);
    PreparedRevision(s.hands[w], r2, p2);
  }

  /** A refresh buries nothing but what its base had buried or listed. */
  lemma {:induction false} OnlyTheRemovedAreBuried(current: Option<Snapshot>, r: Refresh, s: Snapshot, t: Tombstone)
    requires PreparedFrom(current, r, s) && t in Tombstones(s)
    ensures t in Tombstones(Previous(current)) || t.id in Live(Previous(current), t.kind)
  {
    hide Trim, Key;
    var i :| 0 <= i < |Tombstones(s)| && Tombstones(s)[i] == t;
    if i < |Tombstones(Previous(current))| {
      assert Tombstones(Previous(current))[i] == t;
    }
  }

  /** A delete forgets: the next refresh finds nothing and starts without a tombstone. */
  lemma {:induction false} DeleteForgetsTombstones(s: System, provider: string, r: Refresh, prepared: Snapshot)
    requires r.provider == provider
    requires var t := Take(s, provider, Own(Delete(provider)));
             PreparedFrom(Stored(t.store, provider), r, prepared)
    requires provider in s.store.snapshots
    ensures Stored(Take(s, provider, Own(Delete(provider))).store, provider) == None
    ensures Tombstones(prepared) == []
  {
    hide PreparedFrom;
    if Tombstones(prepared) != [] {
      OnlyTheRemovedAreBuried(None, r, prepared, Tombstones(prepared)[0]);
    }
  }

  /** And the guard is needed: a refresh that was read before the delete and commits after others have
      published forgets what only they have listed. */
  lemma {:induction false} OlderCommitForgets(s: System, provider: string, w: nat, r: Refresh, prepared: Snapshot,
                                              id: string)
    requires Enabled(s, provider, Commit(w, r, prepared, true)) && SaveAccepted(s.store, prepared, true)
    requires provider in s.store.snapshots && id in s.store.snapshots[provider].models
    requires s.hands[w].Some? && id !in s.hands[w].value.models && id !in prepared.models
    requires !IsBuried(Tombstones(s.hands[w].value), MODEL, id)
    ensures var t := Take(s, provider, Commit(w, r, prepared, true));
            && t.store.snapshots[provider] == prepared
            && !IsBuried(Tombstones(prepared), MODEL, id)
  {
    hide PreparedFrom;
    PreparedRevision(s.hands[w], r, prepared);
    if IsBuried(Tombstones(prepared), MODEL, id) {
      var t :| t in Tombstones(prepared) && t.kind == MODEL && t.id == id;
      OnlyTheRemovedAreBuried(s.hands[w], r, prepared, t);
    }
  }

  /** A returning identifier stays buried: the live and the buried identifiers need not be disjoint. */
  lemma {:induction false} ReturningIdStaysBuried(previous: Snapshot, next: Snapshot, tombstones: seq<Tombstone>,
                                                  removedAt: int, id: string)
    requires Conserved(previous, next, tombstones, removedAt)
    requires IsBuried(Tombstones(previous), MODEL, id) && id in next.models
    ensures id in next.models && IsBuried(tombstones, MODEL, id)
  {
    hide Key;
    BuriedStays(Tombstones(previous), tombstones, MODEL, id);
  }
}
