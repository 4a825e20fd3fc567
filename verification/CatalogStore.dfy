/** The catalog store: one snapshot per provider, and the global change log that replicas page. */
module CatalogStore {
  import opened Text

  datatype Tombstone = Tombstone(kind: string, id: string, removedAt: int)

  datatype RefreshStatus = Fresh | Stale

  datatype Dynamic = Dynamic(
    authority: string, sourceRevision: string, etag: string, refreshedAt: int, expiresAt: int,
    status: RefreshStatus, failureCode: string, tombstones: seq<Tombstone>)

  /** One provider's catalog. `content` stands for what the store does not look at. */
  datatype Snapshot = Snapshot(
    provider: string, revision: nat, observedAt: int, models: seq<string>, services: seq<string>,
    dynamicMetadata: Option<Dynamic>, content: string)

  datatype Change = Change(
    globalRevision: nat, provider: string, providerRevision: nat, upsert: bool, observedAt: int,
    tombstones: seq<Tombstone>)

  datatype CatalogError = InvalidCatalog | SnapshotNotFound

  datatype ChangePage = ChangePage(currentRevision: nat, changes: seq<Change>)

  /** The value of the three fields that the mutex protects. */
  datatype State = State(snapshots: map<string, Snapshot>, globalRevision: nat, changes: seq<Change>)

  const EmptyState := State(map[], 0, [])

  function ChangeFromSnapshot(s: Snapshot, globalRevision: nat): Change {
    Change(globalRevision, s.provider, s.revision, true, s.observedAt,
           if s.dynamicMetadata.Some? then s.dynamicMetadata.value.tombstones else [])
  }

  /** What a replica learns about a stored snapshot. */
  predicate ShowsSnapshot(c: Change, s: Snapshot) {
    && c.provider == s.provider && c.providerRevision == s.revision && c.observedAt == s.observedAt
    && (s.dynamicMetadata.Some? ==> c.tombstones == s.dynamicMetadata.value.tombstones)
    && (s.dynamicMetadata.None? ==> c.tombstones == [])
  }

  /** A save goes through if the snapshot is valid and newer than the stored one. */
  predicate SaveAccepted(s: State, snapshot: Snapshot, valid: bool) {
    && valid
    && (snapshot.provider in s.snapshots ==> s.snapshots[snapshot.provider].revision < snapshot.revision)
  }

  function Saved(s: State, snapshot: Snapshot, valid: bool): State {
    if SaveAccepted(s, snapshot, valid) then
      State(s.snapshots[snapshot.provider := snapshot], s.globalRevision + 1,
            s.changes + [ChangeFromSnapshot(snapshot, s.globalRevision + 1)])
    else s
  }

  function Deleted(s: State, provider: string): State {
    if provider in s.snapshots then
      var snapshot := s.snapshots[provider];
      State(s.snapshots - {provider}, s.globalRevision + 1,
            s.changes + [Change(s.globalRevision + 1, provider, snapshot.revision, false,
                                snapshot.observedAt, [])])
    else s
  }

  /** The changes strictly after a revision, at most `limit` of them. */
  function PageAfter(changes: seq<Change>, after: nat, limit: nat): seq<Change> {
    if changes == [] || limit == 0 then []
    else if changes[0].globalRevision <= after then PageAfter(changes[1..], after, limit)
    else [changes[0]] + PageAfter(changes[1..], after, limit - 1)
  }

  lemma {:induction false} PageEnds(changes: seq<Change>, after: nat)
    ensures PageAfter(changes, after, 0) == []
  {
  }

  lemma {:induction false} PageStep(changes: seq<Change>, after: nat, limit: nat)
    ensures changes == [] ==> PageAfter(changes, after, limit) == []
    ensures changes != [] && limit > 0 ==>
              PageAfter(changes, after, limit) ==
              if changes[0].globalRevision <= after then PageAfter(changes[1..], after, limit)
              else [changes[0]] + PageAfter(changes[1..], after, limit - 1)
  {
  }

  class MemoryStore {
    var snapshots: map<string, Snapshot>
    var globalRevision: nat
    var changes: seq<Change>
    const validates: Snapshot -> bool

    function Value(): State
      reads this
    {
      State(snapshots, globalRevision, changes)
    }

    constructor (validates: Snapshot -> bool)
      ensures Value() == EmptyState && this.validates == validates
    {
      this.validates := validates;
      snapshots, globalRevision, changes := map[], 0, [];
    }

    method Save(snapshot: Snapshot) returns (ok: bool)
      modifies this
      ensures Value() == Saved(old(Value()), snapshot, validates(snapshot))
      ensures ok == SaveAccepted(old(Value()), snapshot, validates(snapshot))
      ensures ok <==>
                validates(snapshot)
                && (snapshot.provider in old(snapshots) ==>
                      old(snapshots)[snapshot.provider].revision < snapshot.revision)
      ensures !ok ==> unchanged(this)
      ensures ok ==>
                && snapshots == old(snapshots)[snapshot.provider := snapshot]
                && globalRevision == old(globalRevision) + 1
                && exists c :: changes == old(changes) + [c] && c.upsert && c.globalRevision == globalRevision
                               && ShowsSnapshot(c, snapshot)
    {
      if !validates(snapshot) {
        return false;
      }
      if snapshot.provider in snapshots && snapshot.revision <= snapshots[snapshot.provider].revision {
        return false;
      }
      snapshots := snapshots[snapshot.provider := snapshot];
      globalRevision := globalRevision + 1;
      changes := changes + [ChangeFromSnapshot(snapshot, globalRevision)];
      assert ShowsSnapshot(ChangeFromSnapshot(snapshot, globalRevision), snapshot);
      return true;
    }

    method Delete(provider: string) returns (ok: bool)
      modifies this
      ensures Value() == Deleted(old(Value()), provider) && ok == (provider in old(snapshots))
      ensures !ok ==> unchanged(this)
      ensures ok ==>
                && snapshots == old(snapshots) - {provider} && globalRevision == old(globalRevision) + 1
                && changes == old(changes)
                              + [Change(globalRevision, provider, old(snapshots)[provider].revision, false,
                                        old(snapshots)[provider].observedAt, [])]
    {
      if provider !in snapshots {
        return false;
      }
      var snapshot := snapshots[provider];
      snapshots := snapshots - {provider};
      globalRevision := globalRevision + 1;
      changes := changes + [Change(globalRevision, provider, snapshot.revision, false,
                                   snapshot.observedAt, [])];
      return true;
    }

    method ListChanges(after: nat, limit: int) returns (r: Result<ChangePage, CatalogError>)
      ensures r == if 0 < limit <= 1000
                   then Ok(ChangePage(globalRevision, PageAfter(changes, after, limit)))
                   else Err(InvalidCatalog)
    {
      hide PageAfter;
      if limit <= 0 || limit > 1000 {
        return Err(InvalidCatalog);
      }
      var page: seq<Change> := [];
      assert changes[0..] == changes && [] + PageAfter(changes, after, limit) == PageAfter(changes, after, limit);
      for i := 0 to |changes|
        invariant |page| < limit
        invariant PageAfter(changes, after, limit) == page + PageAfter(changes[i..], after, limit - |page|)
      {
        PageStep(changes[i..], after, limit - |page|);
        assert changes[i..][0] == changes[i] && changes[i..][1..] == changes[i + 1..];
        if changes[i].globalRevision <= after {
          continue;
        }
        ghost var rest := PageAfter(changes[i + 1..], after, limit - |page| - 1);
        assert page + ([changes[i]] + rest) == (page + [changes[i]]) + rest;
        page := page + [changes[i]];
        if |page| == limit {
          PageEnds(changes[i + 1..], after);
          assert page + rest == page;
          return Ok(ChangePage(globalRevision, page));
        }
      }
      PageStep(changes[|changes|..], after, limit - |page|);
      assert changes[|changes|..] == [] && page + [] == page;
      return Ok(ChangePage(globalRevision, page));
    }

    method Get(provider: string) returns (r: Result<Snapshot, CatalogError>)
      ensures r == if provider in snapshots then Ok(snapshots[provider]) else Err(SnapshotNotFound)
    {
      if provider !in snapshots {
        return Err(SnapshotNotFound);
      }
      return Ok(snapshots[provider]);
    }
  }

  // ----- what every run of writers keeps --------------------------------------------------

  /** What a replica makes of the log: the latest revision of every provider that is there. */
  function Replayed(changes: seq<Change>): map<string, nat> {
    if changes == [] then map[]
    else
      var earlier, last := Replayed(changes[..|changes| - 1]), changes[|changes| - 1];
      if last.upsert then earlier[last.provider := last.providerRevision] else earlier - {last.provider}
  }

  function Revisions(snapshots: map<string, Snapshot>): map<string, nat> {
    map p | p in snapshots :: snapshots[p].revision
  }

  predicate Ordered(changes: seq<Change>) {
    forall i | 0 <= i < |changes| :: changes[i].globalRevision == i + 1
  }

  /** Change i puts the provider's revision there and no later one up to j takes it away. */
  predicate Lives(changes: seq<Change>, i: nat, j: nat, provider: string)
    requires i <= j <= |changes|
  {
    && i < j && changes[i].upsert && changes[i].provider == provider
    && forall k | i < k < j :: changes[k].upsert || changes[k].provider != provider
  }

  /** Between deletes the revisions of a provider strictly increase. */
  ghost predicate Increasing(changes: seq<Change>) {
    forall i, j | 0 <= i < j < |changes| && Lives(changes, i, j, changes[j].provider) && changes[j].upsert ::
      changes[i].providerRevision < changes[j].providerRevision
  }

  ghost predicate Consistent(s: State) {
    && |s.changes| == s.globalRevision && Ordered(s.changes)
    && Replayed(s.changes) == Revisions(s.snapshots)
    && Increasing(s.changes)
    && forall p | p in s.snapshots :: s.snapshots[p].provider == p
  }

  datatype Write = Save(snapshot: Snapshot, valid: bool) | Delete(provider: string)

  function Written(s: State, w: Write): State {
    match w
    case Save(snapshot, valid) => Saved(s, snapshot, valid)
    case Delete(provider) => Deleted(s, provider)
  }

  function Run(s: State, ws: seq<Write>): State {
    if ws == [] then s else Written(Run(s, ws[..|ws| - 1]), ws[|ws| - 1])
  }

  /** A change that lives to the end of the log is at most what a replica holds. */
  lemma {:induction false} LivingIsReplayed(changes: seq<Change>, i: nat, provider: string)
    requires i <= |changes| && Lives(changes, i, |changes|, provider) && Increasing(changes)
    ensures provider in Replayed(changes)
    ensures changes[i].providerRevision <= Replayed(changes)[provider]
  {
    var n := |changes| - 1;
    var earlier := changes[..n];
    if i < n {
      forall a, b | 0 <= a < b < n && Lives(earlier, a, b, earlier[b].provider) && earlier[b].upsert
        ensures earlier[a].providerRevision < earlier[b].providerRevision
      {
        assert Lives(changes, a, b, changes[b].provider);
      }
      assert Lives(earlier, i, n, provider);
      LivingIsReplayed(earlier, i, provider);
      if changes[n].provider == provider {
        assert Lives(changes, i, n, changes[n].provider);
      }
    }
  }

  /** A new change keeps the order as long as it is newer than what a replica holds. */
  lemma {:induction false} IncreasingAppend(changes: seq<Change>, c: Change)
    requires Increasing(changes)
    requires c.upsert && c.provider in Replayed(changes) ==> Replayed(changes)[c.provider] < c.providerRevision
    ensures Increasing(changes + [c])
  {
    var all := changes + [c];
    forall i, j | 0 <= i < j < |all| && Lives(all, i, j, all[j].provider) && all[j].upsert
      ensures all[i].providerRevision < all[j].providerRevision
    {
      forall k | i <= k < j ensures all[k] == changes[k] {
      }
      assert Lives(changes, i, j, all[j].provider);
      if j == |changes| {
        LivingIsReplayed(changes, i, c.provider);
      }
    }
  }

  /** A change that shows what it stores or removes keeps the log and the store together. */
  lemma {:induction false} ChangeKeepsConsistent(s: State, t: State, c: Change)
    requires Consistent(s) && t.changes == s.changes + [c]
    requires t.globalRevision == s.globalRevision + 1 == c.globalRevision
    requires c.upsert && c.provider in s.snapshots ==> s.snapshots[c.provider].revision < c.providerRevision
    requires Revisions(t.snapshots) ==
             if c.upsert then Revisions(s.snapshots)[c.provider := c.providerRevision]
             else Revisions(s.snapshots) - {c.provider}
    requires forall p | p in t.snapshots :: t.snapshots[p].provider == p
    ensures Consistent(t)
  {
    hide Increasing;
    assert t.changes[..|s.changes|] == s.changes;
    RevisionsAre(s.snapshots);
    IncreasingAppend(s.changes, c);
  }

  lemma {:induction false} RevisionsAre(snapshots: map<string, Snapshot>)
    ensures forall p :: p in Revisions(snapshots) <==> p in snapshots
    ensures forall p | p in snapshots :: Revisions(snapshots)[p] == snapshots[p].revision
  {
  }

  lemma {:induction false} SaveKeepsConsistent(s: State, snapshot: Snapshot, valid: bool)
    requires Consistent(s)
    ensures Consistent(Saved(s, snapshot, valid)) && s.changes <= Saved(s, snapshot, valid).changes
  {
    hide Consistent;
    var t := Saved(s, snapshot, valid);
    if SaveAccepted(s, snapshot, valid) {
      ConsistentKeys(s);
      RevisionsAre(s.snapshots);
      RevisionsAre(t.snapshots);
      assert Revisions(t.snapshots) == Revisions(s.snapshots)[snapshot.provider := snapshot.revision];
      ChangeKeepsConsistent(s, t, t.changes[|s.changes|]);
    }
  }

  lemma {:induction false} DeleteKeepsConsistent(s: State, provider: string)
    requires Consistent(s)
    ensures Consistent(Deleted(s, provider)) && s.changes <= Deleted(s, provider).changes
  {
    hide Consistent;
    var t := Deleted(s, provider);
    if provider in s.snapshots {
      ConsistentKeys(s);
      RevisionsAre(s.snapshots);
      RevisionsAre(t.snapshots);
      assert Revisions(t.snapshots) == Revisions(s.snapshots) - {provider};
      ChangeKeepsConsistent(s, t, t.changes[|s.changes|]);
    }
  }

  lemma {:induction false} WriteKeepsConsistent(s: State, w: Write)
    requires Consistent(s)
    ensures Consistent(Written(s, w)) && s.changes <= Written(s, w).changes
  {
    hide Consistent;
    match w
    case Save(snapshot, valid) => SaveKeepsConsistent(s, snapshot, valid);
    case Delete(provider) => DeleteKeepsConsistent(s, provider);
  }

  /** Every run of saves and deletes, accepted or not: the log numbers its changes 1, 2, 3, ... and
      only grows, replaying it gives exactly the stored revisions, and between deletes the revisions
      of each provider strictly increase. */
  lemma {:induction false} RunKeepsConsistent(ws: seq<Write>, k: nat)
    requires k <= |ws|
    ensures Consistent(Run(EmptyState, ws)) && Consistent(Run(EmptyState, ws[..k]))
    ensures Run(EmptyState, ws[..k]).changes <= Run(EmptyState, ws).changes
  {
    hide Consistent, Written;
    if ws == [] {
      EmptyIsConsistent();
    } else {
      var shorter := ws[..|ws| - 1];
      RunKeepsConsistent(shorter, if k < |ws| then k else 0);
      WriteKeepsConsistent(Run(EmptyState, shorter), ws[|ws| - 1]);
      if k < |ws| {
        assert shorter[..k] == ws[..k];
      } else {
        assert ws[..k] == ws;
      }
    }
  }

  lemma {:induction false} EmptyIsConsistent()
    ensures Consistent(EmptyState)
  {
  }

  // ----- the last change of a provider ----------------------------------------------------

  predicate LastOf(changes: seq<Change>, i: nat, provider: string) {
    && i < |changes| && changes[i].provider == provider
    && forall k | i < k < |changes| :: changes[k].provider != provider
  }

  /** The last change of every provider shows what is stored: an upsert with the revision, time and
      tombstones of the stored snapshot, or a removal. */
  ghost predicate LogShowsStore(s: State) {
    && (forall p <- s.snapshots :: exists i: nat :: LastOf(s.changes, i, p))
    && (forall i: nat, p | LastOf(s.changes, i, p) ::
          && (s.changes[i].upsert <==> p in s.snapshots)
          && (p in s.snapshots ==> ShowsSnapshot(s.changes[i], s.snapshots[p])))
  }

  lemma {:induction false} LastOfAppend(changes: seq<Change>, c: Change)
    ensures forall i: nat, p :: LastOf(changes + [c], i, p) <==>
                           (if p == c.provider then i == |changes| else LastOf(changes, i, p))
  {
    var all := changes + [c];
    forall i: nat, p ensures LastOf(all, i, p) <==> if p == c.provider then i == |changes| else LastOf(changes, i, p) {
      assert all[|changes|] == c && forall k | 0 <= k < |changes| :: all[k] == changes[k];
    }
  }

  lemma {:induction false} WriteKeepsLog(s: State, w: Write)
    requires LogShowsStore(s) && forall p | p in s.snapshots :: s.snapshots[p].provider == p
    ensures LogShowsStore(Written(s, w))
  {
    hide LastOf;
    var t := Written(s, w);
    if t != s {
      var c := t.changes[|s.changes|];
      assert t.changes == s.changes + [c];
      LastOfAppend(s.changes, c);
      forall p <- t.snapshots ensures exists i: nat :: LastOf(t.changes, i, p) {
        if p == c.provider {
          assert LastOf(t.changes, |s.changes|, p);
        } else {
          var i: nat :| LastOf(s.changes, i, p);
          assert LastOf(t.changes, i, p);
        }
      }
      LastOfIsThere(s.changes);
    }
  }

  lemma {:induction false} LastOfIsThere(changes: seq<Change>)
    ensures forall i: nat, p :: LastOf(changes, i, p) ==> i < |changes| && changes[i].provider == p
  {
  }

  /** In every run of writers. */
  lemma {:induction false} RunKeepsLog(ws: seq<Write>)
    ensures LogShowsStore(Run(EmptyState, ws))
  {
    hide Written, LogShowsStore, Consistent;
    if ws == [] {
      EmptyLog();
    } else {
      var shorter := ws[..|ws| - 1];
      RunKeepsLog(shorter);
      RunKeepsConsistent(shorter, 0);
      ConsistentKeys(Run(EmptyState, shorter));
      WriteKeepsLog(Run(EmptyState, shorter), ws[|ws| - 1]);
    }
  }

  lemma {:induction false} EmptyLog()
    ensures LogShowsStore(EmptyState)
  {
  }

  lemma {:induction false} ConsistentKeys(s: State)
    requires Consistent(s)
    ensures forall p | p in s.snapshots :: s.snapshots[p].provider == p
    ensures |s.changes| == s.globalRevision
  {
    hide Replayed, Increasing;
  }

  // ----- replicas -------------------------------------------------------------------------

  function Least(a: nat, b: nat): nat {
    if a <= b then a else b
  }

  /** On an ordered log a page is a slice. */
  lemma {:induction false} PageIsSlice(changes: seq<Change>, first: nat, after: nat, limit: nat)
    requires forall i | 0 <= i < |changes| :: changes[i].globalRevision == first + i + 1
    requires first <= after
    ensures PageAfter(changes, after, limit) ==
            if after - first >= |changes| then []
            else changes[after - first..Least(after - first + limit, |changes|)]
  {
    if changes != [] && limit > 0 {
      if first < after {
        PageIsSlice(changes[1..], first + 1, after, limit);
      } else {
        PageTakesFirst(changes, first, limit);
      }
    }
  }

  lemma {:induction false} PageTakesFirst(changes: seq<Change>, first: nat, limit: nat)
    requires forall i | 0 <= i < |changes| :: changes[i].globalRevision == first + i + 1
    ensures forall after: nat | after <= first ::
              PageAfter(changes, after, limit) == changes[..Least(limit, |changes|)]
  {
    if changes != [] && limit > 0 {
      PageTakesFirst(changes[1..], first + 1, limit - 1);
      var n := Least(limit - 1, |changes| - 1);
      assert changes[..n + 1] == [changes[0]] + changes[1..][..n];
    }
  }

  /** One turn of a replica: other writers work, then it asks for the next page. */
  datatype Turn = Turn(writes: seq<Write>, limit: nat)

  /** The store and what the replica has received, after the turns, from a cursor on. */
  function Paged(turns: seq<Turn>, start: nat): (State, seq<Change>) {
    if turns == [] then (EmptyState, [])
    else
      var (s, received) := Paged(turns[..|turns| - 1], start);
      var last := turns[|turns| - 1];
      var t := RunFrom(s, last.writes);
      var cursor := if received == [] then start else received[|received| - 1].globalRevision;
      (t, received + PageAfter(t.changes, cursor, last.limit))
  }

  function RunFrom(s: State, ws: seq<Write>): State
    decreases |ws|
  {
    if ws == [] then s else RunFrom(Written(s, ws[0]), ws[1..])
  }

  lemma {:induction false} RunFromKeepsConsistent(s: State, ws: seq<Write>)
    requires Consistent(s)
    ensures Consistent(RunFrom(s, ws)) && s.changes <= RunFrom(s, ws).changes
    decreases |ws|
  {
    hide Consistent, Written;
    if ws != [] {
      WriteKeepsConsistent(s, ws[0]);
      RunFromKeepsConsistent(Written(s, ws[0]), ws[1..]);
    }
  }

  /** Whatever the limits and whatever is written in between, from any cursor a replica receives a
      slice of the final log: every change after its cursor once and in order. */
  lemma {:induction false} PagingDeliversSlice(turns: seq<Turn>, start: nat)
    ensures var (s, received) := Paged(turns, start);
            && Consistent(s)
            && (start >= |s.changes| ==> received == [])
            && (start < |s.changes| ==>
                  start + |received| <= |s.changes|
                  && received == s.changes[start..start + |received|])
  {
    hide Consistent, Written, Replayed, PageAfter;
    if turns == [] {
      EmptyIsConsistent();
    } else {
      var shorter, last := turns[..|turns| - 1], turns[|turns| - 1];
      PagingDeliversSlice(shorter, start);
      var (s, received) := Paged(shorter, start);
      RunFromKeepsConsistent(s, last.writes);
      var t := RunFrom(s, last.writes);
      NextPage(s, t, received, start, last.limit);
    }
  }

  lemma {:induction false} OrderedLog(s: State)
    requires Consistent(s)
    ensures Ordered(s.changes)
  {
    hide Replayed, Increasing;
  }

  lemma {:induction false} NextPage(s: State, t: State, received: seq<Change>, start: nat, limit: nat)
    requires Consistent(s) && Consistent(t) && s.changes <= t.changes
    requires start >= |s.changes| ==> received == []
    requires start < |s.changes| ==>
               start + |received| <= |s.changes| && received == s.changes[start..start + |received|]
    ensures var cursor := if received == [] then start else received[|received| - 1].globalRevision;
            var page := PageAfter(t.changes, cursor, limit);
            && cursor == start + |received|
            && (start >= |t.changes| ==> page == [])
            && (start < |t.changes| ==>
                  start + |received + page| <= |t.changes|
                  && received + page == t.changes[start..start + |received + page|])
            && (|page| < limit ==> cursor + |page| >= |t.changes|)
  {
    hide Consistent, PageAfter;
    OrderedLog(s);
    OrderedLog(t);
    var cursor := start + |received|;
    if received != [] {
      assert received[|received| - 1] == s.changes[cursor - 1];
    }
    PageIsSlice(t.changes, 0, cursor, limit);
    if cursor < |t.changes| {
      assert received == t.changes[start..cursor];
      SlicesJoin(t.changes, start, cursor, Least(cursor + limit, |t.changes|));
    }
  }

  /** A replica that starts from nothing and receives a short page has caught up: what it has received
      is the whole log, and folding it gives exactly the store's revisions. */
  lemma {:induction false} ShortPageMeansCaughtUp(turns: seq<Turn>, last: Turn)
    requires var received := Paged(turns, 0).1;
             |Paged(turns + [last], 0).1| - |received| < last.limit
    ensures var (s, received) := Paged(turns + [last], 0);
            received == s.changes && Replayed(received) == Revisions(s.snapshots)
  {
    hide Written, Replayed, Increasing;
    assert (turns + [last])[..|turns|] == turns;
    PagingDeliversSlice(turns, 0);
    PagingDeliversSlice(turns + [last], 0);
    var (s, received) := Paged(turns, 0);
    RunFromKeepsConsistent(s, last.writes);
    NextPage(s, RunFrom(s, last.writes), received, 0, last.limit);
  }
}
