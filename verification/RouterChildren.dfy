/** Child executions of router calls in the shared store: their keys, and replaying a round. */
module RouterChildren {
  import opened Text
  import opened ExecutionTypes
  import opened ExecutionStore
  import RouterRounds

  function ChildKey(digest: string -> string, parent: string, callId: string, round: nat): string {
    RouterRounds.ChildIdentifier(digest, "idempotency", parent, callId, round)
  }

  /** `id` is a child that a call of `parent` created in `round`. */
  predicate IsChild(s: StoreState, id: string, owner: string, digest: string -> string,
                    parent: string, callId: string, round: nat)
  {
    && id in s.records && s.records[id].owner == owner
    && s.records[id].idempotencyKey == ChildKey(digest, parent, callId, round)
  }

  /** One child for each parent, call and round: two children of an owner are the same execution
      exactly when they answer the same call of the same round of the same parent. */
  lemma {:induction false} OneChildPerCall(s: StoreState, owner: string, digest: string -> string,
                                           id1: string, parent1: string, call1: string, round1: nat,
                                           id2: string, parent2: string, call2: string, round2: nat)
    requires IndexExact(s) && forall a, b :: digest(a) == digest(b) ==> a == b
    requires NUL !in parent1 && NUL !in parent2
    requires IsChild(s, id1, owner, digest, parent1, call1, round1)
    requires IsChild(s, id2, owner, digest, parent2, call2, round2)
    ensures id1 == id2 <==> parent1 == parent2 && call1 == call2 && round1 == round2
  {
    RouterRounds.ChildIdentifiersDiffer(digest, "idempotency", parent1, call1, round1, parent2, call2, round2);
    if ChildKey(digest, parent1, call1, round1) == ChildKey(digest, parent2, call2, round2) {
      OneExecutionPerKey(s, id1, id2);
    }
  }

  /** Replaying a round after any interleaving of creates and saves: an equal child request is
      answered with the first child, a different one (a media call freezes a new input plan each
      time) with a conflict, and neither creates a second child or changes the store. */
  lemma {:induction false} ReplayedCallFindsItsChild(s: StoreState, ops: seq<Operation>, first: string,
                                                     digest: string -> string, parent: string, callId: string,
                                                     round: nat, again: Record, accepted: Event)
    requires LogsComplete(s) && IndexExact(s) && OwnersClean(s) && OrderlyRun(s, ops)
    requires NUL !in again.owner && RecordValid(again) && AcceptedStart(again, accepted)
    requires IsChild(s, first, again.owner, digest, parent, callId, round)
    requires again.idempotencyKey == ChildKey(digest, parent, callId, round)
    ensures first in Run(s, ops).records
    ensures Created(Run(s, ops), again, accepted) ==
            (Run(s, ops),
             if s.records[first].requestHash == again.requestHash
             then Ok(Admission(Run(s, ops).records[first], true)) else Err(IdempotencyConflict))
  {
    hide LogsComplete, IndexExact, OwnersClean, OrderlyRun, RecordValid, AcceptedStart, Created, Run;
    RunKeepsStore(s, ops);
    KeysAreNotEmpty(digest, parent, callId, round);
    CreateReplaysExactly(Run(s, ops), first, again, accepted);
  }

  lemma {:induction false} KeysAreNotEmpty(digest: string -> string, parent: string, callId: string, round: nat)
    ensures ChildKey(digest, parent, callId, round) != ""
  {
    assert ChildKey(digest, parent, callId, round)[0] == 'i';
  }

  /** providerDispatchIdempotencyKey: the execution itself, then one identity for each round. */
  function DispatchKey(digest: string -> string, r: Record): string {
    if r.completedRounds == 0 then r.id
    else RouterRounds.ChildIdentifier(digest, "parent_round", r.id, "", r.completedRounds)
  }

  /** Dispatches of one execution share their key exactly within a round: failover, retries and
      recovery repeat it, a completed round changes it. */
  lemma {:induction false} DispatchKeyNamesRound(digest: string -> string, a: Record, b: Record)
    requires forall x, y :: digest(x) == digest(y) ==> x == y
    requires a.id == b.id && "exe_" <= a.id && NUL !in a.id
    ensures DispatchKey(digest, a) == DispatchKey(digest, b) <==> a.completedRounds == b.completedRounds
  {
    RouterRounds.ChildIdentifiersDiffer(digest, "parent_round", a.id, "", a.completedRounds, b.id, "",
                                        b.completedRounds);
    assert a.id[0] == "exe_"[0] == 'e';
    assert DispatchKey(digest, a)[0] == if a.completedRounds == 0 then 'e' else 'p';
    assert DispatchKey(digest, b)[0] == if b.completedRounds == 0 then 'e' else 'p';
  }
}
