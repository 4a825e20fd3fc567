/** The publication part of the catalog validator: models, offerings, operation policies, profiles. */
module PolicyValidation {
  import opened Text

  /** In every record `valid` is the verdict of its own validator on fields that are not modelled. */
  datatype Model = Model(id: string, provider: string, valid: bool)

  datatype Offering = Offering(id: string, provider: string, modelId: string, valid: bool)

  datatype Policy = Policy(
    id: string, provider: string, modelId: string, offeringId: string, operation: string,
    supported: bool, valid: bool)

  /** A profile belongs to a model offering, or to a service offering if `offeringId` is empty. */
  datatype Profile = Profile(
    id: string, provider: string, offeringId: string, serviceOfferingId: string, operation: string,
    isDefault: bool, valid: bool)

  /** `services` gives each accepted service offering the operation of its service. */
  datatype Snapshot = Snapshot(
    provider: string, models: seq<Model>, offerings: seq<Offering>, policies: seq<Policy>,
    services: map<string, string>, profiles: seq<Profile>)

  // Catalog identifiers match [a-z][a-z0-9_.-]*: they are not empty and hold no NUL.

  predicate OfferingOk(o: Offering) {
    o.valid && o.id != "" && NUL !in o.id
  }

  predicate PolicyOk(p: Policy) {
    p.valid && NUL !in p.offeringId
  }

  predicate ProfileOk(p: Profile) {
    p.valid && NUL !in p.offeringId && NUL !in p.serviceOfferingId
  }

  function PolicyKey(offeringId: string, operation: string): string {
    Joined(offeringId, operation)
  }

  function SubjectKey(p: Profile): string {
    if p.offeringId != "" then Joined("model", p.offeringId) else Joined("service", p.serviceOfferingId)
  }

  // ----- what the validator is meant to accept --------------------------------------------

  predicate KnownModel(s: Snapshot, id: string) {
    exists m <- s.models :: m.id == id
  }

  predicate ModelsAccepted(s: Snapshot) {
    && (forall m <- s.models :: m.valid && m.provider == s.provider)
    && (forall i, j | 0 <= i < j < |s.models| :: s.models[i].id != s.models[j].id)
  }

  predicate OfferingsAccepted(s: Snapshot) {
    && (forall o <- s.offerings :: OfferingOk(o) && o.provider == s.provider && KnownModel(s, o.modelId))
    && (forall i, j | 0 <= i < j < |s.offerings| :: s.offerings[i].id != s.offerings[j].id)
  }

  /** The policy names an offering of the snapshot, and the model that this offering offers. */
  predicate PolicyRefers(s: Snapshot, p: Policy) {
    exists o <- s.offerings :: o.id == p.offeringId && o.modelId == p.modelId
  }

  /** Two policies with different identifiers that decide different operations. */
  predicate DifferentPolicies(p: Policy, q: Policy) {
    p.id != q.id && (p.offeringId != q.offeringId || p.operation != q.operation)
  }

  predicate PoliciesAccepted(s: Snapshot) {
    && (forall p <- s.policies ::
          PolicyOk(p) && p.provider == s.provider && KnownModel(s, p.modelId) && PolicyRefers(s, p))
    && (forall i, j | 0 <= i < j < |s.policies| :: DifferentPolicies(s.policies[i], s.policies[j]))
  }

  predicate Supports(policy: Policy, offeringId: string, operation: string) {
    policy.supported && policy.offeringId == offeringId && policy.operation == operation
  }

  predicate KnownOffering(s: Snapshot, id: string) {
    exists o <- s.offerings :: o.id == id
  }

  /** A model profile needs a supported policy once the snapshot has any policy. */
  predicate ProfileRefers(s: Snapshot, p: Profile) {
    if p.offeringId != "" then
      && KnownOffering(s, p.offeringId)
      && (s.policies != [] ==> exists q <- s.policies :: Supports(q, p.offeringId, p.operation))
    else
      p.serviceOfferingId in s.services && s.services[p.serviceOfferingId] == p.operation
  }

  predicate SameSubject(p: Profile, q: Profile) {
    if p.offeringId != "" then q.offeringId == p.offeringId
    else q.offeringId == "" && q.serviceOfferingId == p.serviceOfferingId
  }

  predicate CompatibleProfiles(p: Profile, q: Profile) {
    p.id != q.id && !(p.isDefault && q.isDefault && SameSubject(p, q))
  }

  predicate ProfilesAccepted(s: Snapshot) {
    && (forall p <- s.profiles :: ProfileOk(p) && p.provider == s.provider && ProfileRefers(s, p))
    && (forall i, j | 0 <= i < j < |s.profiles| :: CompatibleProfiles(s.profiles[i], s.profiles[j]))
  }

  predicate HasDefault(s: Snapshot, offeringId: string) {
    exists p <- s.profiles :: p.isDefault && p.offeringId != "" && p.offeringId == offeringId
  }

  predicate HasServiceDefault(s: Snapshot, serviceOfferingId: string) {
    exists p <- s.profiles :: p.isDefault && p.offeringId == "" && p.serviceOfferingId == serviceOfferingId
  }

  predicate HasProfile(s: Snapshot, policy: Policy) {
    exists p <- s.profiles :: p.offeringId != "" && p.offeringId == policy.offeringId && p.operation == policy.operation
  }

  predicate HasPolicy(s: Snapshot, offeringId: string) {
    exists q <- s.policies :: q.offeringId == offeringId
  }

  predicate Publishes(s: Snapshot, offeringId: string) {
    exists q <- s.policies :: q.supported && q.offeringId == offeringId
  }

  /** Without policies every offering is published; with them, those that have a supported one, and
      each supported policy has a profile. What is published has a default profile. */
  predicate OfferingPublished(s: Snapshot, o: Offering) {
    if s.policies == [] then HasDefault(s, o.id)
    else
      && HasPolicy(s, o.id)
      && (forall q <- s.policies :: q.supported && q.offeringId == o.id ==> HasProfile(s, q))
      && (Publishes(s, o.id) ==> HasDefault(s, o.id))
  }

  predicate Accepted(s: Snapshot) {
    && ModelsAccepted(s) && OfferingsAccepted(s) && PoliciesAccepted(s) && ProfilesAccepted(s)
    && (forall o <- s.offerings :: OfferingPublished(s, o))
    && (forall id | id in s.services :: HasServiceDefault(s, id))
  }

  // ----- the loops ------------------------------------------------------------------------

  method ValidateModels(s: Snapshot) returns (ok: bool, known: set<string>)
    ensures ok <==> ModelsAccepted(s)
    ensures ok ==> forall id :: id in known <==> KnownModel(s, id)
  {
    known := {};
    for i := 0 to |s.models|
      invariant forall k | 0 <= k < i :: s.models[k].valid && s.models[k].provider == s.provider
      invariant known == set k | 0 <= k < i :: s.models[k].id
      invariant forall k, l | 0 <= k < l < i :: s.models[k].id != s.models[l].id
    {
      var m := s.models[i];
      assert m in s.models;
      if !m.valid || m.provider != s.provider || m.id in known {
        return false, known;
      }
      known := known + {m.id};
    }
    forall id ensures id in known <==> KnownModel(s, id) {
      if KnownModel(s, id) {
        var m :| m in s.models && m.id == id;
        var k :| 0 <= k < |s.models| && s.models[k] == m;
      }
    }
    ok := true;
  }

  /** What the offering loop has checked so far, and the map it fills. */
  ghost predicate OfferingsSoFar(s: Snapshot, n: nat, known: map<string, Offering>)
    requires n <= |s.offerings|
  {
    && (forall k | 0 <= k < n ::
          && OfferingOk(s.offerings[k]) && s.offerings[k].provider == s.provider
          && KnownModel(s, s.offerings[k].modelId)
          && s.offerings[k].id in known && known[s.offerings[k].id] == s.offerings[k])
    && (forall id | id in known :: exists k | 0 <= k < n :: s.offerings[k].id == id)
    && (forall k, l | 0 <= k < l < n :: s.offerings[k].id != s.offerings[l].id)
  }

  lemma {:induction false} NextOffering(s: Snapshot, n: nat, known: map<string, Offering>)
    requires n < |s.offerings| && OfferingsSoFar(s, n, known)
    ensures var o := s.offerings[n];
            if OfferingOk(o) && o.provider == s.provider && KnownModel(s, o.modelId) && o.id !in known
            then OfferingsSoFar(s, n + 1, known[o.id := o]) else !OfferingsAccepted(s)
  {
    hide OfferingOk, KnownModel;
    var o := s.offerings[n];
    assert o in s.offerings;
    if o.id in known {
      var k :| 0 <= k < n && s.offerings[k].id == o.id;
    }
  }

  lemma {:induction false} AllOfferings(s: Snapshot, known: map<string, Offering>)
    requires OfferingsSoFar(s, |s.offerings|, known)
    ensures OfferingsAccepted(s) && Indexes(s, known)
  {
    hide OfferingOk, KnownModel;
    forall o <- s.offerings
      ensures OfferingOk(o) && o.provider == s.provider && KnownModel(s, o.modelId)
      ensures o.id in known && known[o.id] == o
    {
      var k :| 0 <= k < |s.offerings| && s.offerings[k] == o;
    }
    forall id | id in known ensures known[id] in s.offerings && known[id].id == id {
      var k :| 0 <= k < |s.offerings| && s.offerings[k].id == id;
    }
  }

  lemma {:induction false} NoOfferings(s: Snapshot)
    ensures OfferingsSoFar(s, 0, map[])
  {
  }

  method ValidateOfferings(s: Snapshot, models: set<string>) returns (ok: bool, known: map<string, Offering>)
    requires forall id :: id in models <==> KnownModel(s, id)
    ensures ok <==> OfferingsAccepted(s)
    ensures ok ==> Indexes(s, known)
  {
    hide KnownModel, OfferingOk, OfferingsSoFar, OfferingsAccepted, Indexes;
    known := map[];
    NoOfferings(s);
    for i := 0 to |s.offerings|
      invariant OfferingsSoFar(s, i, known)
    {
      var o := s.offerings[i];
      NextOffering(s, i, known);
      if !OfferingOk(o) || o.provider != s.provider || o.modelId !in models || o.id in known {
        return false, known;
      }
      known := known[o.id := o];
    }
    AllOfferings(s, known);
    ok := true;
  }

  /** The map of the accepted offerings. */
  ghost predicate Indexes(s: Snapshot, known: map<string, Offering>) {
    && (forall id :: id in known <==> KnownOffering(s, id))
    && (forall id | id in known :: known[id] in s.offerings && known[id].id == id)
  }

  lemma {:induction false} RefersThroughIndex(s: Snapshot, known: map<string, Offering>, p: Policy)
    requires OfferingsAccepted(s) && Indexes(s, known)
    ensures PolicyRefers(s, p) <==> p.offeringId in known && known[p.offeringId].modelId == p.modelId
  {
    hide OfferingOk, KnownModel;
    if PolicyRefers(s, p) {
      var o :| o in s.offerings && o.id == p.offeringId && o.modelId == p.modelId;
      assert KnownOffering(s, p.offeringId);
      var k :| 0 <= k < |s.offerings| && s.offerings[k] == o;
      var l :| 0 <= l < |s.offerings| && s.offerings[l] == known[p.offeringId];
      assert k == l;
    }
  }

  lemma {:induction false} PolicyKeysDiffer(p: Policy, q: Policy)
    requires PolicyOk(p) && PolicyOk(q)
    ensures PolicyKey(p.offeringId, p.operation) == PolicyKey(q.offeringId, q.operation) <==>
            p.offeringId == q.offeringId && p.operation == q.operation
  {
    JoinedInjective(p.offeringId, p.operation, q.offeringId, q.operation);
  }

  function Keys(policies: seq<Policy>): set<string> {
    set p | p in policies :: PolicyKey(p.offeringId, p.operation)
  }

  function SupportedKeys(policies: seq<Policy>): set<string> {
    set p | p in policies && p.supported :: PolicyKey(p.offeringId, p.operation)
  }

  function PolicyIds(policies: seq<Policy>): set<string> {
    set p | p in policies :: p.id
  }

  /** How many policies each offering has. */
  function PolicyCounts(policies: seq<Policy>): multiset<string> {
    if policies == [] then multiset{}
    else PolicyCounts(policies[..|policies| - 1]) + multiset{policies[|policies| - 1].offeringId}
  }

  /** What the policy loop has checked so far. */
  ghost predicate PoliciesSoFar(s: Snapshot, n: nat)
    requires n <= |s.policies|
  {
    && (forall k | 0 <= k < n ::
          && PolicyOk(s.policies[k]) && s.policies[k].provider == s.provider
          && KnownModel(s, s.policies[k].modelId) && PolicyRefers(s, s.policies[k]))
    && (forall k, l | 0 <= k < l < n :: DifferentPolicies(s.policies[k], s.policies[l]))
  }

  lemma {:induction false} NextPolicy(s: Snapshot, n: nat)
    requires n < |s.policies| && PoliciesSoFar(s, n)
    ensures PoliciesSoFar(s, n + 1) <==>
              var p := s.policies[n];
              && PolicyOk(p) && p.provider == s.provider && KnownModel(s, p.modelId) && PolicyRefers(s, p)
              && p.id !in PolicyIds(s.policies[..n])
              && PolicyKey(p.offeringId, p.operation) !in Keys(s.policies[..n])
  {
    hide PolicyOk, KnownModel, PolicyRefers, PolicyKey;
    var p := s.policies[n];
    if PolicyOk(p) {
      forall k | 0 <= k < n
        ensures PolicyKey(s.policies[k].offeringId, s.policies[k].operation) == PolicyKey(p.offeringId, p.operation)
                <==> s.policies[k].offeringId == p.offeringId && s.policies[k].operation == p.operation
      {
        PolicyKeysDiffer(s.policies[k], p);
      }
      assert forall q <- s.policies[..n] :: exists k | 0 <= k < n :: s.policies[k] == q;
      assert forall k | 0 <= k < n :: s.policies[k] in s.policies[..n];
    }
  }

  lemma {:induction false} AllPolicies(s: Snapshot, n: nat)
    requires n <= |s.policies|
    ensures PoliciesAccepted(s) ==> PoliciesSoFar(s, n)
    ensures PoliciesSoFar(s, |s.policies|) ==> PoliciesAccepted(s)
  {
    hide PolicyOk, KnownModel, PolicyRefers, DifferentPolicies;
    if PoliciesSoFar(s, |s.policies|) {
      forall p <- s.policies
        ensures PolicyOk(p) && p.provider == s.provider && KnownModel(s, p.modelId) && PolicyRefers(s, p)
      {
        var k :| 0 <= k < |s.policies| && s.policies[k] == p;
      }
    }
  }

  method ValidatePolicies(s: Snapshot, models: set<string>, offerings: map<string, Offering>)
    returns (ok: bool, keys: set<string>, supported: set<string>, counts: multiset<string>)
    requires forall id :: id in models <==> KnownModel(s, id)
    requires OfferingsAccepted(s) && Indexes(s, offerings)
    ensures ok <==> PoliciesAccepted(s)
    ensures ok ==> keys == Keys(s.policies) && supported == SupportedKeys(s.policies)
    ensures ok ==> counts == PolicyCounts(s.policies)
  {
    hide PolicyOk, KnownModel, PolicyRefers, PolicyKey, PoliciesSoFar, PoliciesAccepted, OfferingsAccepted,
      Indexes, PolicyIds, Keys, SupportedKeys, PolicyCounts;
    var ids: set<string> := {};
    keys, supported, counts := {}, {}, multiset{};
    NoPolicies(s);
    for i := 0 to |s.policies|
      invariant PoliciesSoFar(s, i)
      invariant ids == PolicyIds(s.policies[..i]) && keys == Keys(s.policies[..i])
      invariant supported == SupportedKeys(s.policies[..i]) && counts == PolicyCounts(s.policies[..i])
    {
      var p := s.policies[i];
      NextPolicy(s, i);
      NextPolicyMaps(s.policies, i);
      AllPolicies(s, i + 1);
      RefersThroughIndex(s, offerings, p);
      var key := PolicyKey(p.offeringId, p.operation);
      if !PolicyOk(p) || p.provider != s.provider || p.modelId !in models {
        return false, keys, supported, counts;
      }
      if p.offeringId !in offerings || offerings[p.offeringId].modelId != p.modelId {
        return false, keys, supported, counts;
      }
      if p.id in ids || key in keys {
        return false, keys, supported, counts;
      }
      ids, keys := ids + {p.id}, keys + {key};
      if p.supported {
        supported := supported + {key};
      }
      counts := counts + multiset{p.offeringId};
    }
    assert s.policies[..|s.policies|] == s.policies;
    AllPolicies(s, |s.policies|);
    ok := true;
  }

  lemma {:induction false} NoPolicies(s: Snapshot)
    ensures PoliciesSoFar(s, 0)
    ensures PolicyIds(s.policies[..0]) == {} && Keys(s.policies[..0]) == {}
    ensures SupportedKeys(s.policies[..0]) == {} && PolicyCounts(s.policies[..0]) == multiset{}
  {
  }

  lemma {:induction false} NextPolicyMaps(policies: seq<Policy>, n: nat)
    requires n < |policies|
    ensures var p, before, after := policies[n], policies[..n], policies[..n + 1];
            var key := PolicyKey(p.offeringId, p.operation);
            && PolicyIds(after) == PolicyIds(before) + {p.id} && Keys(after) == Keys(before) + {key}
            && SupportedKeys(after) == SupportedKeys(before) + (if p.supported then {key} else {})
            && PolicyCounts(after) == PolicyCounts(before) + multiset{p.offeringId}
  {
    hide PolicyKey;
    assert policies[..n + 1] == policies[..n] + [policies[n]];
    assert policies[..n + 1][..n] == policies[..n];
  }

  // ----- profiles -------------------------------------------------------------------------

  function ProfileIds(profiles: seq<Profile>): set<string> {
    set p | p in profiles :: p.id
  }

  function DefaultSubjects(profiles: seq<Profile>): set<string> {
    set p | p in profiles && p.isDefault :: SubjectKey(p)
  }

  /** How many model profiles each policy key has. */
  function ProfileCounts(profiles: seq<Profile>): multiset<string> {
    if profiles == [] then multiset{}
    else
      var last := profiles[|profiles| - 1];
      ProfileCounts(profiles[..|profiles| - 1])
      + if last.offeringId != "" then multiset{PolicyKey(last.offeringId, last.operation)} else multiset{}
  }

  lemma {:induction false} SubjectKeysDiffer(p: Profile, q: Profile)
    ensures SubjectKey(p) == SubjectKey(q) <==> SameSubject(p, q)
  {
    hide Joined;
    assert "model"[0] == 'm' && "service"[0] == 's';
    assert NUL !in "model" && NUL !in "service" by {
      assert "model"[1] == 'o' && "model"[2] == 'd' && "model"[3] == 'e' && "model"[4] == 'l';
      assert "service"[1] == 'e' && "service"[2] == 'r' && "service"[3] == 'v' && "service"[4] == 'i'
             && "service"[5] == 'c' && "service"[6] == 'e';
    }
    var a := if p.offeringId != "" then p.offeringId else p.serviceOfferingId;
    var b := if q.offeringId != "" then q.offeringId else q.serviceOfferingId;
    JoinedInjective(if p.offeringId != "" then "model" else "service", a,
                    if q.offeringId != "" then "model" else "service", b);
  }

  ghost predicate ProfilesSoFar(s: Snapshot, n: nat)
    requires n <= |s.profiles|
  {
    && (forall k | 0 <= k < n ::
          ProfileOk(s.profiles[k]) && s.profiles[k].provider == s.provider && ProfileRefers(s, s.profiles[k]))
    && (forall k, l | 0 <= k < l < n :: CompatibleProfiles(s.profiles[k], s.profiles[l]))
  }

  lemma {:induction false} NextProfile(s: Snapshot, n: nat)
    requires n < |s.profiles| && ProfilesSoFar(s, n)
    ensures ProfilesSoFar(s, n + 1) <==>
              var p := s.profiles[n];
              && ProfileOk(p) && p.provider == s.provider && ProfileRefers(s, p)
              && p.id !in ProfileIds(s.profiles[..n])
              && !(p.isDefault && SubjectKey(p) in DefaultSubjects(s.profiles[..n]))
  {
    hide ProfileOk, ProfileRefers, SubjectKey, SameSubject;
    var p := s.profiles[n];
    forall k | 0 <= k < n
      ensures SubjectKey(s.profiles[k]) == SubjectKey(p) <==> SameSubject(s.profiles[k], p)
    {
      SubjectKeysDiffer(s.profiles[k], p);
    }
    assert forall q <- s.profiles[..n] :: exists k | 0 <= k < n :: s.profiles[k] == q;
    assert forall k | 0 <= k < n :: s.profiles[k] in s.profiles[..n];
  }

  lemma {:induction false} AllProfiles(s: Snapshot, n: nat)
    requires n <= |s.profiles|
    ensures ProfilesAccepted(s) ==> ProfilesSoFar(s, n)
    ensures ProfilesSoFar(s, |s.profiles|) ==> ProfilesAccepted(s)
  {
    hide ProfileOk, ProfileRefers, CompatibleProfiles;
    if ProfilesSoFar(s, |s.profiles|) {
      forall p <- s.profiles ensures ProfileOk(p) && p.provider == s.provider && ProfileRefers(s, p) {
        var k :| 0 <= k < |s.profiles| && s.profiles[k] == p;
      }
    }
  }

  lemma {:induction false} NoProfiles(s: Snapshot)
    ensures ProfilesSoFar(s, 0)
    ensures ProfileIds(s.profiles[..0]) == {} && DefaultSubjects(s.profiles[..0]) == {}
    ensures ProfileCounts(s.profiles[..0]) == multiset{}
  {
  }

  lemma {:induction false} NextProfileMaps(profiles: seq<Profile>, n: nat)
    requires n < |profiles|
    ensures var p, before, after := profiles[n], profiles[..n], profiles[..n + 1];
            && ProfileIds(after) == ProfileIds(before) + {p.id}
            && DefaultSubjects(after) == DefaultSubjects(before) + (if p.isDefault then {SubjectKey(p)} else {})
            && ProfileCounts(after) == ProfileCounts(before)
               + (if p.offeringId != "" then multiset{PolicyKey(p.offeringId, p.operation)} else multiset{})
  {
    hide PolicyKey, SubjectKey;
    assert profiles[..n + 1] == profiles[..n] + [profiles[n]];
    assert profiles[..n + 1][..n] == profiles[..n];
  }

  lemma {:induction false} RefersThroughMaps(s: Snapshot, offerings: map<string, Offering>, p: Profile)
    requires Indexes(s, offerings) && PoliciesAccepted(s) && ProfileOk(p)
    ensures ProfileRefers(s, p) <==>
            if p.offeringId != "" then
              && p.offeringId in offerings
              && (Keys(s.policies) != {} ==> PolicyKey(p.offeringId, p.operation) in SupportedKeys(s.policies))
            else p.serviceOfferingId in s.services && s.services[p.serviceOfferingId] == p.operation
  {
    hide PoliciesAccepted, PolicyKey, ProfileOk, Keys, SupportedKeys, Supports;
    SupportedThroughKey(s, p);
    KeysMeanPolicies(s);
  }

  /** A supported policy for the profile is a supported key. */
  lemma {:induction false} SupportedThroughKey(s: Snapshot, p: Profile)
    requires PoliciesAccepted(s) && ProfileOk(p)
    ensures PolicyKey(p.offeringId, p.operation) in SupportedKeys(s.policies) <==>
            exists q <- s.policies :: Supports(q, p.offeringId, p.operation)
  {
    hide KnownModel, PolicyRefers, DifferentPolicies, Joined;
    forall q | q in s.policies
      ensures PolicyKey(q.offeringId, q.operation) == PolicyKey(p.offeringId, p.operation) <==>
              q.offeringId == p.offeringId && q.operation == p.operation
    {
      JoinedInjective(q.offeringId, q.operation, p.offeringId, p.operation);
    }
  }

  method ValidateProfiles(s: Snapshot, offerings: map<string, Offering>, keys: set<string>,
                          supported: set<string>)
    returns (ok: bool, defaults: set<string>, counts: multiset<string>)
    requires Indexes(s, offerings) && PoliciesAccepted(s)
    requires keys == Keys(s.policies) && supported == SupportedKeys(s.policies)
    ensures ok <==> ProfilesAccepted(s)
    ensures ok ==> defaults == DefaultSubjects(s.profiles)
    ensures ok ==> counts == ProfileCounts(s.profiles)
  {
    hide ProfileOk, PolicyKey, SubjectKey, PoliciesAccepted, ProfilesSoFar, ProfilesAccepted, KnownOffering, Supports,
      ProfileIds, DefaultSubjects, ProfileCounts, Keys, SupportedKeys, Indexes, ProfileRefers;
    var ids: set<string> := {};
    defaults, counts := {}, multiset{};
    NoProfiles(s);
    for i := 0 to |s.profiles|
      invariant ProfilesSoFar(s, i)
      invariant ids == ProfileIds(s.profiles[..i]) && defaults == DefaultSubjects(s.profiles[..i])
      invariant counts == ProfileCounts(s.profiles[..i])
    {
      var p := s.profiles[i];
      NextProfile(s, i);
      NextProfileMaps(s.profiles, i);
      AllProfiles(s, i + 1);
      if !ProfileOk(p) || p.provider != s.provider {
        return false, defaults, counts;
      }
      RefersThroughMaps(s, offerings, p);
      var key := PolicyKey(p.offeringId, p.operation);
      if p.offeringId != "" {
        if p.offeringId !in offerings || (keys != {} && key !in supported) {
          return false, defaults, counts;
        }
      } else if p.serviceOfferingId !in s.services || s.services[p.serviceOfferingId] != p.operation {
        return false, defaults, counts;
      }
      if p.id in ids || (p.isDefault && SubjectKey(p) in defaults) {
        return false, defaults, counts;
      }
      ids := ids + {p.id};
      if p.isDefault {
        defaults := defaults + {SubjectKey(p)};
      }
      if p.offeringId != "" {
        counts := counts + multiset{key};
      }
    }
    assert s.profiles[..|s.profiles|] == s.profiles;
    AllProfiles(s, |s.profiles|);
    ok := true;
  }

  lemma {:induction false} KeysMeanPolicies(s: Snapshot)
    ensures Keys(s.policies) != {} <==> s.policies != []
  {
    if s.policies != [] {
      assert s.policies[0] in s.policies;
      assert PolicyKey(s.policies[0].offeringId, s.policies[0].operation) in Keys(s.policies);
    }
  }

  // ----- publication ----------------------------------------------------------------------

  lemma {:induction false} PolicyCounted(policies: seq<Policy>, offeringId: string)
    ensures offeringId in PolicyCounts(policies) <==> exists q <- policies :: q.offeringId == offeringId
  {
    if policies != [] {
      var shorter, last := policies[..|policies| - 1], policies[|policies| - 1];
      PolicyCounted(shorter, offeringId);
      assert policies == shorter + [last];
      assert offeringId in PolicyCounts(policies) <==>
             offeringId in PolicyCounts(shorter) || last.offeringId == offeringId;
    }
  }

  lemma {:induction false} ProfileCounted(profiles: seq<Profile>, key: string)
    ensures key in ProfileCounts(profiles) <==>
            exists p <- profiles :: p.offeringId != "" && PolicyKey(p.offeringId, p.operation) == key
  {
    hide PolicyKey;
    if profiles != [] {
      ProfileCounted(profiles[..|profiles| - 1], key);
      assert profiles == profiles[..|profiles| - 1] + [profiles[|profiles| - 1]];
    }
  }

  lemma {:induction false} ProfileThroughCount(s: Snapshot, q: Policy)
    requires ProfilesAccepted(s) && PolicyOk(q)
    ensures PolicyKey(q.offeringId, q.operation) in ProfileCounts(s.profiles) <==> HasProfile(s, q)
  {
    hide ProfileRefers, CompatibleProfiles, Joined;
    ProfileCounted(s.profiles, PolicyKey(q.offeringId, q.operation));
    forall p | p in s.profiles
      ensures PolicyKey(p.offeringId, p.operation) == PolicyKey(q.offeringId, q.operation) <==>
              p.offeringId == q.offeringId && p.operation == q.operation
    {
      JoinedInjective(p.offeringId, p.operation, q.offeringId, q.operation);
    }
  }

  function ModelSubject(offeringId: string): string {
    Joined("model", offeringId)
  }

  function ServiceSubject(serviceOfferingId: string): string {
    Joined("service", serviceOfferingId)
  }

  /** The subject keys of the default profiles say which offerings have one. */
  lemma {:induction false} DefaultThroughSubject(s: Snapshot, id: string)
    ensures id != "" ==> (ModelSubject(id) in DefaultSubjects(s.profiles) <==> HasDefault(s, id))
    ensures ServiceSubject(id) in DefaultSubjects(s.profiles) <==> HasServiceDefault(s, id)
  {
    hide Joined, SubjectKey;
    var m := Profile("", "", id, "", "", false, false);
    var v := Profile("", "", "", id, "", false, false);
    SubjectOfSamples(id);
    forall p | p in s.profiles
      ensures id != "" ==> (SubjectKey(p) == SubjectKey(m) <==> SameSubject(p, m))
      ensures SubjectKey(p) == SubjectKey(v) <==> SameSubject(p, v)
    {
      SubjectKeysDiffer(p, m);
      SubjectKeysDiffer(p, v);
    }
  }

  lemma {:induction false} SubjectOfSamples(id: string)
    ensures id != "" ==> SubjectKey(Profile("", "", id, "", "", false, false)) == ModelSubject(id)
    ensures SubjectKey(Profile("", "", "", id, "", false, false)) == ServiceSubject(id)
  {
    hide Joined;
  }

  /** The last branch of the loop cannot be taken: a default profile needs a supported policy, so an
      unpublished offering has none. */
  lemma {:induction false} UnpublishedHasNoDefault(s: Snapshot, offeringId: string)
    requires ProfilesAccepted(s) && s.policies != []
    ensures HasDefault(s, offeringId) ==> Publishes(s, offeringId)
  {
    hide CompatibleProfiles, KnownOffering;
    if HasDefault(s, offeringId) {
      var p :| p in s.profiles && p.isDefault && p.offeringId != "" && p.offeringId == offeringId;
      assert ProfileRefers(s, p);
    }
  }

  /** One offering under policies, with the counters of the earlier loops. The result includes the
      refusal of a default on an unpublished offering. */
  method ValidatePublication(s: Snapshot, offeringId: string, policyCounts: multiset<string>,
                             profileCounts: multiset<string>, defaults: set<string>)
    returns (ok: bool)
    requires offeringId != "" && s.policies != [] && PoliciesAccepted(s) && ProfilesAccepted(s)
    requires policyCounts == PolicyCounts(s.policies) && profileCounts == ProfileCounts(s.profiles)
    requires defaults == DefaultSubjects(s.profiles)
    ensures ok <==>
            && HasPolicy(s, offeringId)
            && (forall q <- s.policies :: q.supported && q.offeringId == offeringId ==> HasProfile(s, q))
            && (Publishes(s, offeringId) ==> HasDefault(s, offeringId))
  {
    hide PolicyKey, ModelSubject, HasProfile, PoliciesAccepted, ProfilesAccepted, PolicyCounts, ProfileCounts,
      DefaultSubjects, HasDefault;
    PolicyCounted(s.policies, offeringId);
    if policyCounts[offeringId] == 0 {
      return false;
    }
    var supportedExists := false;
    for i := 0 to |s.policies|
      invariant supportedExists <==>
                  exists k | 0 <= k < i :: s.policies[k].supported && s.policies[k].offeringId == offeringId
      invariant forall k | 0 <= k < i ::
                  s.policies[k].supported && s.policies[k].offeringId == offeringId ==> HasProfile(s, s.policies[k])
    {
      var q := s.policies[i];
      assert q in s.policies;
      if q.offeringId != offeringId || !q.supported {
        continue;
      }
      supportedExists := true;
      AcceptedPolicyOk(s, q);
      ProfileThroughCount(s, q);
      if profileCounts[PolicyKey(q.offeringId, q.operation)] == 0 {
        return false;
      }
    }
    PublishesByIndex(s, offeringId);
    UnpublishedHasNoDefault(s, offeringId);
    DefaultThroughSubject(s, offeringId);
    var defaultExists := ModelSubject(offeringId) in defaults;
    ok := (supportedExists ==> defaultExists) && (!supportedExists ==> !defaultExists);
  }

  lemma {:induction false} AcceptedPolicyOk(s: Snapshot, q: Policy)
    requires PoliciesAccepted(s) && q in s.policies
    ensures PolicyOk(q)
  {
    hide PolicyOk;
  }

  lemma {:induction false} PublishesByIndex(s: Snapshot, offeringId: string)
    ensures Publishes(s, offeringId) <==>
            exists k | 0 <= k < |s.policies| :: s.policies[k].supported && s.policies[k].offeringId == offeringId
    ensures forall q <- s.policies :: exists k | 0 <= k < |s.policies| :: s.policies[k] == q
  {
    if Publishes(s, offeringId) {
      var q :| q in s.policies && q.supported && q.offeringId == offeringId;
      var k :| 0 <= k < |s.policies| && s.policies[k] == q;
    }
  }

  /** The loops accept exactly the snapshots that the declaration describes. */
  method Validate(s: Snapshot) returns (ok: bool)
    ensures ok <==> Accepted(s)
  {
    hide ModelsAccepted, OfferingsAccepted, PoliciesAccepted, ProfilesAccepted, KnownModel, Indexes, Keys,
      SupportedKeys, PolicyCounts, ProfileCounts, DefaultSubjects, HasDefault, HasServiceDefault, HasProfile,
      HasPolicy, Publishes, ModelSubject, ServiceSubject;
    var modelsOk, models := ValidateModels(s);
    if !modelsOk {
      return false;
    }
    var offeringsOk, offerings := ValidateOfferings(s, models);
    if !offeringsOk {
      return false;
    }
    var policiesOk, keys, supported, policyCounts := ValidatePolicies(s, models, offerings);
    if !policiesOk {
      return false;
    }
    var profilesOk, defaults, profileCounts := ValidateProfiles(s, offerings, keys, supported);
    if !profilesOk {
      return false;
    }
    KeysMeanPolicies(s);
    OfferingIdsAreNotEmpty(s);
    for i := 0 to |s.offerings|
      invariant forall k | 0 <= k < i :: OfferingPublished(s, s.offerings[k])
    {
      var id := s.offerings[i].id;
      assert s.offerings[i] in s.offerings;
      DefaultThroughSubject(s, id);
      if keys == {} {
        if ModelSubject(id) !in defaults {
          return false;
        }
        continue;
      }
      var published := ValidatePublication(s, id, policyCounts, profileCounts, defaults);
      if !published {
        return false;
      }
    }
    assert forall o <- s.offerings :: OfferingPublished(s, o) by {
      forall o <- s.offerings ensures OfferingPublished(s, o) {
        var k :| 0 <= k < |s.offerings| && s.offerings[k] == o;
      }
    }
    forall id | id in s.services
      ensures ServiceSubject(id) in defaults <==> HasServiceDefault(s, id)
    {
      DefaultThroughSubject(s, id);
    }
    return forall id | id in s.services :: ServiceSubject(id) in defaults;
  }

  lemma {:induction false} OfferingIdsAreNotEmpty(s: Snapshot)
    requires OfferingsAccepted(s)
    ensures forall i | 0 <= i < |s.offerings| :: s.offerings[i].id != ""
  {
    hide KnownModel;
    forall i | 0 <= i < |s.offerings| ensures s.offerings[i].id != "" {
      assert s.offerings[i] in s.offerings;
    }
  }
}
