/** The admission webhooks: defaulting, which normalises an object before it is stored, and
    validation, which rejects updates of immutable fields. */
module Admission {
  import opened Wrappers
  import opened Credentials
  import opened Document
  import opened Conditions
  import opened Objects

  const DEFAULT_ALGORITHM := "SHA256WithRSA"
  const DEFAULT_ENDPOINT := "https://localhost:6443"
  const CLUSTER_ADMIN := RoleRef("rbac.authorization.k8s.io", "ClusterRole", "cluster-admin")
  const NO_FIELDS := SubjectFields([], [], [], [], [])

  type ConfigMap = Option<map<string, Text>>
  type KubeconfigConditions = seq<Condition<KubeconfigCondition>>

  function DefaultServer(server: string, clusterInfo: ConfigMap): string {
    if server != "" then server else
      match ClusterEndpoint(clusterInfo)
      case Success(endpoint) => endpoint
      case Failure(_) => DEFAULT_ENDPOINT
  }

  function DefaultCluster(cluster: Option<ClusterRef>, clusterInfo: ConfigMap): ClusterRef {
    var c := if cluster.Some? then cluster.value else ClusterRef("", "");
    ClusterRef(if c.name == "" then "kubernetes" else c.name, DefaultServer(c.server, clusterInfo))
  }

  function DefaultCsr(csr: Option<CsrParameters>): CsrParameters {
    var c := if csr.Some? then csr.value else CsrParameters("", NO_FIELDS);
    if c.signatureAlgorithm == "" then c.(signatureAlgorithm := DEFAULT_ALGORITHM) else c
  }

  /** What defaulting makes of a spec. */
  function DefaultSpec(spec: Spec, clusterInfo: ConfigMap): Spec {
    spec.(cluster := Some(DefaultCluster(spec.cluster, clusterInfo)),
          roleRef := if spec.roleRef.Some? then spec.roleRef else Some(CLUSTER_ADMIN),
          csr := Some(DefaultCsr(spec.csr)))
  }

  const CONDITION_KINDS := [CSRCreated, CSRApproved, UserSecretCreated, UserSecretFinished, KubeconfigFinished]

  function UnknownCondition(kind: KubeconfigCondition, now: Time): Condition<KubeconfigCondition> {
    Condition(kind, Unknown, "Unknown", "n/a", now)
  }

  function AddIfMissing(cs: KubeconfigConditions, kind: KubeconfigCondition, now: Time): KubeconfigConditions {
    if Has(cs, kind) then cs else cs + [UnknownCondition(kind, now)]
  }

  function AddMissing(cs: KubeconfigConditions, kinds: seq<KubeconfigCondition>, now: Time): KubeconfigConditions
    decreases kinds
  {
    if kinds == [] then cs else AddMissing(AddIfMissing(cs, kinds[0], now), kinds[1..], now)
  }

  class KubeconfigResource {
    var spec: Spec
    var conditions: KubeconfigConditions
    var phase: Phase

    constructor (spec: Spec, conditions: KubeconfigConditions, phase: Phase)
      ensures this.spec == spec && this.conditions == conditions && this.phase == phase
    {
      this.spec, this.conditions, this.phase := spec, conditions, phase;
    }

    /** Default of the mutating webhook. */
    method Default(clusterInfo: ConfigMap, now: Time)
      modifies this
      ensures spec == DefaultSpec(old(spec), clusterInfo)
      ensures conditions == AddMissing(old(conditions), CONDITION_KINDS, now)
      ensures phase == PhasePending
    {
      FillCluster(clusterInfo);
      if spec.roleRef.None? {
        spec := spec.(roleRef := Some(CLUSTER_ADMIN));
      }
      assert spec == old(spec).(cluster := Some(DefaultCluster(old(spec).cluster, clusterInfo)),
                                roleRef := DefaultSpec(old(spec), clusterInfo).roleRef);
      FillCsr();
      conditions := DefaultConditions(conditions, now);
      phase := PhasePending;
    }

    method FillCluster(clusterInfo: ConfigMap)
      modifies `spec
      ensures spec == old(spec).(cluster := Some(DefaultCluster(old(spec).cluster, clusterInfo)))
    {
      if spec.cluster.None? {
        spec := spec.(cluster := Some(ClusterRef("", "")));
      }
      if spec.cluster.value.server == "" {
        var endpoint := ClusterEndpoint(clusterInfo);
        var ep := DEFAULT_ENDPOINT;
        if endpoint.Success? {
          ep := endpoint.value;
        }
        spec := spec.(cluster := Some(spec.cluster.value.(server := ep)));
      }
      if spec.cluster.value.name == "" {
        spec := spec.(cluster := Some(spec.cluster.value.(name := "kubernetes")));
      }
    }

    method FillCsr()
      modifies `spec
      ensures spec == old(spec).(csr := Some(DefaultCsr(old(spec).csr)))
    {
      if spec.csr.None? {
        spec := spec.(csr := Some(CsrParameters(DEFAULT_ALGORITHM, NO_FIELDS)));
      }
      if spec.csr.value.signatureAlgorithm == "" {
        spec := spec.(csr := Some(spec.csr.value.(signatureAlgorithm := DEFAULT_ALGORITHM)));
      }
    }

    static method DefaultConditions(conditions: KubeconfigConditions, now: Time) returns (cl: KubeconfigConditions)
      ensures cl == AddMissing(conditions, CONDITION_KINDS, now)
    {
      AddMissingUnfolds(conditions, now);
      cl := conditions;
      if !Has(cl, CSRCreated) {
        cl := cl + [UnknownCondition(CSRCreated, now)];
      }
      if !Has(cl, CSRApproved) {
        cl := cl + [UnknownCondition(CSRApproved, now)];
      }
      if !Has(cl, UserSecretCreated) {
        cl := cl + [UnknownCondition(UserSecretCreated, now)];
      }
      if !Has(cl, UserSecretFinished) {
        cl := cl + [UnknownCondition(UserSecretFinished, now)];
      }
      if !Has(cl, KubeconfigFinished) {
        cl := cl + [UnknownCondition(KubeconfigFinished, now)];
      }
    }
  }

  lemma AddMissingUnfolds(cs: KubeconfigConditions, now: Time)
    ensures AddMissing(cs, CONDITION_KINDS, now) ==
            AddIfMissing(AddIfMissing(AddIfMissing(AddIfMissing(AddIfMissing(cs,
              CSRCreated, now), CSRApproved, now), UserSecretCreated, now), UserSecretFinished, now),
              KubeconfigFinished, now)
  {
    AddMissingStep(cs, CSRCreated, [CSRApproved, UserSecretCreated, UserSecretFinished, KubeconfigFinished], now);
    var c1 := AddIfMissing(cs, CSRCreated, now);
    AddMissingStep(c1, CSRApproved, [UserSecretCreated, UserSecretFinished, KubeconfigFinished], now);
    var c2 := AddIfMissing(c1, CSRApproved, now);
    AddMissingStep(c2, UserSecretCreated, [UserSecretFinished, KubeconfigFinished], now);
    var c3 := AddIfMissing(c2, UserSecretCreated, now);
    AddMissingStep(c3, UserSecretFinished, [KubeconfigFinished], now);
    AddMissingStep(AddIfMissing(c3, UserSecretFinished, now), KubeconfigFinished, [], now);
    assert CONDITION_KINDS == [CSRCreated] + [CSRApproved, UserSecretCreated, UserSecretFinished, KubeconfigFinished];
  }

  lemma AddMissingStep(cs: KubeconfigConditions, kind: KubeconfigCondition, kinds: seq<KubeconfigCondition>, now: Time)
    ensures AddMissing(cs, [kind] + kinds, now) == AddMissing(AddIfMissing(cs, kind, now), kinds, now)
  {
    assert ([kind] + kinds)[1..] == kinds;
  }

  // ----- what defaulting promises

  /** Fields that were set stay as they were. */
  lemma DefaultKeepsWhatIsSet(spec: Spec, clusterInfo: ConfigMap)
    ensures var r := DefaultSpec(spec, clusterInfo);
      && r.username == spec.username && r.existingCSR == spec.existingCSR && r.autoApproveCSR == spec.autoApproveCSR
      && r.Dereferenceable()
      && (spec.roleRef.Some? ==> r.roleRef == spec.roleRef)
      && (spec.csr.Some? ==> r.csr.value.additionalFields == spec.csr.value.additionalFields)
      && (spec.csr.Some? && spec.csr.value.signatureAlgorithm != "" ==> r.csr == spec.csr)
      && (spec.cluster.Some? && spec.cluster.value.name != "" ==> r.cluster.value.name == spec.cluster.value.name)
      && (spec.cluster.Some? && spec.cluster.value.server != "" ==> r.cluster.value.server == spec.cluster.value.server)
      && r.csr.value.signatureAlgorithm != "" && r.cluster.value.name != ""
  {
  }

  /** Defaulting a defaulted spec changes nothing, under whatever cluster-info, unless the spec has no
      server, the first cluster-info publishes an empty server name and the second does not. */
  lemma DefaultIsStable(spec: Spec, clusterInfo: ConfigMap, later: ConfigMap)
    ensures DefaultSpec(DefaultSpec(spec, clusterInfo), later) == DefaultSpec(spec, clusterInfo) <==>
              || (spec.cluster.Some? && spec.cluster.value.server != "")
              || ClusterEndpoint(clusterInfo) != Success("")
              || ClusterEndpoint(later) == Success("")
    ensures DefaultSpec(DefaultSpec(spec, clusterInfo), clusterInfo) == DefaultSpec(spec, clusterInfo)
  {
  }

  /** A cluster-info whose nameless cluster has no server. */
  const SERVERLESS_INFO: ConfigMap := Some(map["kubeconfig" :=
    Yaml(SerializedConfig("v1", "Config", EmptyObject, "", [Entry("", Cluster(Plain(""), ""))], [], []))])

  /** It leaves the server empty, so a later defaulting without cluster-info changes the spec again. */
  lemma EmptyServerIsDefaultedAgain(spec: Spec)
    requires spec.cluster.None?
    ensures ClusterEndpoint(SERVERLESS_INFO) == Success("")
    ensures DefaultSpec(spec, SERVERLESS_INFO).cluster.value.server == ""
    ensures DefaultSpec(DefaultSpec(spec, SERVERLESS_INFO), None).cluster.value.server == DEFAULT_ENDPOINT
  {
  }

  /** A spec without a server gets the one that cluster-info publishes, in the last nameless cluster entry
      of its kubeconfig, and the local one if there is none. */
  lemma DefaultServerIsPublished(spec: Spec, clusterInfo: ConfigMap)
    requires spec.cluster.None? || spec.cluster.value.server == ""
    ensures var server := DefaultSpec(spec, clusterInfo).cluster.value.server;
      if clusterInfo.Some? && "kubeconfig" in clusterInfo.value && clusterInfo.value["kubeconfig"].Yaml?
         && exists i :: IsLast(clusterInfo.value["kubeconfig"].config.clusters, "", i)
      then
        var es := clusterInfo.value["kubeconfig"].config.clusters;
        exists i :: IsLast(es, "", i) && server == es[i].value.server
      else server == "https://localhost:6443"
  {
    EndpointIsLastNameless(clusterInfo);
  }

  /** The other defaults, word for word. */
  lemma DefaultsAre(spec: Spec, clusterInfo: ConfigMap)
    ensures var r := DefaultSpec(spec, clusterInfo);
      && (spec.cluster.None? || spec.cluster.value.name == "" ==> r.cluster.value.name == "kubernetes")
      && (spec.roleRef.None? ==>
            r.roleRef == Some(RoleRef("rbac.authorization.k8s.io", "ClusterRole", "cluster-admin")))
      && (spec.csr.None? ==>
            r.csr == Some(CsrParameters("SHA256WithRSA", SubjectFields([], [], [], [], []))))
      && (spec.csr.Some? && spec.csr.value.signatureAlgorithm == "" ==>
            r.csr == Some(CsrParameters("SHA256WithRSA", spec.csr.value.additionalFields)))
  {
  }

  lemma PrefixHas(cs: KubeconfigConditions, r: KubeconfigConditions, kind: KubeconfigCondition)
    requires cs <= r && Has(cs, kind)
    ensures Has(r, kind)
  {
    var i := IndexOf(cs, kind);
    assert r[i] == cs[i];
    HasIffMember(r, kind);
  }

  lemma AddIfMissingAdds(cs: KubeconfigConditions, kind: KubeconfigCondition, now: Time)
    ensures var r := AddIfMissing(cs, kind, now); cs <= r && Has(r, kind) && (Unique(cs) ==> Unique(r))
  {
    var r := AddIfMissing(cs, kind, now);
    if !Has(cs, kind) {
      assert r[|cs|].kind == kind;
      HasIffMember(r, kind);
    }
  }

  /** The old list is kept as a prefix, what is added is Unknown, and afterwards every kind is there. */
  lemma {:induction false} AddMissingNormalises(cs: KubeconfigConditions, kinds: seq<KubeconfigCondition>, now: Time)
    ensures var r := AddMissing(cs, kinds, now);
      && cs <= r
      && (forall k :: k in kinds ==> Has(r, k))
      && (Unique(cs) ==> Unique(r))
      && (forall j :: |cs| <= j < |r| ==> r[j].kind in kinds && !Has(cs, r[j].kind)
                                          && r[j] == Condition(r[j].kind, Unknown, "Unknown", "n/a", now))
    decreases kinds
  {
    if kinds != [] {
      var next, r := AddIfMissing(cs, kinds[0], now), AddMissing(cs, kinds, now);
      AddIfMissingAdds(cs, kinds[0], now);
      AddMissingNormalises(next, kinds[1..], now);
      PrefixHas(next, r, kinds[0]);
      forall j | |next| <= j < |r|
        ensures r[j].kind in kinds && !Has(cs, r[j].kind)
        ensures r[j] == Condition(r[j].kind, Unknown, "Unknown", "n/a", now)
      {
        if Has(cs, r[j].kind) {
          PrefixHas(cs, next, r[j].kind);
        }
      }
      assert forall j :: |cs| <= j < |next| ==> r[j] == next[j];
    }
  }

  /** A list that has every kind already is left alone, so defaulting twice is defaulting once. */
  lemma {:induction false} AddMissingIsStable(cs: KubeconfigConditions, kinds: seq<KubeconfigCondition>, now: Time)
    ensures AddMissing(cs, kinds, now) == cs <==> forall k :: k in kinds ==> Has(cs, k)
    decreases kinds
  {
    if kinds != [] {
      AddMissingIsStable(cs, kinds[1..], now);
      AddMissingNormalises(AddIfMissing(cs, kinds[0], now), kinds[1..], now);
    }
  }

  /** Defaulting the status conditions: all five kinds, each exactly once, old entries first and
      untouched; a second pass, at any time, adds nothing. */
  lemma DefaultedConditions(cs: KubeconfigConditions, now: Time, later: Time)
    requires Unique(cs)
    ensures var r := AddMissing(cs, CONDITION_KINDS, now);
      && cs <= r && Unique(r)
      && (forall k :: Has(r, k))
      && (forall j :: |cs| <= j < |r| ==> r[j] == Condition(r[j].kind, Unknown, "Unknown", "n/a", now))
      && AddMissing(r, CONDITION_KINDS, later) == r
      && |r| == 5
  {
    var r := AddMissing(cs, CONDITION_KINDS, now);
    AddMissingNormalises(cs, CONDITION_KINDS, now);
    AddMissingIsStable(r, CONDITION_KINDS, later);
    forall k ensures Has(r, k) {
      KindsAreListed(k);
    }
    FiveKinds(r);
  }

  lemma {:induction false} AddAllNew(cs: KubeconfigConditions, kinds: seq<KubeconfigCondition>, now: Time)
    requires forall i, j :: 0 <= i < j < |kinds| ==> kinds[i] != kinds[j]
    requires forall k :: k in kinds ==> !Has(cs, k)
    ensures var r := AddMissing(cs, kinds, now);
      && |r| == |cs| + |kinds|
      && (forall i :: 0 <= i < |cs| ==> r[i] == cs[i])
      && (forall i :: 0 <= i < |kinds| ==> r[|cs| + i] == UnknownCondition(kinds[i], now))
    decreases kinds
  {
    if kinds != [] {
      var next := cs + [UnknownCondition(kinds[0], now)];
      forall k | k in kinds[1..] ensures !Has(next, k) {
        HasIffMember(next, k);
        HasIffMember(cs, k);
      }
      AddAllNew(next, kinds[1..], now);
      var r := AddMissing(cs, kinds, now);
      forall i | 1 <= i < |kinds| ensures r[|cs| + i] == UnknownCondition(kinds[i], now) {
        assert r[|next| + (i - 1)] == UnknownCondition(kinds[1..][i - 1], now);
      }
    }
  }

  /** From an empty list defaulting makes these five, in this order. */
  lemma FirstConditions(now: Time)
    ensures var r := AddMissing([], CONDITION_KINDS, now);
      && |r| == 5
      && r[0] == Condition(CSRCreated, Unknown, "Unknown", "n/a", now)
      && r[1] == Condition(CSRApproved, Unknown, "Unknown", "n/a", now)
      && r[2] == Condition(UserSecretCreated, Unknown, "Unknown", "n/a", now)
      && r[3] == Condition(UserSecretFinished, Unknown, "Unknown", "n/a", now)
      && r[4] == Condition(KubeconfigFinished, Unknown, "Unknown", "n/a", now)
  {
    AddAllNew([], CONDITION_KINDS, now);
    var r := AddMissing([], CONDITION_KINDS, now);
    assert forall i :: 0 <= i < 5 ==> r[0 + i] == UnknownCondition(CONDITION_KINDS[i], now);
  }

  lemma KindsAreListed(k: KubeconfigCondition)
    ensures k in CONDITION_KINDS
  {
    match k
    case CSRCreated => assert CONDITION_KINDS[0] == k;
    case CSRApproved => assert CONDITION_KINDS[1] == k;
    case UserSecretCreated => assert CONDITION_KINDS[2] == k;
    case UserSecretFinished => assert CONDITION_KINDS[3] == k;
    case KubeconfigFinished => assert CONDITION_KINDS[4] == k;
  }

  /** Five kinds, each once: counted through a numbering of the kinds. */
  lemma FiveKinds(r: KubeconfigConditions)
    requires Unique(r) && forall k :: Has(r, k)
    ensures |r| == 5
  {
    var kinds := set c | c in r :: c.kind;
    var all := {CSRCreated, CSRApproved, UserSecretCreated, UserSecretFinished, KubeconfigFinished};
    forall k ensures k in kinds && k in all {
      assert Has(r, k);
      assert r[IndexOf(r, k)] in r && r[IndexOf(r, k)].kind == k;
    }
    assert kinds == all;
    UniqueKindsCount(r);
  }

  lemma {:induction false} UniqueKindsCount(r: KubeconfigConditions)
    requires Unique(r)
    ensures |set c | c in r :: c.kind| == |r|
  {
    if r != [] {
      var n := |r| - 1;
      UniqueKindsCount(r[..n]);
      var before, after := set c | c in r[..n] :: c.kind, set c | c in r :: c.kind;
      assert forall c :: c in r <==> c in r[..n] || c == r[n];
      assert after == before + {r[n].kind};
      assert r[n].kind !in before;
    }
  }

  // ----- validation of updates

  const EXISTING_CSR_IMMUTABLE := ".spec.existingCSR is immutable"
  const CSR_IMMUTABLE := ".spec.csr is immutable"

  predicate UpdateAllowed(before: Spec, after: Spec) {
    before.existingCSR == after.existingCSR && before.csr == after.csr
  }

  /** ValidateUpdate; no errors means the update is accepted. */
  method ValidateUpdate(before: KubeconfigResource, after: KubeconfigResource) returns (errors: seq<string>)
    ensures errors == [] <==> UpdateAllowed(before.spec, after.spec)
    ensures EXISTING_CSR_IMMUTABLE in errors <==> before.spec.existingCSR != after.spec.existingCSR
    ensures CSR_IMMUTABLE in errors <==> before.spec.csr != after.spec.csr
    ensures forall e :: e in errors ==> e == EXISTING_CSR_IMMUTABLE || e == CSR_IMMUTABLE
  {
    assert EXISTING_CSR_IMMUTABLE[6] != CSR_IMMUTABLE[6];
    errors := [];
    if before.spec.existingCSR != after.spec.existingCSR {
      errors := errors + [EXISTING_CSR_IMMUTABLE];
    }
    if before.spec.csr != after.spec.csr {
      errors := errors + [CSR_IMMUTABLE];
    }
  }

  /** An update request as a client sends it, and the cluster-info at that moment. */
  datatype UpdateRequest = UpdateRequest(spec: Spec, clusterInfo: ConfigMap)

  /** The stored spec after an update request: defaulted first, then accepted or rejected. */
  function Admit(stored: Spec, u: UpdateRequest): Spec {
    var defaulted := DefaultSpec(u.spec, u.clusterInfo);
    if UpdateAllowed(stored, defaulted) then defaulted else stored
  }

  /** The stored spec after a create request and any sequence of update requests. */
  function Stored(created: UpdateRequest, updates: seq<UpdateRequest>): Spec {
    if updates == [] then
      DefaultSpec(created.spec, created.clusterInfo)
    else
      Admit(Stored(created, updates[..|updates| - 1]), updates[|updates| - 1])
  }

  /** Over any admission history the CSR parameters and the reference to an existing CSR stay as they
      were right after creation, and the reconciler can follow every pointer. */
  lemma {:induction false} CsrParametersAreImmutable(created: UpdateRequest, updates: seq<UpdateRequest>)
    ensures var first, last := Stored(created, []), Stored(created, updates);
      && last.csr == first.csr && last.existingCSR == first.existingCSR && last.Dereferenceable()
  {
    if updates != [] {
      CsrParametersAreImmutable(created, updates[..|updates| - 1]);
    }
  }

  /** Requests regenerated at any two points of a history ask for the same algorithm and the same
      subject fields. They are for the same subject exactly when the username was not edited in between. */
  lemma RegeneratedRequestsAgree(created: UpdateRequest, updates: seq<UpdateRequest>, i: nat, j: nat, key: nat)
    requires i <= |updates| && j <= |updates|
    ensures var s, t := Stored(created, updates[..i]), Stored(created, updates[..j]);
      && s.csr.Some? && t.csr.Some?
      && var q, r := NewRequest(s.username, s.csr.value, key), NewRequest(t.username, t.csr.value, key);
        && q.request.algorithm == r.request.algorithm
        && q.request.fields == r.request.fields
        && (q == r <==> s.username == t.username)
        && NewKey(s.csr.value, key) == NewKey(t.csr.value, key)
  {
    CsrParametersAreImmutable(created, updates[..i]);
    CsrParametersAreImmutable(created, updates[..j]);
  }

  /** The field comment of automaticApproval calls it immutable and enforced by the webhook. It is not:
      from every stored spec there is an accepted update that flips it and changes nothing else, and
      the same holds for the username. */
  lemma AutoApprovalAndUsernameAreMutable(created: UpdateRequest, updates: seq<UpdateRequest>, username: string)
    ensures var s := Stored(created, updates);
      var u := UpdateRequest(s.(autoApproveCSR := !s.autoApproveCSR, username := username), created.clusterInfo);
      var t := Stored(created, updates + [u]);
      t.autoApproveCSR != s.autoApproveCSR && t.username == username && t.csr == s.csr && t.roleRef == s.roleRef
  {
    CsrParametersAreImmutable(created, updates);
    var s := Stored(created, updates);
    var u := UpdateRequest(s.(autoApproveCSR := !s.autoApproveCSR, username := username), created.clusterInfo);
    assert (updates + [u])[..|updates|] == updates;
    StoredIsDefaulted(created, updates);
  }

  /** Stored specs are in normal form as far as their CSR parameters go. */
  lemma {:induction false} StoredIsDefaulted(created: UpdateRequest, updates: seq<UpdateRequest>)
    ensures var s := Stored(created, updates);
      s.Dereferenceable() && s.csr.value.signatureAlgorithm != "" && s.cluster.value.name != ""
  {
    if updates != [] {
      StoredIsDefaulted(created, updates[..|updates| - 1]);
    }
  }
}
