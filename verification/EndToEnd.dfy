/** From the create request to the delivered kubeconfig: admission, protocol and document together. */
module EndToEnd {
  import opened Wrappers
  import opened Credentials
  import opened Conditions
  import opened Objects
  import opened Acceptance
  import opened Protocol
  import opened Safety
  import opened Admission
  import opened Convergence

  /** isInTerminalCondition, on the list as it is stored. */
  predicate IsInTerminalCondition(conditions: KubeconfigConditions) {
    var i := IndexOf(conditions, KubeconfigFinished);
    i < |conditions| && conditions[i].status != Unknown
  }

  ghost function StatusOf(conditions: KubeconfigConditions, phase: Phase): KubeconfigStatus {
    KubeconfigStatus(AsMap(conditions), phase, None, None, None)
  }

  /** The protocol reads the list through its map: same decision, and setting a condition in the list
      is setting it in the map. */
  lemma ListAndMapAgree(conditions: KubeconfigConditions, phase: Phase, c: Condition<KubeconfigCondition>, now: Time)
    ensures StatusOf(conditions, phase).Terminal() <==> IsInTerminalCondition(conditions)
    ensures StatusOf(Upsert(conditions, c, now), phase) == StatusOf(conditions, phase).Set(c.kind, c.status)
  {
    MapHas(conditions, KubeconfigFinished);
    UpsertIsMapUpdate(conditions, c, now);
  }

  /** The status of a new kubeconfig: as the webhook wrote it, or empty if the API server dropped the status
      of the create request. */
  ghost function NewStatus(kept: bool, now: Time): KubeconfigStatus {
    if kept then StatusOf(AddMissing([], CONDITION_KINDS, now), PhasePending) else StatusOf([], NoPhase)
  }

  /** The world right after creation: nothing but the kubeconfig. */
  function Created(name: string, spec: AdmittedSpec, status: KubeconfigStatus, rootCa: Option<Bytes>): System {
    System(World(name, spec, Kubeconfig(1, status), None, None, None, rootCa, 1, 0), Idle, Resting)
  }

  lemma NewConditionsAreOpen(now: Time)
    ensures !IsInTerminalCondition([])
    ensures !IsInTerminalCondition(AddMissing([], CONDITION_KINDS, now))
  {
    AddMissingNormalises([], CONDITION_KINDS, now);
  }

  /** The request names a known algorithm or leaves the choice to the webhook. */
  predicate KnownAlgorithm(spec: Spec) {
    spec.csr.None? || spec.csr.value.signatureAlgorithm == "" || Supported(spec.csr.value.signatureAlgorithm)
  }

  lemma HistoryKeepsAlgorithm(created: UpdateRequest, updates: seq<UpdateRequest>)
    requires created.spec.existingCSR.None?
    ensures var s := Stored(created, updates);
      && s.Dereferenceable() && s.existingCSR.None?
      && (Supported(s.csr.value.signatureAlgorithm) <==> KnownAlgorithm(created.spec))
  {
    CsrParametersAreImmutable(created, updates);
    assert Stored(created, []) == DefaultSpec(created.spec, created.clusterInfo);
  }

  /** The kubeconfig in the status of `w` is final and gives its user access. */
  ghost predicate Delivers(w: World) {
    w.kubeconfig.status.Is(KubeconfigFinished, True) && GivesAccess(w)
  }

  lemma FreshStartDelivers(s: System, human: bool)
    requires Initial(s) && s.world.secret.None? && s.world.crb.None?
    ensures var w, spec := Settle(s, human).world, s.world.spec;
      && w.spec == spec
      && (Delivers(w) <==> Supported(spec.csr.value.signatureAlgorithm) && BindingAccepted(s.world.name, spec)
                           && s.world.rootCa.Some? && (human || spec.autoApproveCSR))
  {
    SettlesExactlyWhen(s, [], human);
    SettleIsRun(s, human);
    var actions :| BringNothing(actions) && Run(s, actions) == Settle(s, human);
    BindingHistory(s, actions);
    if Run(s, actions).world.kubeconfig.status.Is(KubeconfigFinished, True) {
      FinishedIsSound(s, actions);
    }
  }

  lemma CreatedIsInitial(name: string, spec: AdmittedSpec, rootCa: Option<Bytes>, kept: bool, now: Time)
    ensures Initial(Created(name, spec, NewStatus(kept, now), rootCa))
  {
    NewConditionsAreOpen(now);
    MapHas(if kept then AddMissing([], CONDITION_KINDS, now) else [], KubeconfigFinished);
  }

  /** Whatever a create request leaves out, and whatever updates follow, the webhook turns it into a spec
      the reconciler can work with. The schedule then delivers a kubeconfig that gives access to the server
      of the spec, with a certificate signed for the key it carries in the name of the user, if and only if
      the request named a known algorithm or none, the API server accepts the operator's binding with its
      labels, the CA is published, and a person approves or automatic approval is on after the updates. */
  lemma NewKubeconfigIsDelivered(name: string, created: UpdateRequest, updates: seq<UpdateRequest>,
                                 rootCa: Option<Bytes>, human: bool, statusKept: bool, now: Time)
    requires created.spec.existingCSR.None?
    ensures var spec := Stored(created, updates);
      && spec.Dereferenceable() && spec.existingCSR.None?
      && var w := Settle(Created(name, spec, NewStatus(statusKept, now), rootCa), human).world;
        && w.spec == spec
        && (Delivers(w) <==> KnownAlgorithm(created.spec) && BindingAccepted(name, spec)
                             && rootCa.Some? && (human || spec.autoApproveCSR))
  {
    HistoryKeepsAlgorithm(created, updates);
    var spec := Stored(created, updates);
    CreatedIsInitial(name, spec, rootCa, statusKept, now);
    FreshStartDelivers(Created(name, spec, NewStatus(statusKept, now), rootCa), human);
  }

  predicate IsPlain(s: string) {
    0 < |s| <= 63 && forall i :: 0 <= i < |s| ==> 'a' <= s[i] <= 'z' || 'A' <= s[i] <= 'Z' || '0' <= s[i] <= '9'
  }

  lemma PlainNamesAreAccepted(name: string, spec: AdmittedSpec)
    requires IsPlain(name) && IsPlain(spec.username)
    requires spec.roleRef == Some(RoleRef("rbac.authorization.k8s.io", "ClusterRole", "cluster-admin"))
    ensures BindingAccepted(name, spec)
  {
    PlainNameIsLabel(name);
    PlainNameIsLabel(spec.username);
  }

  /** In particular the plainest request, a username and nothing else, is delivered as soon as the CA is
      published and a person approves. */
  lemma PlainRequestIsDelivered(name: string, username: string, clusterInfo: ConfigMap, ca: Bytes,
                                kept: bool, now: Time)
    requires IsPlain(name) && IsPlain(username)
    ensures var spec := DefaultSpec(Spec(username, None, false, None, None, None), clusterInfo);
      && spec.Dereferenceable() && spec.existingCSR.None?
      && Delivers(Settle(Created(name, spec, NewStatus(kept, now), Some(ca)), true).world)
  {
    var created := UpdateRequest(Spec(username, None, false, None, None, None), clusterInfo);
    DefaultsAre(created.spec, clusterInfo);
    assert Stored(created, []) == DefaultSpec(created.spec, clusterInfo);
    PlainNamesAreAccepted(name, Stored(created, []));
    NewKubeconfigIsDelivered(name, created, [], Some(ca), true, kept, now);
  }
}
