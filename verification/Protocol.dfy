/**
  The operator as a protocol. One System is the world of a single kubeconfig: the objects in the API
  server that belong to it, the worker that runs KubeconfigReconciler.Reconcile for it, and the worker
  that runs CertificateSigningRequestReconciler.Reconcile for its CSR. A step is one API call, together
  with the local computation up to the next call. A call may be served, may be dropped before it has an
  effect, or may have its effect while the reply is lost; a worker may crash between any two calls, and
  does so by itself where it writes into a nil map; and people, the signer and garbage collection act at
  any time.
*/
module Protocol {
  import opened Wrappers
  import opened Credentials
  import opened Document
  import opened Conditions
  import opened Objects
  import opened Acceptance
  import opened Resources

  /** `revision` is the number of the last write and `keys` the number of key pairs generated so far;
      both are shared with the rest of the cluster. */
  datatype World = World(
    name: string, spec: AdmittedSpec,
    kubeconfig: Kubeconfig, secret: Option<Secret>, csr: Option<Csr>, crb: Option<ClusterRoleBinding>,
    rootCa: Option<Bytes>, revision: nat, keys: nat)

  /** The API call the reconciler is about to make, with the local copies it still uses. */
  datatype Worker =
    | Idle
    | GetKubeconfig
    | GetSecret(kubeconfig: Kubeconfig)
    | CreateSecret(kubeconfig: Kubeconfig)
    | GetCsr(kubeconfig: Kubeconfig, secret: Secret)
    | WriteKeys(kubeconfig: Kubeconfig, secret: Secret)
    | CreateCsr(kubeconfig: Kubeconfig, request: Bytes)
    | GetRootCa(kubeconfig: Kubeconfig, secret: Secret)
    | WriteKubeconfig(kubeconfig: Kubeconfig, secret: Secret)
    | GetCrb(kubeconfig: Kubeconfig)
    | CreateCrb(kubeconfig: Kubeconfig)
    | Commit(kubeconfig: Kubeconfig)

  /** The same for the CSR reconciler: `csr` is the copy as it was read and `flags` what it is to become. */
  datatype Approver =
    | Resting
    | Reading
    | WritingApproval(csr: Csr)
    | WritingStatus(csr: Csr, flags: Flags)

  datatype System = System(world: World, worker: Worker, approver: Approver)

  datatype Outcome = Served | Dropped | ReplyLost

  /** What a caller sees of a call. */
  datatype Reply<+T> = Found(value: T) | NotFound | Error

  function OptionToReply<T>(o: Option<T>): Reply<T> {
    if o.None? then NotFound else Found(o.value)
  }

  /** Steps of everyone but the kubeconfig reconciler. */
  datatype OutsideAction =
    | StartApprover
    | ApproverStep(outcome: Outcome)
    | CrashApprover
    | HumanApprove
    | HumanDeny
    | SignCsr
    | FailCsr
    | DeleteCsr
    | EditCsr(owners: seq<OwnerReference>, annotations: map<string, string>)
    | TouchKubeconfig
    | SetRootCa(rootCa: Option<Bytes>)
    | PutSecret(immutable: bool, data: Option<SecretData>)
    | PutCrb(crb: ClusterRoleBinding)
    | Elsewhere(writes: nat, newKeys: nat)

  datatype Action =
    | Start
    | Work(outcome: Outcome)
    | Crash
    | Outside(action: OutsideAction)

  predicate IsApproverAction(a: Action) {
    a.Outside? && (a.action.StartApprover? || a.action.ApproverStep? || a.action.CrashApprover?)
  }

  // ----- the API server

  predicate Executed(outcome: Outcome) {
    !outcome.Dropped?
  }

  /** The data of an immutable secret cannot be updated. */
  predicate SecretUpdateAccepted(w: World, secret: Secret) {
    w.secret.Some? && w.secret.value.version == secret.version && !w.secret.value.immutable
  }

  predicate SecretCreateAccepted(w: World) {
    w.secret.None? && LabelsAccepted(w.name, w.spec)
  }

  function CreateSecretIn(w: World): World {
    if !SecretCreateAccepted(w) then w else
      w.(secret := Some(NewUserSecret(w.revision + 1)), revision := w.revision + 1)
  }

  function UpdateSecretIn(w: World, secret: Secret): World {
    if !SecretUpdateAccepted(w, secret) then w else
      w.(secret := Some(Secret(w.revision + 1, false, secret.data)), revision := w.revision + 1)
  }

  predicate CsrCreateAccepted(w: World) {
    w.csr.None? && LabelsAccepted(w.name, w.spec)
  }

  function CreateCsrIn(w: World, request: Bytes): World {
    if !CsrCreateAccepted(w) then w else
      w.(csr := Some(NewCsr(w.name, w.spec, request, w.revision + 1)), revision := w.revision + 1)
  }

  predicate CrbCreateAccepted(w: World) {
    w.crb.None? && BindingAccepted(w.name, w.spec)
  }

  function CreateCrbIn(w: World): World {
    if !CrbCreateAccepted(w) then w else
      w.(crb := Some(NewClusterRoleBinding(w.spec)), revision := w.revision + 1)
  }

  function UpdateStatusIn(w: World, kubeconfig: Kubeconfig): World {
    if w.kubeconfig.version != kubeconfig.version then w else
      w.(kubeconfig := Kubeconfig(w.revision + 1, kubeconfig.status), revision := w.revision + 1)
  }

  /** Any accepted write to the CSR. */
  function PutCsr(w: World, csr: Csr): World {
    w.(csr := Some(csr.(version := w.revision + 1)), revision := w.revision + 1)
  }

  predicate CsrIsCurrent(w: World, csr: Csr) {
    w.csr.Some? && w.csr.value.version == csr.version
  }

  /** The approval subresource takes the conditions of the update. */
  function UpdateApprovalIn(w: World, csr: Csr, flags: Flags): World {
    if !CsrIsCurrent(w, csr) then w else PutCsr(w, w.csr.value.(flags := flags))
  }

  /** The status subresource refuses to change Approved or Denied. */
  predicate StatusUpdateAccepted(w: World, csr: Csr, flags: Flags) {
    CsrIsCurrent(w, csr) && w.csr.value.flags.approved == flags.approved && w.csr.value.flags.denied == flags.denied
  }

  function UpdateCsrStatusIn(w: World, csr: Csr, flags: Flags): World {
    if !StatusUpdateAccepted(w, csr, flags) then w else PutCsr(w, w.csr.value.(flags := flags))
  }

  // ----- status changes of the reconciler

  function SecretCreated(k: Kubeconfig, name: string): Kubeconfig {
    var secretRef := SecretRef(SecretName(name), SECRET_NAMESPACE);
    k.(status := k.status.Set(UserSecretCreated, True).(userSecret := Some(secretRef)))
  }

  function SecretCreateFailed(k: Kubeconfig): Kubeconfig {
    k.(status := k.status.Set(UserSecretCreated, False).(phase := PhaseFailed))
  }

  function CsrWasCreated(k: Kubeconfig, name: string): Kubeconfig {
    k.(status := k.status.Set(CSRCreated, True).(csr := Some(name), phase := PhaseAwaitingApproval))
  }

  function CsrRefused(k: Kubeconfig): Kubeconfig {
    k.(status := k.status.Set(CSRApproved, False).Set(KubeconfigFinished, False).(phase := PhaseFailed))
  }

  function CsrWasApproved(k: Kubeconfig): Kubeconfig {
    k.(status := k.status.Set(CSRApproved, True))
  }

  function WithKubeconfig(k: Kubeconfig, text: Text): Kubeconfig {
    k.(status := k.status.(kubeconfig := Some(text)))
  }

  function SecretFinished(k: Kubeconfig): Kubeconfig {
    k.(status := k.status.Set(UserSecretFinished, True))
  }

  function Finished(k: Kubeconfig): Kubeconfig {
    k.(status := k.status.Set(KubeconfigFinished, True).(phase := PhaseDone))
  }

  // ----- the kubeconfig reconciler

  function AfterGetKubeconfig(w: World, outcome: Outcome): Worker {
    if !outcome.Served? || w.kubeconfig.status.Terminal() then Idle else GetSecret(w.kubeconfig)
  }

  function AfterGetSecret(w: World, k: Kubeconfig, outcome: Outcome): Worker {
    if !outcome.Served? then Idle
    else if w.secret.None? then CreateSecret(k)
    else GetCsr(k, w.secret.value)
  }

  /** The CSR exists: decide by its conditions. Writing the certificate into a nil map panics. */
  function AfterFoundCsr(csr: Csr, k: Kubeconfig, secret: Secret): Worker {
    if csr.flags.denied || csr.flags.failed then Commit(CsrRefused(k))
    else if !csr.flags.approved then Idle
    else if csr.certificate.Empty? then Commit(CsrWasApproved(k))
    else if secret.data.None? then Idle
    else GetRootCa(CsrWasApproved(k), secret.WithCertificate(csr.certificate))
  }

  /** The CSR does not exist: generate a key pair, unless the algorithm is unknown, and put it into the
      copy of the secret, which panics if the map is nil. */
  function AfterMissingCsr(w: World, k: Kubeconfig, secret: Secret): (World, Worker) {
    var parameters := w.spec.csr.value;
    if !Supported(parameters.signatureAlgorithm) then (w, Idle) else
      (w.(keys := w.keys + 1),
       if secret.data.None? then Idle
       else WriteKeys(k, secret.WithKeyPair(NewKey(parameters, w.keys),
                                            NewRequest(w.spec.username, parameters, w.keys))))
  }

  function AfterGetRootCa(w: World, k: Kubeconfig, secret: Secret, outcome: Outcome): Worker {
    if !outcome.Served? || w.rootCa.None? || secret.data.None? then Idle else
      var text := KubeconfigText(w.spec, w.rootCa.value, secret.tlsKey, secret.tlsCrt);
      WriteKubeconfig(WithKubeconfig(k, text), secret.WithKubeconfig(text))
  }

  function AfterGetCrb(w: World, k: Kubeconfig, outcome: Outcome): Worker {
    if !outcome.Served? then Idle
    else if w.crb.None? then CreateCrb(k)
    else Commit(Finished(k))
  }

  function WorkStep(w: World, worker: Worker, outcome: Outcome): (World, Worker) {
    match worker
    case Idle => (w, Idle)
    case GetKubeconfig => (w, AfterGetKubeconfig(w, outcome))
    case GetSecret(k) => (w, AfterGetSecret(w, k, outcome))
    case CreateSecret(k) =>
      var w' := if Executed(outcome) then CreateSecretIn(w) else w;
      if outcome.Served? && SecretCreateAccepted(w) then (w', GetCsr(SecretCreated(k, w.name), w'.secret.value))
      else (w', Commit(SecretCreateFailed(k)))
    case GetCsr(k, secret) =>
      if !outcome.Served? then (w, Idle)
      else if w.csr.None? then AfterMissingCsr(w, k, secret)
      else (w, AfterFoundCsr(w.csr.value, k, secret))
    case WriteKeys(k, secret) =>
      (if Executed(outcome) then UpdateSecretIn(w, secret) else w,
       if outcome.Served? && SecretUpdateAccepted(w, secret) then CreateCsr(k, secret.tlsCsr) else Idle)
    case CreateCsr(k, request) =>
      (if Executed(outcome) then CreateCsrIn(w, request) else w,
       if outcome.Served? && CsrCreateAccepted(w) then Commit(CsrWasCreated(k, w.name)) else Idle)
    case GetRootCa(k, secret) => (w, AfterGetRootCa(w, k, secret, outcome))
    case WriteKubeconfig(k, secret) =>
      (if Executed(outcome) then UpdateSecretIn(w, secret) else w,
       if outcome.Served? && SecretUpdateAccepted(w, secret) then GetCrb(SecretFinished(k)) else Idle)
    case GetCrb(k) => (w, AfterGetCrb(w, k, outcome))
    case CreateCrb(k) =>
      (if Executed(outcome) then CreateCrbIn(w) else w,
       if outcome.Served? && CrbCreateAccepted(w) then Commit(Finished(k)) else Idle)
    case Commit(k) =>
      (if Executed(outcome) then UpdateStatusIn(w, k) else w, Idle)
  }

  // ----- the CSR reconciler

  function AfterReadingCsr(csr: Option<Csr>): Approver {
    if csr.None? || !IsKubeconfigCsr(csr.value) then Resting
    else if HasAutoApproveAnnotation(csr.value) && csr.value.flags.Pending() then
      if Parses(csr.value.request) then WritingApproval(csr.value)
      else WritingStatus(csr.value, csr.value.flags.With(Failed))
    else Resting
  }

  function ApprovedCopy(csr: Csr): Flags {
    csr.flags.With(Approved)
  }

  function ApproverWork(w: World, approver: Approver, outcome: Outcome): (World, Approver) {
    match approver
    case Resting => (w, Resting)
    case Reading => (w, if outcome.Served? then AfterReadingCsr(w.csr) else Resting)
    case WritingApproval(csr) =>
      (if Executed(outcome) then UpdateApprovalIn(w, csr, ApprovedCopy(csr)) else w,
       if outcome.Served? && CsrIsCurrent(w, csr) then Resting else WritingStatus(csr, ApprovedCopy(csr)))
    case WritingStatus(csr, flags) =>
      (if Executed(outcome) then UpdateCsrStatusIn(w, csr, flags) else w, Resting)
  }

  // ----- everyone else

  predicate Signable(csr: Csr) {
    csr.flags == Flags(true, false, false) && csr.certificate.Empty? && Parses(csr.request)
  }

  function AddCondition(w: World, kind: CsrConditionType): World
    requires w.csr.Some?
  {
    PutCsr(w, w.csr.value.(flags := w.csr.value.flags.With(kind)))
  }

  function OutsideStep(w: World, approver: Approver, a: OutsideAction): (World, Approver) {
    match a
    case StartApprover => (w, if approver.Resting? then Reading else approver)
    case ApproverStep(outcome) => ApproverWork(w, approver, outcome)
    case CrashApprover => (w, Resting)
    case HumanApprove =>
      (if w.csr.Some? && w.csr.value.flags.Pending() then AddCondition(w, Approved) else w, approver)
    case HumanDeny =>
      (if w.csr.Some? then AddCondition(w, Denied) else w, approver)
    case SignCsr =>
      (if w.csr.Some? && Signable(w.csr.value) then PutCsr(w, w.csr.value.(certificate := Sign(w.csr.value.request)))
       else w, approver)
    case FailCsr =>
      (if w.csr.Some? && w.csr.value.certificate.Empty? then AddCondition(w, Failed) else w, approver)
    case DeleteCsr => (w.(csr := None), approver)
    case EditCsr(owners, annotations) =>
      (if w.csr.Some? then PutCsr(w, w.csr.value.(owners := owners, annotations := annotations)) else w, approver)
    case TouchKubeconfig =>
      (w.(kubeconfig := w.kubeconfig.(version := w.revision + 1), revision := w.revision + 1), approver)
    case SetRootCa(rootCa) => (w.(rootCa := rootCa), approver)
    case PutSecret(immutable, data) =>
      (if w.secret.Some? then w else
         w.(secret := Some(Secret(w.revision + 1, immutable, data)), revision := w.revision + 1), approver)
    case PutCrb(crb) =>
      (if w.crb.Some? then w else w.(crb := Some(crb), revision := w.revision + 1), approver)
    case Elsewhere(writes, newKeys) => (w.(revision := w.revision + writes, keys := w.keys + newKeys), approver)
  }

  // ----- runs

  function Apply(s: System, a: Action): System {
    match a
    case Start => if s.worker.Idle? then s.(worker := GetKubeconfig) else s
    case Work(outcome) =>
      var (w, worker) := WorkStep(s.world, s.worker, outcome);
      System(w, worker, s.approver)
    case Crash => s.(worker := Idle)
    case Outside(o) =>
      var (w, approver) := OutsideStep(s.world, s.approver, o);
      System(w, s.worker, approver)
  }

  function Run(s: System, actions: seq<Action>): System {
    if actions == [] then s else Apply(Run(s, actions[..|actions| - 1]), actions[|actions| - 1])
  }

  lemma {:induction false} RunConcat(s: System, a: seq<Action>, b: seq<Action>)
    ensures Run(s, a + b) == Run(Run(s, a), b)
  {
    if b == [] {
      assert a + b == a;
    } else {
      var n := |b| - 1;
      RunConcat(s, a, b[..n]);
      assert (a + b)[..|a + b| - 1] == a + b[..n];
    }
  }

  lemma RunAppend(s: System, actions: seq<Action>, a: Action)
    ensures Run(s, actions + [a]) == Apply(Run(s, actions), a)
  {
    assert (actions + [a])[..|actions|] == actions;
  }

  /** Nobody deletes the CSR. */
  predicate KeepsCsr(actions: seq<Action>) {
    forall i :: 0 <= i < |actions| ==> actions[i] != Outside(DeleteCsr)
  }

  /** Where a protocol run may start: no CSR and no worker yet. The secret and the cluster role binding
      may exist with any content or without data, and the status may be anything that is not finished. */
  predicate Initial(s: System) {
    var w := s.world;
    && s.worker.Idle? && s.approver.Resting?
    && w.csr.None?
    && w.kubeconfig.version <= w.revision
    && (w.secret.Some? ==> w.secret.value.version <= w.revision)
    && !w.kubeconfig.status.Terminal() && !w.kubeconfig.status.phase.PhaseDone?
  }
}
