/** The API server with all its objects under their names, and the calls the reconcilers make: each call
    site computes the name it asks for, the server goes by that name alone, and the reconciler goes on from
    the reply alone. */
module Calls {
  import opened Wrappers
  import opened Credentials
  import opened Conditions
  import opened Objects
  import opened Acceptance
  import opened Resources
  import opened Protocol

  /** What the API server stores, by name. */
  datatype Store = Store(
    kubeconfigs: map<string, Kubeconfig>, secrets: map<string, Secret>,
    csrs: map<string, Csr>, crbs: map<string, ClusterRoleBinding>,
    rootCa: Option<Bytes>, revision: nat)

  /** Any number of kubeconfigs, each with its two workers. */
  datatype Fleet = Fleet(
    specs: map<string, AdmittedSpec>, store: Store,
    workers: map<string, Worker>, approvers: map<string, Approver>, keys: nat)
  {
    ghost predicate Valid() {
      specs.Keys == store.kubeconfigs.Keys == workers.Keys == approvers.Keys
    }
  }

  function Lookup<V>(m: map<string, V>, name: string): Option<V> {
    if name in m then Some(m[name]) else None
  }

  datatype Call =
    | NoCall
    | ReadKubeconfig(name: string)
    | WriteStatus(name: string, kubeconfig: Kubeconfig)
    | ReadSecret(name: string)
    | AddSecret(name: string, labels: Labels, secret: Secret)
    | WriteSecret(name: string, secret: Secret)
    | ReadCsr(name: string)
    | AddCsr(name: string, labels: Labels, csr: Csr)
    | WriteApproval(name: string, csr: Csr, flags: Flags)
    | WriteCsrStatus(name: string, csr: Csr, flags: Flags)
    | ReadCa
    | ReadBinding(name: string)
    | AddBinding(name: string, labels: Labels, crb: ClusterRoleBinding)

  datatype Object =
    | Nothing
    | KubeconfigObject(kubeconfig: Kubeconfig)
    | SecretObject(secret: Secret)
    | CsrObject(csr: Csr)
    | BindingObject(crb: ClusterRoleBinding)
    | CaObject(ca: Bytes)

  // ----- the server

  /** The call is a write that the server takes. */
  predicate Accepted(o: Store, call: Call) {
    match call
    case WriteStatus(name, k) => name in o.kubeconfigs && o.kubeconfigs[name].version == k.version
    case AddSecret(name, labels, _) => name !in o.secrets && labels.Valid()
    case WriteSecret(name, secret) =>
      name in o.secrets && o.secrets[name].version == secret.version && !o.secrets[name].immutable
    case AddCsr(name, labels, _) => name !in o.csrs && labels.Valid()
    case WriteApproval(name, csr, _) => name in o.csrs && o.csrs[name].version == csr.version
    case WriteCsrStatus(name, csr, flags) =>
      && name in o.csrs && o.csrs[name].version == csr.version
      && o.csrs[name].flags.approved == flags.approved && o.csrs[name].flags.denied == flags.denied
    case AddBinding(name, labels, crb) => name !in o.crbs && labels.Valid() && BindingValid(crb)
    case _ => false
  }

  /** What the write makes of the store. */
  function Written(o: Store, call: Call): Store
    requires Accepted(o, call)
  {
    var version := o.revision + 1;
    var p := o.(revision := version);
    match call
    case WriteStatus(name, k) => p.(kubeconfigs := o.kubeconfigs[name := Kubeconfig(version, k.status)])
    case AddSecret(name, _, secret) => p.(secrets := o.secrets[name := secret.(version := version)])
    case WriteSecret(name, secret) => p.(secrets := o.secrets[name := Secret(version, false, secret.data)])
    case AddCsr(name, _, csr) => p.(csrs := o.csrs[name := csr.(uid := version, version := version)])
    case WriteApproval(name, _, flags) =>
      p.(csrs := o.csrs[name := o.csrs[name].(flags := flags, version := version)])
    case WriteCsrStatus(name, _, flags) =>
      p.(csrs := o.csrs[name := o.csrs[name].(flags := flags, version := version)])
    case AddBinding(name, _, crb) => p.(crbs := o.crbs[name := crb])
  }

  function Answer(o: Store, call: Call): Reply<Object> {
    match call
    case ReadKubeconfig(name) =>
      if name in o.kubeconfigs then Found(KubeconfigObject(o.kubeconfigs[name])) else NotFound
    case ReadSecret(name) => if name in o.secrets then Found(SecretObject(o.secrets[name])) else NotFound
    case ReadCsr(name) => if name in o.csrs then Found(CsrObject(o.csrs[name])) else NotFound
    case ReadBinding(name) => if name in o.crbs then Found(BindingObject(o.crbs[name])) else NotFound
    case ReadCa => if o.rootCa.Some? then Found(CaObject(o.rootCa.value)) else NotFound
    case AddSecret(name, _, _) =>
      if Accepted(o, call) then Found(SecretObject(Written(o, call).secrets[name])) else Error
    case _ => if Accepted(o, call) then Found(Nothing) else Error
  }

  function Serve(o: Store, call: Call, outcome: Outcome): (Store, Reply<Object>) {
    (if Executed(outcome) && Accepted(o, call) then Written(o, call) else o,
     if outcome.Served? then Answer(o, call) else Error)
  }

  // ----- KubeconfigReconciler.Reconcile as a client

  /** The call a reconciler makes for the kubeconfig `n`, under the name it computes there. */
  function NextCall(n: string, spec: AdmittedSpec, worker: Worker): Call {
    match worker
    case Idle => NoCall
    case GetKubeconfig => ReadKubeconfig(n)
    case GetSecret(_) => ReadSecret(SecretName(n))
    case CreateSecret(_) => AddSecret(SecretName(n), LabelsForSubresources(n, spec), NewUserSecret(0))
    case GetCsr(_, _) => ReadCsr(n)
    case WriteKeys(_, secret) => WriteSecret(SecretName(n), secret)
    case CreateCsr(_, request) => AddCsr(n, LabelsForSubresources(n, spec), NewCsr(n, spec, request, 0))
    case GetRootCa(_, _) => ReadCa
    case WriteKubeconfig(_, secret) => WriteSecret(SecretName(n), secret)
    case GetCrb(_) => ReadBinding(BindingName(spec.username))
    case CreateCrb(_) =>
      AddBinding(BindingName(spec.username), LabelsForSubresources(n, spec), NewClusterRoleBinding(spec))
    case Commit(k) => WriteStatus(n, k)
  }

  /** Where the reconciler stands after the reply, and how many key pairs have been generated by then. */
  function Continue(n: string, spec: AdmittedSpec, keys: nat, worker: Worker, reply: Reply<Object>): (nat, Worker) {
    match worker
    case Idle => (keys, Idle)
    case GetKubeconfig =>
      if reply.Found? && reply.value.KubeconfigObject? && !reply.value.kubeconfig.status.Terminal()
      then (keys, GetSecret(reply.value.kubeconfig)) else (keys, Idle)
    case GetSecret(k) =>
      if reply.NotFound? then (keys, CreateSecret(k))
      else if reply.Found? && reply.value.SecretObject? then (keys, GetCsr(k, reply.value.secret))
      else (keys, Idle)
    case CreateSecret(k) =>
      if reply.Found? && reply.value.SecretObject? then (keys, GetCsr(SecretCreated(k, n), reply.value.secret))
      else (keys, Commit(SecretCreateFailed(k)))
    case GetCsr(k, secret) =>
      if reply.NotFound? then Generate(spec, keys, k, secret)
      else if reply.Found? && reply.value.CsrObject? then (keys, AfterFoundCsr(reply.value.csr, k, secret))
      else (keys, Idle)
    case WriteKeys(k, secret) => (keys, if reply.Found? then CreateCsr(k, secret.tlsCsr) else Idle)
    case CreateCsr(k, _) => (keys, if reply.Found? then Commit(CsrWasCreated(k, n)) else Idle)
    case GetRootCa(k, secret) =>
      if reply.Found? && reply.value.CaObject? && secret.data.Some? then
        var text := KubeconfigText(spec, reply.value.ca, secret.tlsKey, secret.tlsCrt);
        (keys, WriteKubeconfig(WithKubeconfig(k, text), secret.WithKubeconfig(text)))
      else (keys, Idle)
    case WriteKubeconfig(k, _) => (keys, if reply.Found? then GetCrb(SecretFinished(k)) else Idle)
    case GetCrb(k) =>
      (keys, if reply.NotFound? then CreateCrb(k) else if reply.Found? then Commit(Finished(k)) else Idle)
    case CreateCrb(k) => (keys, if reply.Found? then Commit(Finished(k)) else Idle)
    case Commit(_) => (keys, Idle)
  }

  function Generate(spec: AdmittedSpec, keys: nat, k: Kubeconfig, secret: Secret): (nat, Worker) {
    var parameters := spec.csr.value;
    if !Supported(parameters.signatureAlgorithm) then (keys, Idle)
    else if secret.data.None? then (keys + 1, Idle)
    else (keys + 1, WriteKeys(k, secret.WithKeyPair(NewKey(parameters, keys),
                                                    NewRequest(spec.username, parameters, keys))))
  }

  // ----- CertificateSigningRequestReconciler.Reconcile as a client

  function NextApproverCall(n: string, approver: Approver): Call {
    match approver
    case Resting => NoCall
    case Reading => ReadCsr(n)
    case WritingApproval(csr) => WriteApproval(n, csr, ApprovedCopy(csr))
    case WritingStatus(csr, flags) => WriteCsrStatus(n, csr, flags)
  }

  function ApproverContinue(approver: Approver, reply: Reply<Object>): Approver {
    match approver
    case Resting => Resting
    case Reading =>
      if reply.Found? && reply.value.CsrObject? then AfterReadingCsr(Some(reply.value.csr)) else Resting
    case WritingApproval(csr) => if reply.Found? then Resting else WritingStatus(csr, ApprovedCopy(csr))
    case WritingStatus(_, _) => Resting
  }

  // ----- everyone else

  /** What people and the signer make of a CSR, if their step is enabled. */
  function Edited(csr: Csr, o: OutsideAction): Option<Csr> {
    match o
    case HumanApprove => if csr.flags.Pending() then Some(csr.(flags := csr.flags.With(Approved))) else None
    case HumanDeny => Some(csr.(flags := csr.flags.With(Denied)))
    case SignCsr => if Signable(csr) then Some(csr.(certificate := Sign(csr.request))) else None
    case FailCsr => if csr.certificate.Empty? then Some(csr.(flags := csr.flags.With(Failed))) else None
    case EditCsr(owners, annotations) => Some(csr.(owners := owners, annotations := annotations))
    case _ => None
  }

  function EditNamedCsr(o: Store, name: string, a: OutsideAction): Store {
    if name in o.csrs && Edited(o.csrs[name], a).Some? then
      o.(csrs := o.csrs[name := Edited(o.csrs[name], a).value.(version := o.revision + 1)], revision := o.revision + 1)
    else o
  }

  /** Steps of people, the signer and garbage collection around the kubeconfig `n`. */
  function OthersAct(o: Store, n: string, username: string, a: OutsideAction): Store {
    match a
    case DeleteCsr => o.(csrs := o.csrs - {n})
    case TouchKubeconfig =>
      if n !in o.kubeconfigs then o else
        o.(kubeconfigs := o.kubeconfigs[n := o.kubeconfigs[n].(version := o.revision + 1)], revision := o.revision + 1)
    case SetRootCa(rootCa) => o.(rootCa := rootCa)
    case PutSecret(immutable, data) =>
      if SecretName(n) in o.secrets then o else
        o.(secrets := o.secrets[SecretName(n) := Secret(o.revision + 1, immutable, data)], revision := o.revision + 1)
    case PutCrb(crb) =>
      if BindingName(username) in o.crbs then o else
        o.(crbs := o.crbs[BindingName(username) := crb], revision := o.revision + 1)
    case _ => EditNamedCsr(o, n, a)
  }

  lemma NobodyAddsKubeconfigs(o: Store, call: Call, outcome: Outcome)
    ensures Serve(o, call, outcome).0.kubeconfigs.Keys == o.kubeconfigs.Keys
  {
  }

  lemma OthersAddNoKubeconfigs(o: Store, n: string, username: string, a: OutsideAction)
    ensures OthersAct(o, n, username, a).kubeconfigs.Keys == o.kubeconfigs.Keys
  {
  }

  // ----- steps

  /** The next call of the reconciler that works for `n`. */
  function WorkNamed(f: Fleet, n: string, outcome: Outcome): (g: Fleet)
    requires f.Valid() && n in f.specs
    ensures g.Valid() && g.specs == f.specs
  {
    var call := NextCall(n, f.specs[n], f.workers[n]);
    NobodyAddsKubeconfigs(f.store, call, outcome);
    var (o, reply) := Serve(f.store, call, outcome);
    var (keys, worker) := Continue(n, f.specs[n], f.keys, f.workers[n], reply);
    f.(store := o, keys := keys, workers := f.workers[n := worker])
  }

  /** The next call of the CSR reconciler that works for `n`. */
  function ApproverNamed(f: Fleet, n: string, outcome: Outcome): (g: Fleet)
    requires f.Valid() && n in f.specs
    ensures g.Valid() && g.specs == f.specs
  {
    var call := NextApproverCall(n, f.approvers[n]);
    NobodyAddsKubeconfigs(f.store, call, outcome);
    var (o, reply) := Serve(f.store, call, outcome);
    f.(store := o, approvers := f.approvers[n := ApproverContinue(f.approvers[n], reply)])
  }

  /** A step of, or around, one kubeconfig. */
  function Step(f: Fleet, n: string, a: Action): (g: Fleet)
    requires f.Valid() && n in f.specs
    ensures g.Valid() && g.specs == f.specs
  {
    match a
    case Start => if f.workers[n].Idle? then f.(workers := f.workers[n := GetKubeconfig]) else f
    case Crash => f.(workers := f.workers[n := Idle])
    case Work(outcome) => WorkNamed(f, n, outcome)
    case Outside(b) => OutsideNamed(f, n, b)
  }

  function OutsideNamed(f: Fleet, n: string, a: OutsideAction): (g: Fleet)
    requires f.Valid() && n in f.specs
    ensures g.Valid() && g.specs == f.specs
  {
    match a
    case StartApprover => if f.approvers[n].Resting? then f.(approvers := f.approvers[n := Reading]) else f
    case CrashApprover => f.(approvers := f.approvers[n := Resting])
    case ApproverStep(outcome) => ApproverNamed(f, n, outcome)
    case Elsewhere(writes, newKeys) =>
      f.(store := f.store.(revision := f.store.revision + writes), keys := f.keys + newKeys)
    case _ =>
      OthersAddNoKubeconfigs(f.store, n, f.specs[n].username, a);
      f.(store := OthersAct(f.store, n, f.specs[n].username, a))
  }

  // ----- what a step can touch

  /** The objects of two stores agree except under names derived for the kubeconfig `n` of this user. */
  ghost predicate AgreeElsewhere(o: Store, p: Store, n: string, username: string) {
    && (forall x :: x != SecretName(n) ==> Lookup(p.secrets, x) == Lookup(o.secrets, x))
    && (forall x :: x != n ==> Lookup(p.csrs, x) == Lookup(o.csrs, x))
    && (forall x :: x != BindingName(username) ==> Lookup(p.crbs, x) == Lookup(o.crbs, x))
    && (forall x :: x != n ==> Lookup(p.kubeconfigs, x) == Lookup(o.kubeconfigs, x))
  }

  /** The call goes under the name that is derived for objects of its kind. */
  predicate NamedAfter(call: Call, n: string, username: string) {
    && (call.AddSecret? || call.WriteSecret? ==> call.name == n + "-client-cert")
    && (call.AddCsr? || call.WriteApproval? || call.WriteCsrStatus? ==> call.name == n)
    && (call.AddBinding? ==> call.name == username + "-kubeconfig")
    && (call.WriteStatus? ==> call.name == n)
  }

  /** The server touches nothing but what the call names. */
  lemma ServedCallTouchesOnlyItsName(o: Store, call: Call, outcome: Outcome, n: string, username: string)
    requires NamedAfter(call, n, username)
    ensures AgreeElsewhere(o, Serve(o, call, outcome).0, n, username)
  {
  }

  lemma CallsAreNamedAfter(n: string, spec: AdmittedSpec, worker: Worker, approver: Approver)
    ensures NamedAfter(NextCall(n, spec, worker), n, spec.username)
    ensures NamedAfter(NextApproverCall(n, approver), n, spec.username)
  {
  }

  lemma OthersTouchOnlyTheirs(o: Store, n: string, username: string, a: OutsideAction)
    ensures AgreeElsewhere(o, OthersAct(o, n, username, a), n, username)
  {
  }

  /** Objects that do not bear a name derived from `n` are not touched by a step for `n`: not those of
      other kubeconfigs, and not those of anybody else. */
  lemma StepTouchesOnlyItsOwn(f: Fleet, n: string, a: Action)
    requires f.Valid() && n in f.specs
    ensures AgreeElsewhere(f.store, Step(f, n, a).store, n, f.specs[n].username)
  {
    var username := f.specs[n].username;
    CallsAreNamedAfter(n, f.specs[n], f.workers[n], f.approvers[n]);
    match a
    case Work(outcome) =>
      ServedCallTouchesOnlyItsName(f.store, NextCall(n, f.specs[n], f.workers[n]), outcome, n, username);
    case Outside(b) =>
      if b.ApproverStep? {
        ServedCallTouchesOnlyItsName(f.store, NextApproverCall(n, f.approvers[n]), b.outcome, n, username);
      } else {
        OthersTouchOnlyTheirs(f.store, n, username, b);
      }
    case _ =>
  }
}
