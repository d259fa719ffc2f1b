/** What holds in every reachable state of the protocol, whatever fails, crashes or interferes. */
module Safety {
  import opened Wrappers
  import opened Credentials
  import opened Document
  import opened Conditions
  import opened Objects
  import opened Acceptance
  import opened Resources
  import opened Protocol

  // ----- vocabulary

  /** A key and a request that createCSR made together for this spec. */
  predicate IssuedPair(spec: AdmittedSpec, key: Bytes, request: Bytes) {
    && key.KeyPem?
    && key == NewKey(spec.csr.value, key.key)
    && request == NewRequest(spec.username, spec.csr.value, key.key)
  }

  /** The secret's certificate was issued for its own request, and the request was made with its own key. */
  predicate Certified(spec: AdmittedSpec, secret: Secret) {
    IssuedPair(spec, secret.tlsKey, secret.tlsCsr) && secret.tlsCrt == Sign(secret.tlsCsr)
  }

  ghost predicate IsKubeconfigText(spec: AdmittedSpec, text: Text, key: Bytes, crt: Bytes) {
    exists ca :: text == KubeconfigText(spec, ca, key, crt)
  }

  /** The secret is complete, and `text` is the kubeconfig it holds, written by the spec `writer`. */
  ghost predicate Delivered(w: World, writer: AdmittedSpec, text: Option<Text>) {
    && w.secret.Some? && Certified(w.spec, w.secret.value)
    && text.Some? && w.secret.value.kubeconfig == text
    && IsKubeconfigText(writer, text.value, w.secret.value.tlsKey, w.secret.value.tlsCrt)
  }

  predicate ApprovedOrGone(w: World) {
    w.csr.Some? ==> w.csr.value.flags.approved
  }

  predicate DecidedOrGone(w: World) {
    w.csr.Some? ==> w.csr.value.flags.Decided()
  }

  predicate Open(status: KubeconfigStatus) {
    !status.Terminal() && !status.phase.PhaseDone?
  }

  /** Phase and conditions tell the same story. */
  predicate Coherent(status: KubeconfigStatus) {
    && (status.phase.PhaseDone? <==> status.Is(KubeconfigFinished, True))
    && (status.Is(KubeconfigFinished, True) ==> status.Is(CSRApproved, True) && status.Is(UserSecretFinished, True))
    && (status.Is(KubeconfigFinished, False) ==> status.Is(CSRApproved, False) && status.phase.PhaseFailed?)
  }

  /** `status` may be the persisted status of the world `w`. */
  ghost predicate Settled(w: World, writer: AdmittedSpec, status: KubeconfigStatus) {
    && Coherent(status)
    && (status.Is(KubeconfigFinished, True) ==>
          Delivered(w, writer, status.kubeconfig) && w.crb.Some? && ApprovedOrGone(w))
    && (status.Terminal() ==> DecidedOrGone(w) && w.secret.Some?)
  }

  // ----- the invariant

  predicate VersionsOk(w: World) {
    && w.kubeconfig.version <= w.revision
    && (w.secret.Some? ==> w.secret.value.version <= w.revision)
    && (w.csr.Some? ==> w.csr.value.uid <= w.csr.value.version <= w.revision)
  }

  /** Secret before CSR: an existing CSR carries the request of the stored secret, whose key it pairs with. */
  predicate CsrMatchesSecret(w: World) {
    w.csr.Some? ==>
      && w.secret.Some? && w.secret.value.Usable()
      && IssuedPair(w.spec, w.secret.value.tlsKey, w.secret.value.tlsCsr)
      && w.csr.value.request == w.secret.value.tlsCsr
      && (w.csr.value.certificate.Empty?
          || (w.csr.value.flags.approved && w.csr.value.certificate == Sign(w.secret.value.tlsCsr)))
  }

  /** The copy of the secret that is about to be written differs from the stored one in the certificate
      and the kubeconfig only. */
  predicate CertifiesStored(w: World, secret: Secret) {
    && w.secret.Some? && Certified(w.spec, secret)
    && secret.tlsKey == w.secret.value.tlsKey && secret.tlsCsr == w.secret.value.tlsCsr
  }

  /** The worker goes by the spec `reader`, and the kubeconfig in the secret was written by `writer`. */
  ghost predicate WorkerOk(w: World, reader: AdmittedSpec, writer: AdmittedSpec, worker: Worker) {
    match worker
    case Idle => true
    case GetKubeconfig => true
    case GetSecret(k) => Open(k.status)
    case CreateSecret(k) => Open(k.status)
    case GetCsr(k, secret) => Open(k.status) && w.secret == Some(secret)
    case WriteKeys(k, secret) =>
      && Open(k.status) && w.csr.None? && IssuedPair(reader, secret.tlsKey, secret.tlsCsr)
      && w.secret.Some? && w.secret.value.data.Some? && w.secret.value.tlsCrt == secret.tlsCrt
    case CreateCsr(k, request) =>
      && Open(k.status) && w.csr.None?
      && w.secret.Some? && w.secret.value.Usable() && w.secret.value.tlsCsr == request
      && IssuedPair(w.spec, w.secret.value.tlsKey, request)
    case GetRootCa(k, secret) =>
      Open(k.status) && k.status.Is(CSRApproved, True) && CertifiesStored(w, secret) && ApprovedOrGone(w)
    case WriteKubeconfig(k, secret) =>
      && Open(k.status) && k.status.Is(CSRApproved, True) && CertifiesStored(w, secret) && ApprovedOrGone(w)
      && k.status.kubeconfig.Some? && k.status.kubeconfig == secret.kubeconfig
      && IsKubeconfigText(reader, k.status.kubeconfig.value, secret.tlsKey, secret.tlsCrt)
    case GetCrb(k) =>
      && Open(k.status) && k.status.Is(CSRApproved, True) && k.status.Is(UserSecretFinished, True)
      && Delivered(w, writer, k.status.kubeconfig) && ApprovedOrGone(w) && reader == writer
    case CreateCrb(k) =>
      && Open(k.status) && k.status.Is(CSRApproved, True) && k.status.Is(UserSecretFinished, True)
      && Delivered(w, writer, k.status.kubeconfig) && ApprovedOrGone(w) && reader == writer
    case Commit(k) => Settled(w, writer, k.status) && (k.status.Is(KubeconfigFinished, True) ==> reader == writer)
  }

  /** The approver's copy was pending, owned and annotated when it was read; if nobody wrote the CSR
      since, the stored CSR still is that copy. */
  predicate CopyOk(w: World, copy: Csr) {
    && copy.version <= w.revision
    && IsKubeconfigCsr(copy) && HasAutoApproveAnnotation(copy) && copy.flags.Pending()
    && (CsrIsCurrent(w, copy) ==> w.csr.value == copy)
  }

  predicate ApproverOk(w: World, approver: Approver) {
    match approver
    case Resting => true
    case Reading => true
    case WritingApproval(copy) => CopyOk(w, copy) && Parses(copy.request)
    case WritingStatus(copy, flags) =>
      && CopyOk(w, copy)
      && (flags == copy.flags.With(Approved) || (flags == copy.flags.With(Failed) && !Parses(copy.request)))
  }

  /** The part that holds for any CSR, also one the operator did not make. */
  predicate ApproverInv(s: System) {
    VersionsOk(s.world) && ApproverOk(s.world, s.approver)
  }

  /** `s.world.spec` is the spec that the key pair in the secret was made by. */
  ghost predicate InvBy(s: System, reader: AdmittedSpec, writer: AdmittedSpec) {
    && ApproverInv(s)
    && CsrMatchesSecret(s.world)
    && Settled(s.world, writer, s.world.kubeconfig.status)
    && (s.worker.Idle? || s.worker.GetKubeconfig? || !s.world.kubeconfig.status.Terminal())
    && WorkerOk(s.world, reader, writer, s.worker)
  }

  /** The spec is frozen, so it is the one everything was made by. */
  ghost predicate Inv(s: System) {
    InvBy(s, s.world.spec, s.world.spec)
  }

  // ----- preservation

  /** One CSR over time: the same object and request, conditions only added, and a certificate that is
      issued at most once and for this request. */
  predicate CsrGrows(before: Csr, after: Csr) {
    && after.uid == before.uid && after.request == before.request
    && (before.flags.approved ==> after.flags.approved)
    && (before.flags.denied ==> after.flags.denied)
    && (before.flags.failed ==> after.flags.failed)
    && (after.certificate == before.certificate
        || (before.certificate.Empty? && before.flags == Flags(true, false, false) && Parses(before.request)
            && after.flags == before.flags && after.certificate == Sign(before.request)))
  }

  /** What outsiders leave alone, and how the CSR may move. */
  predicate OutsideEffect(v: World, w: World) {
    && w.name == v.name && w.spec == v.spec
    && (v.secret.Some? ==> w.secret == v.secret) && (v.crb.Some? ==> w.crb == v.crb)
    && w.kubeconfig.status == v.kubeconfig.status
    && w.revision >= v.revision
    && (w.csr.Some? ==> v.csr.Some? && CsrGrows(v.csr.value, w.csr.value))
  }

  lemma ApproverWorkEffect(w: World, approver: Approver, outcome: Outcome)
    requires VersionsOk(w) && ApproverOk(w, approver)
    ensures var (w', approver') := ApproverWork(w, approver, outcome);
      OutsideEffect(w, w') && VersionsOk(w') && ApproverOk(w', approver')
  {
  }

  lemma PutCsrEffect(w: World, approver: Approver, csr: Csr)
    requires VersionsOk(w) && ApproverOk(w, approver) && w.csr.Some? && CsrGrows(w.csr.value, csr)
    ensures OutsideEffect(w, PutCsr(w, csr)) && VersionsOk(PutCsr(w, csr)) && ApproverOk(PutCsr(w, csr), approver)
  {
  }

  lemma PeopleEffect(w: World, approver: Approver, o: OutsideAction)
    requires VersionsOk(w) && ApproverOk(w, approver)
    requires o.HumanApprove? || o.HumanDeny? || o.EditCsr?
    ensures var (w', approver') := OutsideStep(w, approver, o);
      OutsideEffect(w, w') && VersionsOk(w') && ApproverOk(w', approver')
  {
    if w.csr.Some? {
      var csr := w.csr.value;
      match o
      case HumanApprove => PutCsrEffect(w, approver, csr.(flags := csr.flags.With(Approved)));
      case HumanDeny => PutCsrEffect(w, approver, csr.(flags := csr.flags.With(Denied)));
      case EditCsr(owners, annotations) =>
        PutCsrEffect(w, approver, csr.(owners := owners, annotations := annotations));
    }
  }

  lemma SignerEffect(w: World, approver: Approver, o: OutsideAction)
    requires VersionsOk(w) && ApproverOk(w, approver)
    requires o.SignCsr? || o.FailCsr?
    ensures var (w', approver') := OutsideStep(w, approver, o);
      OutsideEffect(w, w') && VersionsOk(w') && ApproverOk(w', approver')
  {
    if w.csr.Some? {
      var csr := w.csr.value;
      if o.FailCsr? {
        PutCsrEffect(w, approver, csr.(flags := csr.flags.With(Failed)));
      } else if Signable(csr) {
        PutCsrEffect(w, approver, csr.(certificate := Sign(csr.request)));
      }
    }
  }

  lemma ElsewhereEffect(w: World, approver: Approver, o: OutsideAction)
    requires VersionsOk(w) && ApproverOk(w, approver)
    requires !o.ApproverStep? && !o.HumanApprove? && !o.HumanDeny? && !o.EditCsr? && !o.SignCsr? && !o.FailCsr?
    ensures var (w', approver') := OutsideStep(w, approver, o);
      OutsideEffect(w, w') && VersionsOk(w') && ApproverOk(w', approver')
  {
  }

  lemma OutsideStepEffect(w: World, approver: Approver, o: OutsideAction)
    requires VersionsOk(w) && ApproverOk(w, approver)
    ensures var (w', approver') := OutsideStep(w, approver, o);
      OutsideEffect(w, w') && VersionsOk(w') && ApproverOk(w', approver')
  {
    match o
    case ApproverStep(outcome) => ApproverWorkEffect(w, approver, outcome);
    case HumanApprove => PeopleEffect(w, approver, o);
    case HumanDeny => PeopleEffect(w, approver, o);
    case EditCsr(_, _) => PeopleEffect(w, approver, o);
    case SignCsr => SignerEffect(w, approver, o);
    case FailCsr => SignerEffect(w, approver, o);
    case _ => ElsewhereEffect(w, approver, o);
  }

  /** The reconciler writes nothing of an existing CSR. */
  lemma WorkStepEffect(w: World, worker: Worker, outcome: Outcome)
    requires VersionsOk(w)
    ensures var w' := WorkStep(w, worker, outcome).0;
      && VersionsOk(w') && w.revision <= w'.revision && w'.name == w.name && w'.spec == w.spec
      && (w'.csr == w.csr
          || (w.csr.None? && w'.csr == Some(NewCsr(w.name, w.spec, w'.csr.value.request, w.revision + 1))))
  {
  }

  lemma CopiesStayOk(v: World, w: World, approver: Approver)
    requires VersionsOk(v) && ApproverOk(v, approver) && v.revision <= w.revision
    requires w.csr == v.csr || (w.csr.Some? && w.csr.value.version == v.revision + 1)
    ensures ApproverOk(w, approver)
  {
  }

  lemma StepKeepsApproverInv(s: System, a: Action)
    requires ApproverInv(s)
    ensures ApproverInv(Apply(s, a))
  {
    match a
    case Outside(o) => OutsideStepEffect(s.world, s.approver, o);
    case Work(outcome) =>
      WorkStepEffect(s.world, s.worker, outcome);
      CopiesStayOk(s.world, Apply(s, a).world, s.approver);
    case _ =>
  }

  lemma OutsideKeepsInv(s: System, o: OutsideAction)
    requires Inv(s)
    ensures Inv(Apply(s, Outside(o)))
  {
    OutsideStepEffect(s.world, s.approver, o);
    EffectKeepsInv(s, Apply(s, Outside(o)), s.world.spec, s.world.spec);
  }

  /** Whoever acts outside keeps the invariant, by what the step leaves alone. */
  lemma EffectKeepsInv(s: System, t: System, reader: AdmittedSpec, writer: AdmittedSpec)
    requires InvBy(s, reader, writer) && OutsideEffect(s.world, t.world) && t.worker == s.worker && ApproverInv(t)
    ensures InvBy(t, reader, writer)
  {
    EffectKeepsWorkerOk(s.world, t.world, reader, writer, s.worker);
  }

  lemma EffectKeepsWorkerOk(v: World, w: World, reader: AdmittedSpec, writer: AdmittedSpec, worker: Worker)
    requires OutsideEffect(v, w)
    ensures CsrMatchesSecret(v) ==> CsrMatchesSecret(w)
    ensures WorkerOk(v, reader, writer, worker) ==> WorkerOk(w, reader, writer, worker)
    ensures forall status :: Settled(v, writer, status) ==> Settled(w, writer, status)
  {
  }

  /** The worker's call, if it goes by the spec `reader`. */
  function GoingBy(s: System, reader: AdmittedSpec): System {
    s.(world := s.world.(spec := reader))
  }

  function WorkBy(s: System, reader: AdmittedSpec, outcome: Outcome): System {
    GoingBy(Apply(GoingBy(s, reader), Work(outcome)), s.world.spec)
  }

  /** The worker's call is an accepted write of the secret. */
  predicate SecretWritten(s: System, outcome: Outcome) {
    && (s.worker.WriteKeys? || s.worker.WriteKubeconfig?)
    && Executed(outcome) && SecretUpdateAccepted(s.world, s.worker.secret)
  }

  lemma ReadKeepsInv(s: System, reader: AdmittedSpec, writer: AdmittedSpec, outcome: Outcome)
    requires InvBy(s, reader, writer)
    requires s.worker.Idle? || s.worker.GetKubeconfig? || s.worker.GetSecret? || s.worker.GetCrb?
    ensures InvBy(WorkBy(s, reader, outcome), reader, writer)
  {
    StepKeepsApproverInv(GoingBy(s, reader), Work(outcome));
  }

  lemma ReadCaKeepsInv(s: System, reader: AdmittedSpec, writer: AdmittedSpec, outcome: Outcome)
    requires InvBy(s, reader, writer) && s.worker.GetRootCa?
    ensures InvBy(WorkBy(s, reader, outcome), reader, writer)
  {
    StepKeepsApproverInv(GoingBy(s, reader), Work(outcome));
  }

  lemma FoundCsrKeepsInv(s: System, reader: AdmittedSpec, writer: AdmittedSpec, outcome: Outcome)
    requires InvBy(s, reader, writer) && s.worker.GetCsr? && s.world.csr.Some?
    ensures InvBy(WorkBy(s, reader, outcome), reader, writer)
  {
    StepKeepsApproverInv(GoingBy(s, reader), Work(outcome));
  }

  lemma MissingCsrKeepsInv(s: System, reader: AdmittedSpec, writer: AdmittedSpec, outcome: Outcome)
    requires InvBy(s, reader, writer) && s.worker.GetCsr? && s.world.csr.None?
    ensures InvBy(WorkBy(s, reader, outcome), reader, writer)
  {
    StepKeepsApproverInv(GoingBy(s, reader), Work(outcome));
  }

  lemma CreateSecretKeepsInv(s: System, reader: AdmittedSpec, writer: AdmittedSpec, outcome: Outcome)
    requires InvBy(s, reader, writer) && s.worker.CreateSecret?
    ensures InvBy(WorkBy(s, reader, outcome), reader, writer)
  {
    StepKeepsApproverInv(GoingBy(s, reader), Work(outcome));
  }

  /** A new key pair is written while there is no CSR, and then it is the reader's. */
  lemma WriteKeysKeepsInv(s: System, reader: AdmittedSpec, writer: AdmittedSpec, outcome: Outcome)
    requires InvBy(s, reader, writer) && s.worker.WriteKeys?
    ensures var t := WorkBy(s, reader, outcome);
      InvBy(if SecretWritten(s, outcome) then GoingBy(t, reader) else t, reader, writer)
  {
    StepKeepsApproverInv(GoingBy(s, reader), Work(outcome));
  }

  /** The new CSR carries the request that was stored before. */
  lemma CreateCsrKeepsInv(s: System, reader: AdmittedSpec, writer: AdmittedSpec, outcome: Outcome)
    requires InvBy(s, reader, writer) && s.worker.CreateCsr?
    ensures InvBy(WorkBy(s, reader, outcome), reader, writer)
  {
    StepKeepsApproverInv(GoingBy(s, reader), Work(outcome));
  }

  /** The certificate goes next to the key it was issued for, and the kubeconfig is the reader's. */
  lemma WriteKubeconfigKeepsInv(s: System, reader: AdmittedSpec, writer: AdmittedSpec, outcome: Outcome)
    requires InvBy(s, reader, writer) && s.worker.WriteKubeconfig?
    ensures InvBy(WorkBy(s, reader, outcome), reader, if SecretWritten(s, outcome) then reader else writer)
  {
    StepKeepsApproverInv(GoingBy(s, reader), Work(outcome));
  }

  lemma CreateCrbKeepsInv(s: System, reader: AdmittedSpec, writer: AdmittedSpec, outcome: Outcome)
    requires InvBy(s, reader, writer) && s.worker.CreateCrb?
    ensures InvBy(WorkBy(s, reader, outcome), reader, writer)
  {
    var w := GoingBy(s, reader).world;
    var created := Executed(outcome) && CrbCreateAccepted(w);
    var found := outcome.Served? && CrbCreateAccepted(w);
    BoundKeepsInv(s, reader, writer, created, found);
    assert WorkBy(s, reader, outcome) == Bound(s, reader, created, found);
  }

  function Bound(s: System, reader: AdmittedSpec, created: bool, found: bool): System
    requires s.worker.CreateCrb?
  {
    System(if created then s.world.(crb := Some(NewClusterRoleBinding(reader)), revision := s.world.revision + 1)
           else s.world,
           if found then Commit(Finished(s.worker.kubeconfig)) else Idle, s.approver)
  }

  lemma BoundKeepsInv(s: System, reader: AdmittedSpec, writer: AdmittedSpec, created: bool, found: bool)
    requires InvBy(s, reader, writer) && s.worker.CreateCrb? && (found ==> created)
    ensures InvBy(Bound(s, reader, created, found), reader, writer)
  {
  }

  lemma CommitKeepsInv(s: System, reader: AdmittedSpec, writer: AdmittedSpec, outcome: Outcome)
    requires InvBy(s, reader, writer) && s.worker.Commit?
    ensures InvBy(WorkBy(s, reader, outcome), reader, writer)
  {
    var t := WorkBy(s, reader, outcome);
    assert t == System(if Executed(outcome) then UpdateStatusIn(s.world, s.worker.kubeconfig) else s.world,
                       Idle, s.approver);
    StatusKeepsInv(s, reader, writer);
    StepKeepsApproverInv(s, Crash);
  }

  lemma StatusKeepsInv(s: System, reader: AdmittedSpec, writer: AdmittedSpec)
    requires InvBy(s, reader, writer) && s.worker.Commit?
    ensures InvBy(System(UpdateStatusIn(s.world, s.worker.kubeconfig), Idle, s.approver), reader, writer)
  {
  }

  /** Every call keeps the invariant. A written key pair is the reader's from then on, and so is a written
      kubeconfig. */
  lemma WorkByKeepsInv(s: System, reader: AdmittedSpec, writer: AdmittedSpec, outcome: Outcome)
    requires InvBy(s, reader, writer)
    ensures InvBy(if s.worker.WriteKeys? && SecretWritten(s, outcome) then GoingBy(WorkBy(s, reader, outcome), reader)
                  else WorkBy(s, reader, outcome),
                  reader, if s.worker.WriteKubeconfig? && SecretWritten(s, outcome) then reader else writer)
  {
    match s.worker
    case GetCsr(_, _) =>
      if s.world.csr.Some? {
        FoundCsrKeepsInv(s, reader, writer, outcome);
      } else {
        MissingCsrKeepsInv(s, reader, writer, outcome);
      }
    case CreateSecret(_) => CreateSecretKeepsInv(s, reader, writer, outcome);
    case WriteKeys(_, _) => WriteKeysKeepsInv(s, reader, writer, outcome);
    case CreateCsr(_, _) => CreateCsrKeepsInv(s, reader, writer, outcome);
    case GetRootCa(_, _) => ReadCaKeepsInv(s, reader, writer, outcome);
    case WriteKubeconfig(_, _) => WriteKubeconfigKeepsInv(s, reader, writer, outcome);
    case CreateCrb(_) => CreateCrbKeepsInv(s, reader, writer, outcome);
    case Commit(_) => CommitKeepsInv(s, reader, writer, outcome);
    case _ => ReadKeepsInv(s, reader, writer, outcome);
  }

  lemma FrozenSpec(s: System, outcome: Outcome)
    ensures WorkBy(s, s.world.spec, outcome) == Apply(s, Work(outcome))
    ensures GoingBy(Apply(s, Work(outcome)), s.world.spec) == Apply(s, Work(outcome))
  {
    WorkKeepsSpec(s.world, s.worker, outcome);
    assert GoingBy(s, s.world.spec) == s;
  }

  lemma WorkKeepsSpec(w: World, worker: Worker, outcome: Outcome)
    ensures WorkStep(w, worker, outcome).0.spec == w.spec
  {
  }

  lemma WorkKeepsInv(s: System, outcome: Outcome)
    requires Inv(s)
    ensures Inv(Apply(s, Work(outcome)))
  {
    FrozenSpec(s, outcome);
    WorkByKeepsInv(s, s.world.spec, s.world.spec, outcome);
  }

  /** Before the end the binding does not matter. */
  lemma BindingIsFree(s: System, reader: AdmittedSpec, writer: AdmittedSpec, crb: Option<ClusterRoleBinding>)
    requires InvBy(s, reader, writer) && !s.world.kubeconfig.status.Terminal() && !s.worker.Commit?
    ensures InvBy(s.(world := s.world.(crb := crb)), reader, writer)
  {
  }

  lemma StepKeepsInv(s: System, a: Action)
    requires Inv(s)
    ensures Inv(Apply(s, a))
  {
    match a
    case Start =>
    case Work(outcome) => WorkKeepsInv(s, outcome);
    case Crash =>
    case Outside(o) => OutsideKeepsInv(s, o);
  }

  lemma {:induction false} RunKeepsInv(s: System, actions: seq<Action>)
    requires Inv(s)
    ensures Inv(Run(s, actions))
  {
    if actions != [] {
      var n := |actions| - 1;
      RunKeepsInv(s, actions[..n]);
      StepKeepsInv(Run(s, actions[..n]), actions[n]);
    }
  }

  lemma InitialInv(s: System)
    requires Initial(s)
    ensures Inv(s)
  {
  }

  // ----- main results

  /** In every reachable state an existing CSR was made from the stored secret: same request, and the
      stored key pairs with it. */
  lemma KeyMatchesRequest(s0: System, actions: seq<Action>)
    requires Initial(s0)
    ensures var w := Run(s0, actions).world;
      w.csr.Some? ==>
        && w.secret.Some?
        && Pairs(w.secret.value.tlsKey, w.secret.value.tlsCsr)
        && w.csr.value.request == w.secret.value.tlsCsr
        && w.csr.value.request.request.algorithm == s0.world.spec.csr.value.signatureAlgorithm
        && w.csr.value.request.request.fields == s0.world.spec.csr.value.additionalFields
        && w.csr.value.request.request.commonName == s0.world.spec.username
        && (w.csr.value.certificate.Empty? || w.csr.value.certificate == Sign(w.secret.value.tlsCsr))
  {
    BindingHistory(s0, actions);
    InitialInv(s0);
    RunKeepsInv(s0, actions);
  }

  /** The persisted status never contradicts itself. */
  lemma StatusIsCoherent(s0: System, actions: seq<Action>)
    requires Initial(s0)
    ensures Coherent(Run(s0, actions).world.kubeconfig.status)
  {
    InitialInv(s0);
    RunKeepsInv(s0, actions);
  }

  /** The binding that this step puts under the name on behalf of somebody else, if the name is free. */
  function ForeignBindingOf(a: Action): Option<ClusterRoleBinding> {
    match a
    case Outside(PutCrb(crb)) => Some(crb)
    case _ => None
  }

  lemma BindingStep(s: System, a: Action)
    ensures var v, w := s.world, Apply(s, a).world;
      && w.spec == v.spec && w.name == v.name
      && (v.crb.Some? ==> w.crb == v.crb)
      && (v.crb.None? && ForeignBindingOf(a).Some? ==> w.crb == ForeignBindingOf(a))
      && (v.crb.None? && ForeignBindingOf(a).None? && w.crb.Some? ==>
            BindingAccepted(w.name, w.spec) && w.crb.value == NewClusterRoleBinding(w.spec))
  {
  }

  /** The binding that somebody else put under the name while it was free, before the start or later. */
  function ForeignBinding(s0: System, actions: seq<Action>): Option<ClusterRoleBinding> {
    if actions == [] then s0.world.crb else
      var n := |actions| - 1;
      var earlier := ForeignBinding(s0, actions[..n]);
      if Run(s0, actions[..n]).world.crb.Some? then earlier else ForeignBindingOf(actions[n])
  }

  /** A binding is never replaced: it is the foreign one, or the one made for this spec. */
  lemma {:induction false} BindingHistory(s0: System, actions: seq<Action>)
    ensures var w, foreign := Run(s0, actions).world, ForeignBinding(s0, actions);
      && w.spec == s0.world.spec && w.name == s0.world.name
      && (foreign.Some? ==> w.crb == foreign)
      && (s0.world.crb.Some? ==> foreign == s0.world.crb)
      && (foreign.None? && w.crb.Some? ==>
            BindingAccepted(w.name, w.spec) && w.crb.value == NewClusterRoleBinding(w.spec))
  {
    if actions != [] {
      var n := |actions| - 1;
      BindingHistory(s0, actions[..n]);
      BindingStep(Run(s0, actions[..n]), actions[n]);
    }
  }

  /** The kubeconfig in the status is the one in the secret, and whoever follows its references arrives
      at the server of the spec with the key of the secret and a certificate that was signed for that very
      key, in the name of the user and with the algorithm and the subject fields of the spec. */
  ghost predicate GivesAccess(w: World) {
    && w.secret.Some? && w.kubeconfig.status.kubeconfig.Some?
    && var secret, text := w.secret.value, w.kubeconfig.status.kubeconfig.value;
      && secret.kubeconfig == Some(text)
      && Pairs(secret.tlsKey, secret.tlsCsr)
      && secret.tlsCrt == Sign(secret.tlsCsr)
      && secret.tlsCsr.request.commonName == w.spec.username
      && secret.tlsCsr.request.algorithm == w.spec.csr.value.signatureAlgorithm
      && secret.tlsCsr.request.fields == w.spec.csr.value.additionalFields
      && exists ca :: GrantsAccess(text, Access(w.spec.cluster.value.server, "default",
                                                Base64(ca), Base64(secret.tlsCrt), Base64(secret.tlsKey)))
  }

  lemma FinishedGivesAccess(s: System)
    requires Inv(s) && s.world.kubeconfig.status.Is(KubeconfigFinished, True)
    ensures GivesAccess(s.world)
  {
    var w := s.world;
    var secret := w.secret.value;
    var ca :| w.kubeconfig.status.kubeconfig.value == KubeconfigText(w.spec, ca, secret.tlsKey, secret.tlsCrt);
    ReferencesClose(w.spec, ca, secret.tlsKey, secret.tlsCrt);
  }

  // ----- the cluster CA in a kubeconfig

  /** The cluster CAs that were published in the course of a run. */
  function PublishedCas(s0: System, actions: seq<Action>): set<Bytes> {
    var rootCa := Run(s0, actions).world.rootCa;
    (if rootCa.Some? then {rootCa.value} else {})
    + if actions == [] then {} else PublishedCas(s0, actions[..|actions| - 1])
  }

  lemma {:induction false} PublishedAtSomeTime(s0: System, actions: seq<Action>, ca: Bytes) returns (i: nat)
    requires ca in PublishedCas(s0, actions)
    ensures i <= |actions| && Run(s0, actions[..i]).world.rootCa == Some(ca)
  {
    var n := |actions|;
    if Run(s0, actions).world.rootCa == Some(ca) {
      i := n;
      assert actions[..n] == actions;
    } else {
      i := PublishedAtSomeTime(s0, actions[..n - 1], ca);
      assert actions[..n - 1][..i] == actions[..i];
    }
  }

  /** The authority at the end of the references of the kubeconfig is one of these CAs. */
  ghost predicate Trusts(text: Option<Text>, cas: set<Bytes>) {
    && text.Some? && Parse(text.value).Success? && Resolve(Parse(text.value).value).Some?
    && exists ca :: ca in cas && Resolve(Parse(text.value).value).value.authority == Base64(ca)
  }

  ghost predicate TrustsPublished(status: KubeconfigStatus, worker: Worker, cas: set<Bytes>) {
    && (status.Is(KubeconfigFinished, True) ==> Trusts(status.kubeconfig, cas))
    && match worker
       case Idle => true
       case GetKubeconfig => true
       case WriteKubeconfig(k, _) => Trusts(k.status.kubeconfig, cas)
       case GetCrb(k) => Trusts(k.status.kubeconfig, cas)
       case CreateCrb(k) => Trusts(k.status.kubeconfig, cas)
       case Commit(k) => k.status.Is(KubeconfigFinished, True) ==> Trusts(k.status.kubeconfig, cas)
       case _ => !worker.kubeconfig.status.Is(KubeconfigFinished, True)
  }

  lemma WorkTrustsPublished(w: World, worker: Worker, outcome: Outcome, cas: set<Bytes>)
    requires TrustsPublished(w.kubeconfig.status, worker, cas) && (w.rootCa.Some? ==> w.rootCa.value in cas)
    ensures var (w', worker') := WorkStep(w, worker, outcome); TrustsPublished(w'.kubeconfig.status, worker', cas)
  {
    if worker.GetRootCa? && w.rootCa.Some? {
      ReferencesClose(w.spec, w.rootCa.value, worker.secret.tlsKey, worker.secret.tlsCrt);
    }
  }

  lemma OthersLeaveStatus(w: World, approver: Approver, o: OutsideAction)
    ensures OutsideStep(w, approver, o).0.kubeconfig.status == w.kubeconfig.status
  {
  }

  lemma MorePublished(status: KubeconfigStatus, worker: Worker, cas: set<Bytes>, more: set<Bytes>)
    requires TrustsPublished(status, worker, cas) && cas <= more
    ensures TrustsPublished(status, worker, more)
  {
  }

  lemma {:induction false} RunTrustsPublished(s0: System, actions: seq<Action>)
    requires Initial(s0)
    ensures var s := Run(s0, actions);
      TrustsPublished(s.world.kubeconfig.status, s.worker, PublishedCas(s0, actions))
  {
    if actions != [] {
      var n := |actions| - 1;
      var s, t, cas := Run(s0, actions[..n]), Run(s0, actions), PublishedCas(s0, actions[..n]);
      RunTrustsPublished(s0, actions[..n]);
      match actions[n] {
        case Work(outcome) => WorkTrustsPublished(s.world, s.worker, outcome, cas);
        case Outside(o) => OthersLeaveStatus(s.world, s.approver, o);
        case _ =>
      }
      MorePublished(t.world.kubeconfig.status, t.worker, cas, PublishedCas(s0, actions));
    }
  }

  /** The kubeconfig in the status gives access to the server of the spec under a cluster CA that was
      published at step `i`. */
  predicate GivesAccessUnder(s0: System, actions: seq<Action>, i: nat, ca: Bytes)
    requires i <= |actions| && Run(s0, actions).world.secret.Some?
    requires Run(s0, actions).world.kubeconfig.status.kubeconfig.Some?
  {
    var w := Run(s0, actions).world;
    && Run(s0, actions[..i]).world.rootCa == Some(ca)
    && GrantsAccess(w.kubeconfig.status.kubeconfig.value,
                    Access(w.spec.cluster.value.server, "default",
                           Base64(ca), Base64(w.secret.value.tlsCrt), Base64(w.secret.value.tlsKey)))
  }

  lemma FinishedTrustsPublishedCa(s0: System, actions: seq<Action>) returns (i: nat, ca: Bytes)
    requires Initial(s0) && GivesAccess(Run(s0, actions).world)
    requires Run(s0, actions).world.kubeconfig.status.Is(KubeconfigFinished, True)
    ensures i <= |actions| && GivesAccessUnder(s0, actions, i, ca)
  {
    RunTrustsPublished(s0, actions);
    var text, cas := Run(s0, actions).world.kubeconfig.status.kubeconfig.value, PublishedCas(s0, actions);
    ca :| ca in cas && Resolve(Parse(text).value).value.authority == Base64(ca);
    i := PublishedAtSomeTime(s0, actions, ca);
  }

  /** Whenever KubeconfigFinished=True is persisted, the user has access, under a cluster CA that was
      published in the course of the run, although CSRs may have been deleted and key pairs regenerated on
      the way. */
  lemma FinishedIsSound(s0: System, actions: seq<Action>)
    requires Initial(s0)
    requires Run(s0, actions).world.kubeconfig.status.Is(KubeconfigFinished, True)
    ensures Run(s0, actions).world.spec == s0.world.spec && GivesAccess(Run(s0, actions).world)
    ensures exists i: nat, ca :: i <= |actions| && GivesAccessUnder(s0, actions, i, ca)
  {
    InitialInv(s0);
    RunKeepsInv(s0, actions);
    BindingHistory(s0, actions);
    FinishedGivesAccess(Run(s0, actions));
    var i, ca := FinishedTrustsPublishedCa(s0, actions);
  }

  /** The PEM label of a private key for this algorithm, as the key files of each family are labelled. */
  predicate IsKeyLabel(algorithm: string, pem: string) {
    match algorithm
    case "ECDSAWithSHA256" => pem == "EC PRIVATE KEY"
    case "ECDSAWithSHA384" => pem == "EC PRIVATE KEY"
    case "ECDSAWithSHA512" => pem == "EC PRIVATE KEY"
    case "PureEd25519" => pem == "PRIVATE KEY"
    case _ =>
      && pem == "RSA PRIVATE KEY"
      && (algorithm == "SHA256WithRSA" || algorithm == "SHA384WithRSA" || algorithm == "SHA512WithRSA"
          || algorithm == "SHA256WithRSAPSS" || algorithm == "SHA384WithRSAPSS" || algorithm == "SHA512WithRSAPSS")
  }

  /** A CSR comes from nowhere but the reconciler, and this is what it bears at first, word for word. */
  lemma NewCsrBears(s: System, a: Action)
    requires s.world.csr.None? && Apply(s, a).world.csr.Some?
    ensures s.worker.CreateCsr?
    ensures var csr := Apply(s, a).world.csr.value;
      && csr.request == s.worker.request && csr.certificate.Empty?
      && !csr.flags.approved && !csr.flags.denied && !csr.flags.failed
      && csr.owners == [OwnerReference("kubeconfig.k8s.zoomoid.dev/v1alpha1", "Kubeconfig", s.world.name)]
      && csr.annotations == if s.world.spec.autoApproveCSR
                            then map["kubeconfig.k8s.zoomoid.dev/auto-approve" := "true"] else map[]
  {
    match a
    case Outside(o) => OthersCreateNoCsr(s.world, s.approver, o);
    case _ =>
  }

  lemma OthersCreateNoCsr(w: World, approver: Approver, o: OutsideAction)
    requires w.csr.None?
    ensures OutsideStep(w, approver, o).0.csr.None?
  {
  }

  /** The ten known algorithms, and how their keys are labelled. */
  lemma KnownAlgorithms(algorithm: string)
    ensures Supported(algorithm) <==> IsKeyLabel(algorithm, KeyLabel(algorithm))
  {
  }

  /** The key and the request of a CSR are PEM blocks under the labels that others look for. */
  lemma CsrHasPemLabels(s0: System, actions: seq<Action>)
    requires Initial(s0) && Supported(s0.world.spec.csr.value.signatureAlgorithm)
    ensures var w := Run(s0, actions).world;
      w.csr.Some? ==>
        && w.secret.Some? && w.secret.value.tlsKey.KeyPem? && w.csr.value.request.RequestPem?
        && w.csr.value.request.blockType == "CERTIFICATE REQUEST"
        && IsKeyLabel(s0.world.spec.csr.value.signatureAlgorithm, w.secret.value.tlsKey.blockType)
  {
    KeyMatchesRequest(s0, actions);
    BindingHistory(s0, actions);
    InitialInv(s0);
    RunKeepsInv(s0, actions);
    KnownAlgorithms(s0.world.spec.csr.value.signatureAlgorithm);
  }

  /** At that point the binding exists. A binding that is found is taken as it is, so it names the user,
      and grants the role of the spec, exactly when nobody put another one under its name while the name
      was free, before the start or at any time before the operator came to create it. Without one from
      somebody else the API server has accepted the operator's. */
  lemma FinishedHasBinding(s0: System, actions: seq<Action>)
    requires Initial(s0)
    requires Run(s0, actions).world.kubeconfig.status.Is(KubeconfigFinished, True)
    ensures var w, foreign := Run(s0, actions).world, ForeignBinding(s0, actions);
      && w.crb.Some?
      && (w.crb.value.subject == s0.world.spec.username <==>
            foreign.None? || foreign.value.subject == s0.world.spec.username)
      && (GrantsRole(w.crb.value, s0.world.spec.roleRef.value) <==>
            foreign.None? || GrantsRole(foreign.value, s0.world.spec.roleRef.value))
      && (foreign.None? ==> BindingAccepted(w.name, w.spec))
  {
    InitialInv(s0);
    RunKeepsInv(s0, actions);
    BindingHistory(s0, actions);
  }

  predicate IsOperatorAction(a: Action) {
    !a.Outside? || IsApproverAction(a)
  }

  lemma TerminalStep(s: System, a: Action)
    requires Inv(s) && s.world.kubeconfig.status.Terminal()
    ensures var t := Apply(s, a);
      && t.world.kubeconfig.status == s.world.kubeconfig.status
      && t.world.secret == s.world.secret && (s.world.crb.Some? ==> t.world.crb == s.world.crb)
      && (IsOperatorAction(a) ==> t.world == s.world)
      && (t.world.csr.Some? ==> s.world.csr.Some?)
  {
    match a
    case Outside(o) =>
      OutsideStepEffect(s.world, s.approver, o);
      if o.ApproverStep? {
        DecidedCsrIsLeftAlone(s.world, s.approver, o.outcome);
      }
    case _ =>
  }

  /** An approver that read the CSR while it was pending comes too late once it is decided. */
  lemma DecidedCsrIsLeftAlone(w: World, approver: Approver, outcome: Outcome)
    requires ApproverOk(w, approver) && DecidedOrGone(w)
    ensures ApproverWork(w, approver, outcome).0 == w
  {
  }

  /** Terminal states are absorbing: once KubeconfigFinished is True or False, nothing changes the
      status, the secret or an existing binding any more, no CSR comes into being, and steps of the
      operator, including those of an approver that read the CSR before, change nothing in the store. */
  lemma {:induction false} TerminalIsAbsorbing(s0: System, before: seq<Action>, after: seq<Action>)
    requires Initial(s0) && Run(s0, before).world.kubeconfig.status.Terminal()
    ensures var v, w := Run(s0, before).world, Run(s0, before + after).world;
      && w.kubeconfig.status == v.kubeconfig.status && w.secret == v.secret
      && (v.crb.Some? ==> w.crb == v.crb)
      && (v.csr.None? ==> w.csr.None?)
      && ((forall a :: a in after ==> IsOperatorAction(a)) ==> w == v)
  {
    RunConcat(s0, before, after);
    if after != [] {
      var n := |after| - 1;
      var prefix := after[..n];
      TerminalIsAbsorbing(s0, before, prefix);
      InitialInv(s0);
      RunKeepsInv(s0, before + prefix);
      TerminalStep(Run(s0, before + prefix), after[n]);
      RunConcat(s0, before, prefix);
    }
  }

  /** The status is persisted by the last call of a reconciler run and by no other step. */
  lemma StatusIsWrittenLast(s: System, a: Action)
    requires Apply(s, a).world.kubeconfig.status != s.world.kubeconfig.status
    ensures s.worker.Commit? && a.Work? && Apply(s, a).worker.Idle?
    ensures Apply(s, a).world == s.world.(kubeconfig := Kubeconfig(s.world.revision + 1, s.worker.kubeconfig.status),
                                          revision := s.world.revision + 1)
  {
  }

  predicate ReferencesOk(name: string, status: KubeconfigStatus) {
    && (status.phase.PhaseAwaitingApproval? ==> status.Is(CSRCreated, True) && status.csr.Some?)
    && (status.userSecret.Some? ==>
          status.userSecret.value == SecretRef(name + "-client-cert", "kubeconfig-operator-system"))
    && (status.csr.Some? ==> status.csr.value == name)
  }

  predicate LocalReferencesOk(s: System) {
    s.worker.Idle? || s.worker.GetKubeconfig? || ReferencesOk(s.world.name, s.worker.kubeconfig.status)
  }

  lemma WorkKeepsReferences(s: System, outcome: Outcome)
    requires ReferencesOk(s.world.name, s.world.kubeconfig.status) && LocalReferencesOk(s)
    ensures var t := Apply(s, Work(outcome));
      t.world.name == s.world.name && ReferencesOk(t.world.name, t.world.kubeconfig.status) && LocalReferencesOk(t)
  {
    var t := Apply(s, Work(outcome));
    if s.worker.Commit? {
      assert t.worker.Idle?;
    } else {
      assert t.world.kubeconfig == s.world.kubeconfig;
      LocalReferencesStayOk(s, outcome);
    }
  }

  lemma LocalReferencesStayOk(s: System, outcome: Outcome)
    requires !s.worker.Commit? && ReferencesOk(s.world.name, s.world.kubeconfig.status) && LocalReferencesOk(s)
    ensures LocalReferencesOk(Apply(s, Work(outcome)))
  {
  }

  lemma StepKeepsReferences(s: System, a: Action)
    requires ApproverInv(s)
    requires ReferencesOk(s.world.name, s.world.kubeconfig.status) && LocalReferencesOk(s)
    ensures var t := Apply(s, a);
      t.world.name == s.world.name && ReferencesOk(t.world.name, t.world.kubeconfig.status) && LocalReferencesOk(t)
  {
    match a
    case Outside(o) => OutsideStepEffect(s.world, s.approver, o);
    case Work(outcome) => WorkKeepsReferences(s, outcome);
    case _ =>
  }

  /** If the status refers to a secret or a CSR at all, it refers to the ones the reconciler uses; and
      where it says that it is waiting for approval, it refers to a CSR. */
  lemma {:induction false} StatusRefersToOwnObjects(s0: System, actions: seq<Action>)
    requires Initial(s0) && ReferencesOk(s0.world.name, s0.world.kubeconfig.status)
    ensures var s := Run(s0, actions);
      && s.world.name == s0.world.name
      && ReferencesOk(s.world.name, s.world.kubeconfig.status) && LocalReferencesOk(s)
  {
    if actions != [] {
      var n := |actions| - 1;
      StatusRefersToOwnObjects(s0, actions[..n]);
      InitialInv(s0);
      RunKeepsInv(s0, actions[..n]);
      StepKeepsReferences(Run(s0, actions[..n]), actions[n]);
    }
  }

  ghost predicate HadCsr(s0: System, actions: seq<Action>) {
    exists i :: 0 <= i <= |actions| && Run(s0, actions[..i]).world.csr.Some?
  }

  predicate Awaiting(s: System) {
    || s.world.kubeconfig.status.phase.PhaseAwaitingApproval?
    || (!s.worker.Idle? && !s.worker.GetKubeconfig? && s.worker.kubeconfig.status.phase.PhaseAwaitingApproval?)
  }

  /** Phase Awaiting Approval comes from nowhere but the creation of a CSR. */
  lemma AwaitingNeedsCsr(s: System, a: Action)
    requires ApproverInv(s) && !Awaiting(s) && Awaiting(Apply(s, a))
    ensures Apply(s, a).world.csr.Some?
  {
    match a
    case Outside(o) => OutsideStepEffect(s.world, s.approver, o);
    case _ =>
  }

  /** The status says that it is waiting for approval only if the run created a CSR to be approved. */
  lemma {:induction false} AwaitingMeansCsrWasCreated(s0: System, actions: seq<Action>)
    requires Initial(s0) && !s0.world.kubeconfig.status.phase.PhaseAwaitingApproval?
    ensures Awaiting(Run(s0, actions)) ==> HadCsr(s0, actions)
  {
    if actions != [] && Awaiting(Run(s0, actions)) {
      var n := |actions| - 1;
      AwaitingMeansCsrWasCreated(s0, actions[..n]);
      if HadCsr(s0, actions[..n]) {
        var i :| 0 <= i <= n && Run(s0, actions[..n][..i]).world.csr.Some?;
        assert actions[..n][..i] == actions[..i];
      } else {
        InitialInv(s0);
        RunKeepsInv(s0, actions[..n]);
        AwaitingNeedsCsr(Run(s0, actions[..n]), actions[n]);
        assert actions[..|actions|] == actions;
      }
    }
  }
}
