/** The protocol while the spec is edited. The webhook lets an update change everything but the CSR
    parameters, at any moment; the reconciler works on with the spec it read at the start of its run. */
module SpecEdits {
  import opened Wrappers
  import opened Credentials
  import opened Document
  import opened Conditions
  import opened Objects
  import opened Resources
  import opened Admission
  import opened Protocol
  import opened Safety

  /** `world.spec` is the stored spec and `read` the one in the copy of the kubeconfig that the worker works
      with. The bindings are here by username, so `world.crb` is not used. The last two fields record
      history: for whom the key pair in the secret was generated, and by which spec its kubeconfig was
      written. */
  datatype Live = Live(world: World, bindings: map<string, ClusterRoleBinding>, worker: Worker, approver: Approver,
                       read: AdmittedSpec, issuedFor: string, writtenBy: AdmittedSpec)

  function BindingOf(l: Live, username: string): Option<ClusterRoleBinding> {
    if username in l.bindings then Some(l.bindings[username]) else None
  }

  /** The system as somebody sees it who goes by this spec. */
  function By(l: Live, spec: AdmittedSpec): System {
    System(l.world.(spec := spec, crb := BindingOf(l, spec.username)), l.worker, l.approver)
  }

  function AsStored(l: Live): System {
    By(l, l.world.spec)
  }

  /** The step of somebody who went by the spec with this username led to `s`. */
  function Back(l: Live, username: string, s: System): Live {
    l.(world := s.world.(spec := l.world.spec, crb := None),
       bindings := if s.world.crb.Some? then l.bindings[username := s.world.crb.value] else l.bindings,
       worker := s.worker, approver := s.approver)
  }

  datatype Move = Usual(action: Action) | Edit(request: UpdateRequest)

  /** An accepted update of the kubeconfig is a write of it. */
  function Edited(l: Live, u: UpdateRequest): Live {
    var spec := DefaultSpec(u.spec, u.clusterInfo);
    if UpdateAllowed(l.world.spec, spec) then
      var version := l.world.revision + 1;
      l.(world := l.world.(spec := spec, kubeconfig := l.world.kubeconfig.(version := version), revision := version))
    else l
  }

  /** The spec the key pair in the secret was generated for, as far as that matters. */
  function Issuer(l: Live): AdmittedSpec {
    l.world.spec.(username := l.issuedFor)
  }

  /** The system that the invariant speaks about: the key pair as it was generated, and the binding that
      goes with the kubeconfig in the secret. */
  function Made(l: Live): System {
    System(l.world.(spec := Issuer(l), crb := BindingOf(l, l.writtenBy.username)), l.worker, l.approver)
  }

  /** A call of the worker, which takes the spec from its copy and reads it anew with the kubeconfig. */
  function WorkLive(l: Live, outcome: Outcome): Live {
    var t := Back(l, l.read.username, Apply(By(l, l.read), Work(outcome)));
    if l.worker.GetKubeconfig? then t.(read := l.world.spec)
    else if l.worker.WriteKeys? && SecretWritten(Made(l), outcome) then t.(issuedFor := l.read.username)
    else if l.worker.WriteKubeconfig? && SecretWritten(Made(l), outcome) then t.(writtenBy := l.read)
    else t
  }

  function StepLive(l: Live, m: Move): Live {
    match m
    case Edit(u) => Edited(l, u)
    case Usual(a) => if a.Work? then WorkLive(l, a.outcome) else Back(l, l.world.spec.username, Apply(AsStored(l), a))
  }

  function RunLive(l: Live, moves: seq<Move>): Live {
    if moves == [] then l else StepLive(RunLive(l, moves[..|moves| - 1]), moves[|moves| - 1])
  }

  ghost predicate InitialLive(l: Live) {
    Initial(AsStored(l)) && l.read.csr == l.world.spec.csr
  }

  // ----- the invariant

  /** The invariant of the protocol, with each spec in its place. */
  ghost predicate LiveInv(l: Live) {
    l.read.csr == l.world.spec.csr && InvBy(Made(l), l.read, l.writtenBy)
  }

  // ----- preservation

  lemma EditKeepsLiveInv(l: Live, u: UpdateRequest)
    requires LiveInv(l)
    ensures LiveInv(Edited(l, u))
  {
  }

  lemma OutsideKeepsLiveInv(l: Live, o: OutsideAction)
    requires LiveInv(l)
    ensures LiveInv(StepLive(l, Usual(Outside(o))))
  {
    var t := StepLive(l, Usual(Outside(o)));
    OutsideMade(l, o);
    EffectKeepsInv(Made(l), Made(t), l.read, l.writtenBy);
  }

  lemma OutsideMade(l: Live, o: OutsideAction)
    requires ApproverInv(Made(l))
    ensures var t := StepLive(l, Usual(Outside(o)));
      && OutsideEffect(Made(l).world, Made(t).world) && ApproverInv(Made(t)) && t.worker == l.worker
      && t.read == l.read && t.writtenBy == l.writtenBy && t.world.spec == l.world.spec
  {
    OutsideStepEffect(AsStored(l).world, l.approver, o);
  }

  /** What becomes of the world that the invariant speaks about, but for the spec and the binding. */
  function WorkMade(l: Live, outcome: Outcome): System {
    if l.worker.WriteKeys? && SecretWritten(Made(l), outcome) then GoingBy(WorkBy(Made(l), l.read, outcome), l.read)
    else WorkBy(Made(l), l.read, outcome)
  }

  lemma CallIgnoresBinding(w: World, worker: Worker, outcome: Outcome, crb: Option<ClusterRoleBinding>)
    requires !worker.GetCrb? && !worker.CreateCrb?
    ensures WorkStep(w.(crb := crb), worker, outcome).0 == WorkStep(w, worker, outcome).0.(crb := crb)
    ensures WorkStep(w.(crb := crb), worker, outcome).1 == WorkStep(w, worker, outcome).1
    ensures WorkStep(w, worker, outcome).0.crb == w.crb
  {
  }

  lemma MadeFollows(l: Live, outcome: Outcome)
    requires l.worker.GetCrb? || l.worker.CreateCrb? ==> l.read == l.writtenBy
    ensures var s, t := WorkMade(l, outcome), Made(WorkLive(l, outcome));
      && t == s.(world := s.world.(spec := t.world.spec, crb := t.world.crb))
      && (!l.worker.WriteKubeconfig? ==> t.world.crb == s.world.crb)
  {
    var w := By(l, l.read).world;
    if !l.worker.GetCrb? && !l.worker.CreateCrb? {
      CallIgnoresBinding(w, l.worker, outcome, Made(l).world.crb);
    } else {
      assert By(l, l.read) == GoingBy(Made(l), l.read);
      BindingStep(By(l, l.read), Work(outcome));
    }
  }

  lemma IssuerFollows(l: Live, outcome: Outcome)
    requires l.read.csr == l.world.spec.csr
    ensures var s, t := WorkMade(l, outcome), WorkLive(l, outcome);
      && Issuer(t).username == s.world.spec.username && Issuer(t).csr == s.world.spec.csr
      && t.world.spec == l.world.spec && t.read.csr == t.world.spec.csr
      && t.writtenBy == (if l.worker.WriteKubeconfig? && SecretWritten(Made(l), outcome) then l.read else l.writtenBy)
      && (!l.worker.GetKubeconfig? ==> t.read == l.read)
  {
  }

  /** Of the spec behind a key pair only these two fields matter. */
  lemma IssuerIsFree(s: System, reader: AdmittedSpec, writer: AdmittedSpec, issuer: AdmittedSpec)
    requires InvBy(s, reader, writer) && issuer.username == s.world.spec.username && issuer.csr == s.world.spec.csr
    ensures InvBy(GoingBy(s, issuer), reader, writer)
  {
  }

  /** Before the secret is read it does not matter by which spec the worker goes. */
  lemma ReaderIsFree(s: System, reader: AdmittedSpec, writer: AdmittedSpec, next: AdmittedSpec)
    requires InvBy(s, reader, writer) && (s.worker.Idle? || s.worker.GetSecret?)
    ensures InvBy(s, next, writer)
  {
  }

  lemma WriteIsOpen(l: Live, outcome: Outcome)
    requires LiveInv(l) && l.worker.WriteKubeconfig?
    ensures !WorkMade(l, outcome).world.kubeconfig.status.Terminal() && !WorkMade(l, outcome).worker.Commit?
  {
  }

  lemma CallKeepsInv(l: Live, outcome: Outcome)
    requires LiveInv(l)
    ensures InvBy(Made(WorkLive(l, outcome)), l.read, WorkLive(l, outcome).writtenBy)
  {
    var s, t := WorkMade(l, outcome), WorkLive(l, outcome);
    MadeFollows(l, outcome);
    IssuerFollows(l, outcome);
    WorkByKeepsInv(Made(l), l.read, l.writtenBy, outcome);
    if l.worker.WriteKubeconfig? {
      WriteIsOpen(l, outcome);
      BindingIsFree(s, l.read, t.writtenBy, Made(t).world.crb);
    }
    var u := s.(world := s.world.(crb := Made(t).world.crb));
    IssuerIsFree(u, l.read, t.writtenBy, Issuer(t));
  }

  lemma WorkKeepsLiveInv(l: Live, outcome: Outcome)
    requires LiveInv(l)
    ensures LiveInv(WorkLive(l, outcome))
  {
    CallKeepsInv(l, outcome);
    IssuerFollows(l, outcome);
    if l.worker.GetKubeconfig? {
      var t := WorkLive(l, outcome);
      ReaderIsFree(Made(t), l.read, t.writtenBy, t.read);
    }
  }

  lemma StepKeepsLiveInv(l: Live, m: Move)
    requires LiveInv(l)
    ensures LiveInv(StepLive(l, m))
  {
    match m
    case Edit(u) => EditKeepsLiveInv(l, u);
    case Usual(a) =>
      match a
      case Work(outcome) => WorkKeepsLiveInv(l, outcome);
      case Outside(o) => OutsideKeepsLiveInv(l, o);
      case _ =>
  }

  lemma {:induction false} RunKeepsLiveInv(l: Live, moves: seq<Move>)
    requires LiveInv(l)
    ensures LiveInv(RunLive(l, moves))
  {
    if moves != [] {
      var n := |moves| - 1;
      RunKeepsLiveInv(l, moves[..n]);
      StepKeepsLiveInv(RunLive(l, moves[..n]), moves[n]);
    }
  }

  lemma InitialLiveInv(l: Live)
    requires InitialLive(l)
    ensures LiveInv(l)
  {
  }

  lemma {:induction false} RunLiveConcat(l: Live, a: seq<Move>, b: seq<Move>)
    ensures RunLive(l, a + b) == RunLive(RunLive(l, a), b)
  {
    if b == [] {
      assert a + b == a;
    } else {
      var n := |b| - 1;
      RunLiveConcat(l, a, b[..n]);
      assert (a + b)[..|a + b| - 1] == a + b[..n];
    }
  }

  // ----- what survives edits

  predicate IsFinished(l: Live) {
    l.world.kubeconfig.status.Is(KubeconfigFinished, True)
  }

  /** Whatever is edited and whenever, a finished kubeconfig holds a certificate that was signed for the key
      beside it, in the name of the user the key pair was generated for; its references lead there from the
      server of the spec it was written by, and that spec's user has a binding. */
  lemma FinishedThoughEdited(l0: Live, moves: seq<Move>)
    requires InitialLive(l0) && IsFinished(RunLive(l0, moves))
    ensures var l := RunLive(l0, moves);
      && l.world.secret.Some? && l.world.kubeconfig.status.kubeconfig.Some?
      && l.writtenBy.username in l.bindings
      && var secret, text := l.world.secret.value, l.world.kubeconfig.status.kubeconfig.value;
        && secret.kubeconfig == Some(text)
        && Pairs(secret.tlsKey, secret.tlsCsr) && secret.tlsCrt == Sign(secret.tlsCsr)
        && secret.tlsCsr.request.commonName == l.issuedFor
        && secret.tlsCsr.request.algorithm == l.world.spec.csr.value.signatureAlgorithm
        && secret.tlsCsr.request.fields == l.world.spec.csr.value.additionalFields
        && exists ca :: GrantsAccess(text, Access(l.writtenBy.cluster.value.server, "default",
                                                  Base64(ca), Base64(secret.tlsCrt), Base64(secret.tlsKey)))
  {
    InitialLiveInv(l0);
    RunKeepsLiveInv(l0, moves);
    var l := RunLive(l0, moves);
    var secret := l.world.secret.value;
    var text := l.world.kubeconfig.status.kubeconfig.value;
    var ca :| text == KubeconfigText(l.writtenBy, ca, secret.tlsKey, secret.tlsCrt);
    ReferencesClose(l.writtenBy, ca, secret.tlsKey, secret.tlsCrt);
  }

  // ----- a run finishes only by the stored spec

  /** The worker's copy of the kubeconfig is the stored one, spec included, unless it is out of date. */
  predicate CopyIsCurrent(l: Live) {
    l.worker.Idle? || l.worker.GetKubeconfig?
    || (l.worker.kubeconfig.version <= l.world.revision
        && (l.worker.kubeconfig.version == l.world.kubeconfig.version ==> l.read == l.world.spec))
  }

  /** The version a local copy bears is the one it was read with, and a call that writes the kubeconfig
      leaves no copy. */
  lemma CopyKeepsVersion(w: World, worker: Worker, outcome: Outcome)
    ensures var (w', worker') := WorkStep(w, worker, outcome);
      && w.revision <= w'.revision
      && (worker'.Idle?
          || (w'.kubeconfig == w.kubeconfig && !worker.Idle? && !worker'.GetKubeconfig?
              && worker'.kubeconfig.version ==
                   if worker.GetKubeconfig? then w.kubeconfig.version else worker.kubeconfig.version))
  {
  }

  lemma WorkKeepsCopyCurrent(l: Live, outcome: Outcome)
    requires CopyIsCurrent(l) && l.world.kubeconfig.version <= l.world.revision
    ensures CopyIsCurrent(WorkLive(l, outcome))
  {
    CopyKeepsVersion(By(l, l.read).world, l.worker, outcome);
    var t := WorkLive(l, outcome);
    assert t.world.spec == l.world.spec && t.read == if l.worker.GetKubeconfig? then l.world.spec else l.read;
  }

  lemma OutsideKeepsCopyCurrent(l: Live, o: OutsideAction)
    requires CopyIsCurrent(l)
    ensures CopyIsCurrent(StepLive(l, Usual(Outside(o))))
  {
  }

  lemma {:induction false} CopyStaysCurrent(l0: Live, moves: seq<Move>)
    requires InitialLive(l0)
    ensures LiveInv(RunLive(l0, moves)) && CopyIsCurrent(RunLive(l0, moves))
  {
    InitialLiveInv(l0);
    RunKeepsLiveInv(l0, moves);
    if moves != [] {
      var n := |moves| - 1;
      CopyStaysCurrent(l0, moves[..n]);
      var l := RunLive(l0, moves[..n]);
      match moves[n]
      case Edit(u) =>
      case Usual(a) =>
        match a
        case Work(outcome) => WorkKeepsCopyCurrent(l, outcome);
        case Outside(o) => OutsideKeepsCopyCurrent(l, o);
        case _ =>
    }
  }

  /** A kubeconfig gets finished only in the form of the spec that is stored at that moment: a run that was
      overtaken by an edit fails to write the status. */
  lemma FinishesByStoredSpec(l0: Live, moves: seq<Move>, m: Move)
    requires InitialLive(l0)
    ensures var before, after := RunLive(l0, moves), StepLive(RunLive(l0, moves), m);
      !IsFinished(before) && IsFinished(after) ==> after.writtenBy == after.world.spec
  {
    CopyStaysCurrent(l0, moves);
    FinishingStep(RunLive(l0, moves), m);
  }

  lemma FinishingStep(l: Live, m: Move)
    requires LiveInv(l) && CopyIsCurrent(l)
    ensures !IsFinished(l) && IsFinished(StepLive(l, m)) ==> StepLive(l, m).writtenBy == StepLive(l, m).world.spec
  {
    match m
    case Edit(u) =>
    case Usual(a) =>
      match a
      case Work(outcome) => CommitsByWriter(l, outcome);
      case Outside(o) => OutsideStepEffect(AsStored(l).world, l.approver, o);
      case _ =>
  }

  lemma CommitsByWriter(l: Live, outcome: Outcome)
    requires LiveInv(l) && CopyIsCurrent(l)
    ensures !IsFinished(l) && IsFinished(WorkLive(l, outcome)) ==> WorkLive(l, outcome).writtenBy == l.world.spec
  {
    if !IsFinished(l) && IsFinished(WorkLive(l, outcome)) {
      StatusIsWrittenLast(By(l, l.read), Work(outcome));
    }
  }
}
