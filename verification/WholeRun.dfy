/** One whole failure-free run of a reconciler: what it does to the store, that a second one adds nothing,
    and that the status is written once and last. */
module WholeRun {
  import opened Wrappers
  import opened Credentials
  import opened Conditions
  import opened Objects
  import opened Acceptance
  import opened Resources
  import opened Protocol
  import opened Safety
  import opened Drive

  /** A run of the kubeconfig reconciler in which every call is served and nobody interferes. */
  function Reconcile(s: System): System {
    DriveWorker(Apply(s, Start), []).0
  }

  /** The same for the CSR reconciler. */
  function ReconcileCsr(s: System): System {
    DriveApprover(Apply(s, Outside(StartApprover)), []).0
  }

  // ----- what a failure-free run does to the store

  /** The store and the local copies once the secret is there. */
  function EnsureSecret(w: World): (World, Kubeconfig)
    requires w.secret.Some? || LabelsAccepted(w.name, w.spec)
  {
    if w.secret.Some? then (w, w.kubeconfig) else (CreateSecretIn(w), SecretCreated(w.kubeconfig, w.name))
  }

  /** No CSR yet: key pair into the secret, then the CSR, then the status. */
  function IssueCsr(w: World, k: Kubeconfig): World
    requires w.secret.Some? && w.csr.None?
  {
    var (w1, worker) := AfterMissingCsr(w, k, w.secret.value);
    if worker.Idle? || w.secret.value.immutable then w1
    else if !LabelsAccepted(w.name, w.spec) then UpdateSecretIn(w1, worker.secret)
    else
      UpdateStatusIn(CreateCsrIn(UpdateSecretIn(w1, worker.secret), worker.secret.tlsCsr), CsrWasCreated(k, w.name))
  }

  /** There is a binding, or the API server accepts the operator's. */
  predicate BindingObtainable(w: World) {
    w.crb.Some? || BindingAccepted(w.name, w.spec)
  }

  /** The certificate is there: kubeconfig into the secret, then the binding, then the status. */
  function Deliver(w: World, k: Kubeconfig, certificate: Bytes): World
    requires w.secret.Some? && w.secret.value.data.Some? && w.rootCa.Some?
  {
    var secret := w.secret.value.WithCertificate(certificate);
    var text := KubeconfigText(w.spec, w.rootCa.value, secret.tlsKey, certificate);
    var k' := Finished(SecretFinished(WithKubeconfig(CsrWasApproved(k), text)));
    var w1 := UpdateSecretIn(w, secret.WithKubeconfig(text));
    if BindingObtainable(w) then UpdateStatusIn(CreateCrbIn(w1), k') else w1
  }

  function ReconciledWorld(w: World): World {
    if w.kubeconfig.status.Terminal() then w
    else if w.secret.None? && !LabelsAccepted(w.name, w.spec) then UpdateStatusIn(w, SecretCreateFailed(w.kubeconfig))
    else
      var (w1, k) := EnsureSecret(w);
      if w.csr.None? then IssueCsr(w1, k)
      else
        var csr := w.csr.value;
        if csr.flags.denied || csr.flags.failed then UpdateStatusIn(w1, CsrRefused(k))
        else if !csr.flags.approved then w1
        else if csr.certificate.Empty? then UpdateStatusIn(w1, CsrWasApproved(k))
        else if w.rootCa.None? || !w1.secret.value.Usable() then w1
        else Deliver(w1, k, csr.certificate)
  }

  lemma ServedCall(s: System)
    requires !s.worker.Idle?
    ensures DriveWorker(s, []) == DriveWorker(Apply(s, Work(Served)), [])
  {
    assert Call(s, Head([])) == Apply(s, Work(Served));
  }

  lemma ServedCommit(s: System)
    requires s.worker.Commit?
    ensures DriveWorker(s, []).0 == System(UpdateStatusIn(s.world, s.worker.kubeconfig), Idle, s.approver)
  {
    ServedCall(s);
  }

  lemma ServedIssue(s: System)
    requires s.worker.GetCsr? && s.world.csr.None? && s.world.secret == Some(s.worker.secret)
    ensures DriveWorker(s, []).0 == System(IssueCsr(s.world, s.worker.kubeconfig), Idle, s.approver)
  {
    ServedCall(s);
    var s1 := Apply(s, Work(Served));
    if s1.worker.WriteKeys? {
      ServedCall(s1);
      var s2 := Apply(s1, Work(Served));
      if s2.worker.CreateCsr? {
        ServedCall(s2);
        var s3 := Apply(s2, Work(Served));
        if s3.worker.Commit? {
          ServedCommit(s3);
        }
      }
    }
  }

  lemma ServedBinding(s: System)
    requires s.worker.GetCrb?
    ensures DriveWorker(s, []).0 ==
            System(if BindingObtainable(s.world)
                   then UpdateStatusIn(CreateCrbIn(s.world), Finished(s.worker.kubeconfig)) else s.world,
                   Idle, s.approver)
  {
    ServedCall(s);
    var s1 := Apply(s, Work(Served));
    if s1.worker.CreateCrb? {
      ServedCall(s1);
      if BindingObtainable(s.world) {
        ServedCommit(Apply(s1, Work(Served)));
      }
    } else {
      ServedCommit(s1);
    }
  }

  lemma ServedDeliver(s: System, k: Kubeconfig, certificate: Bytes)
    requires s.world.secret.Some? && s.world.secret.value.Usable() && s.world.rootCa.Some?
    requires s.worker == GetRootCa(CsrWasApproved(k), s.world.secret.value.WithCertificate(certificate))
    ensures DriveWorker(s, []).0 == System(Deliver(s.world, k, certificate), Idle, s.approver)
  {
    ServedCall(s);
    var s1 := Apply(s, Work(Served));
    ServedCall(s1);
    ServedBinding(Apply(s1, Work(Served)));
  }

  lemma ServedAnswer(s: System, k: Kubeconfig, certificate: Bytes)
    requires s.world.secret.Some? && s.world.secret.value.data.Some?
    requires s.worker == GetRootCa(CsrWasApproved(k), s.world.secret.value.WithCertificate(certificate))
    ensures DriveWorker(s, []).0 == System(
      if s.world.rootCa.None? || !s.world.secret.value.Usable() then s.world
      else Deliver(s.world, k, certificate), Idle, s.approver)
  {
    if s.world.rootCa.Some? && s.world.secret.value.Usable() {
      ServedDeliver(s, k, certificate);
    } else {
      ServedCall(s);
      if s.world.rootCa.Some? {
        ServedCall(Apply(s, Work(Served)));
      }
    }
  }

  lemma ServedDecide(s: System)
    requires s.worker.GetCsr? && s.world.csr.Some? && s.world.secret == Some(s.worker.secret)
    ensures var w, k, csr := s.world, s.worker.kubeconfig, s.world.csr.value;
      DriveWorker(s, []).0 == System(
        if csr.flags.denied || csr.flags.failed then UpdateStatusIn(w, CsrRefused(k))
        else if !csr.flags.approved then w
        else if csr.certificate.Empty? then UpdateStatusIn(w, CsrWasApproved(k))
        else if w.rootCa.None? || !s.worker.secret.Usable() then w
        else Deliver(w, k, csr.certificate), Idle, s.approver)
  {
    ServedCall(s);
    var s1 := Apply(s, Work(Served));
    if s1.worker.Commit? {
      ServedCommit(s1);
    } else if s1.worker.GetRootCa? {
      ServedAnswer(s1, s.worker.kubeconfig, s.world.csr.value.certificate);
    }
  }

  /** The calls of a failure-free run add up to one update of the store. */
  lemma ReconcileIsOneUpdate(s: System)
    requires s.worker.Idle?
    ensures Reconcile(s) == System(ReconciledWorld(s.world), Idle, s.approver)
  {
    var s1 := Apply(s, Start);
    ServedCall(s1);
    var s2 := Apply(s1, Work(Served));
    if s2.worker.GetSecret? {
      ServedCall(s2);
      var s3 := Apply(s2, Work(Served));
      var s4 := if s3.worker.CreateSecret? then Apply(s3, Work(Served)) else s3;
      if s3.worker.CreateSecret? {
        ServedCall(s3);
      }
      if s4.worker.Commit? {
        ServedCommit(s4);
      } else if s4.world.csr.None? {
        ServedIssue(s4);
      } else {
        ServedDecide(s4);
      }
    }
  }

  // ----- what it decides

  predicate Refused(w: World) {
    w.csr.Some? && (w.csr.value.flags.denied || w.csr.value.flags.failed)
  }

  /** What KeyMatchesRequest says of a CSR, as far as it matters here. */
  predicate WellIssued(w: World) {
    w.csr.Some? ==> Parses(w.csr.value.request) && w.secret.Some? && w.secret.value.Usable()
  }

  /** There is a certificate, and the CA that goes with it. */
  predicate Answered(w: World) {
    && w.csr.Some? && w.csr.value.flags == Flags(true, false, false) && !w.csr.value.certificate.Empty?
    && w.rootCa.Some?
  }

  predicate Deliverable(w: World) {
    Answered(w) && BindingObtainable(w)
  }

  /** One failure-free run decides exactly by the CSR it finds. */
  lemma RunDecides(w: World)
    requires !w.kubeconfig.status.Terminal() && WellIssued(w)
    ensures var done := ReconciledWorld(w).kubeconfig.status;
      && (done.Is(KubeconfigFinished, False) <==> Refused(w))
      && (done.Is(KubeconfigFinished, True) <==> Deliverable(w))
      && (done.Terminal() <==> Refused(w) || Deliverable(w))
  {
    if w.secret.Some? || LabelsAccepted(w.name, w.spec) {
      var (w1, k) := EnsureSecret(w);
      if w.csr.None? {
        IssuedStatusIsOpen(w1, k);
      } else if Deliverable(w) {
        DeliveredStatus(w1, k, w.csr.value.certificate);
      }
    }
  }

  lemma IssuedStatusIsOpen(w: World, k: Kubeconfig)
    requires w.secret.Some? && w.csr.None? && !w.kubeconfig.status.Terminal() && !k.status.Terminal()
    ensures !IssueCsr(w, k).kubeconfig.status.Terminal()
  {
  }

  lemma DeliveredStatus(w: World, k: Kubeconfig, certificate: Bytes)
    requires w.secret.Some? && w.secret.value.Usable() && w.rootCa.Some? && BindingObtainable(w)
    requires k.version == w.kubeconfig.version
    ensures Deliver(w, k, certificate).kubeconfig.status.Is(KubeconfigFinished, True)
  {
  }

  /** What a failure-free run leaves in the status, word for word. */
  predicate Persists(v: World, w: World) {
    var before, after := v.kubeconfig.status, w.kubeconfig.status;
    var withSecret := if v.secret.Some? then before else
      before.(conditions := before.conditions[UserSecretCreated := True],
              userSecret := Some(SecretRef(v.name + "-client-cert", "kubeconfig-operator-system")));
    if before.Terminal() then after == before
    else if v.secret.None? && !LabelsAccepted(v.name, v.spec) then
      after == before.(conditions := before.conditions[UserSecretCreated := False], phase := PhaseFailed)
    else if v.csr.None? then
      after == if w.csr.None? then before else
        withSecret.(conditions := withSecret.conditions[CSRCreated := True], csr := Some(v.name),
                    phase := PhaseAwaitingApproval)
    else if v.csr.value.flags.denied || v.csr.value.flags.failed then
      after == before.(conditions := before.conditions[CSRApproved := False][KubeconfigFinished := False],
                       phase := PhaseFailed)
    else if !v.csr.value.flags.approved then after == before
    else if v.csr.value.certificate.Empty? then
      after == before.(conditions := before.conditions[CSRApproved := True])
    else if v.rootCa.None? || !BindingObtainable(v) then after == before
    else
      && w.secret.Some? && w.secret.value.kubeconfig.Some?
      && after == before.(
        conditions := before.conditions[CSRApproved := True][UserSecretFinished := True][KubeconfigFinished := True],
        phase := PhaseDone, kubeconfig := w.secret.value.kubeconfig)
  }

  lemma RunPersists(s0: System, actions: seq<Action>)
    requires Initial(s0) && Run(s0, actions).worker.Idle?
    ensures Persists(Run(s0, actions).world, Reconcile(Run(s0, actions)).world)
  {
    var s := Run(s0, actions);
    InitialInv(s0);
    RunKeepsInv(s0, actions);
    ReconcileIsOneUpdate(s);
    UpdatePersists(s.world);
  }

  lemma UpdatePersists(w: World)
    requires WellIssued(w)
    ensures Persists(w, ReconciledWorld(w))
  {
    if !w.kubeconfig.status.Terminal() && (w.secret.Some? || LabelsAccepted(w.name, w.spec)) {
      var (w1, k) := EnsureSecret(w);
      if w.csr.None? {
        IssuePersists(w1, k);
      } else if Deliverable(w) {
        DeliverPersists(w1, k, w.csr.value.certificate);
      }
    }
  }

  lemma IssuePersists(w: World, k: Kubeconfig)
    requires w.secret.Some? && w.csr.None?
    ensures var t := IssueCsr(w, k);
      t.kubeconfig.status == if t.csr.Some? && k.version == w.kubeconfig.version then CsrWasCreated(k, w.name).status
                             else w.kubeconfig.status
  {
  }

  lemma DeliverPersists(w: World, k: Kubeconfig, certificate: Bytes)
    requires w.secret.Some? && w.secret.value.Usable() && w.rootCa.Some? && BindingObtainable(w)
    requires k.version == w.kubeconfig.version
    ensures var t := Deliver(w, k, certificate);
      && t.secret.Some? && t.secret.value.kubeconfig.Some?
      && t.kubeconfig.status ==
           Finished(SecretFinished(WithKubeconfig(CsrWasApproved(k), t.secret.value.kubeconfig.value))).status
  {
  }

  // ----- idempotence

  /** The store with resource versions left out. */
  function Contents(w: World): World {
    w.(revision := 0,
       kubeconfig := w.kubeconfig.(version := 0),
       secret := match w.secret { case None => None case Some(s) => Some(s.(version := 0)) })
  }

  lemma SetTwice(status: KubeconfigStatus, kind: KubeconfigCondition, value: Status)
    ensures status.Set(kind, value).Set(kind, value) == status.Set(kind, value)
  {
    assert status.conditions[kind := value][kind := value] == status.conditions[kind := value];
  }

  /** A key pair can be generated, but the secret that was found does not take it, or the CSR is refused. */
  predicate GeneratesInVain(w: World) {
    && !w.kubeconfig.status.Terminal() && w.csr.None? && Supported(w.spec.csr.value.signatureAlgorithm)
    && w.secret.Some? && !(w.secret.value.Usable() && LabelsAccepted(w.name, w.spec))
  }

  /** Reconciling a reconciled store changes nothing but resource versions; in particular it makes no
      second key pair, no second CSR and no other certificate. The one exception is a secret that
      somebody else made, if it has no data or is immutable, or if the API server refuses the labels of the
      CSR: there every run generates another key pair. */
  lemma ReconcileIsIdempotent(s0: System, actions: seq<Action>)
    requires Initial(s0) && Run(s0, actions).worker.Idle?
    ensures var once := Reconcile(Run(s0, actions));
      Contents(Reconcile(once).world) == Contents(once.world) <==> !GeneratesInVain(Run(s0, actions).world)
  {
    var s := Run(s0, actions);
    InitialInv(s0);
    RunKeepsInv(s0, actions);
    ReconcileIsOneUpdate(s);
    ReconcileIsOneUpdate(Reconcile(s));
    OneUpdateIsIdempotent(s);
  }

  lemma OneUpdateIsIdempotent(s: System)
    requires Inv(s)
    ensures Contents(ReconciledWorld(ReconciledWorld(s.world))) == Contents(ReconciledWorld(s.world))
            <==> !GeneratesInVain(s.world)
  {
    var w := s.world;
    if GeneratesInVain(w) {
      VainRunCountsUp(w);
      VainRunCountsUp(ReconciledWorld(w));
    } else if w.secret.None? && !LabelsAccepted(w.name, w.spec) {
      SetTwice(w.kubeconfig.status, UserSecretCreated, False);
    } else if !w.kubeconfig.status.Terminal() {
      SetTwice(EnsureSecret(w).1.status, CSRApproved, True);
      if w.csr.None? {
        SecondRunFindsPendingCsr(w);
      } else if w.csr.value.flags.denied || w.csr.value.flags.failed {
        RunDecides(w);
      } else if w.csr.value.flags.approved && !w.csr.value.certificate.Empty? && w.rootCa.Some? {
        RunDecides(w);
      }
    }
  }

  lemma VainRunCountsUp(w: World)
    requires GeneratesInVain(w)
    ensures GeneratesInVain(ReconciledWorld(w)) && ReconciledWorld(w).keys == w.keys + 1
    ensures !w.secret.value.Usable() ==> ReconciledWorld(w) == w.(keys := w.keys + 1)
  {
  }

  lemma SecondRunFindsPendingCsr(w: World)
    requires !w.kubeconfig.status.Terminal() && w.csr.None? && !GeneratesInVain(w)
    requires w.secret.Some? || LabelsAccepted(w.name, w.spec)
    ensures ReconciledWorld(ReconciledWorld(w)) == ReconciledWorld(w)
  {
  }

  // ----- one status write per run

  lemma {:induction false} OthersLeaveStatusAlone(s: System, before: seq<OutsideAction>)
    ensures Interfere(s, before).world.kubeconfig.status == s.world.kubeconfig.status
  {
    if before != [] {
      OthersLeaveStatusAlone(s, before[..|before| - 1]);
    }
  }

  /** A call that changes the status is the last of its run. */
  lemma CallLeavesStatus(s: System, t: Turn)
    requires !Call(s, t).worker.Idle?
    ensures Call(s, t).world.kubeconfig.status == s.world.kubeconfig.status
  {
    OthersLeaveStatusAlone(s, t.before);
    var r := Interfere(s, t.before);
    if Call(s, t).world.kubeconfig.status != r.world.kubeconfig.status {
      StatusIsWrittenLast(r, Work(t.outcome));
    }
  }

  lemma CallIsRun(s: System, t: Turn)
    ensures Call(s, t) == Run(s, OutsideActions(t.before) + [Work(t.outcome)])
  {
    InterfereIsRun(s, t.before);
    RunAppend(s, OutsideActions(t.before), Work(t.outcome));
  }

  /** The status is committed last and at most once: during a whole run of the reconciler, whatever
      happens around its calls, the status is the old one before every step, the last one included. */
  lemma {:induction false} StatusIsCommittedLast(s: System, turns: seq<Turn>, i: nat)
    requires i < |DriveActions(s, turns)|
    ensures Run(s, DriveActions(s, turns)[..i]).world.kubeconfig.status == s.world.kubeconfig.status
    decreases CallsLeft(s.worker)
  {
    var t := Head(turns);
    var next := Call(s, t);
    var head, tail := OutsideActions(t.before) + [Work(t.outcome)], DriveActions(next, Rest(turns));
    assert DriveActions(s, turns) == head + tail;
    if i < |head| {
      assert (head + tail)[..i] == OutsideActions(t.before[..i]);
      InterfereIsRun(s, t.before[..i]);
      OthersLeaveStatusAlone(s, t.before[..i]);
    } else {
      CallsRunOut(s, t);
      StatusIsCommittedLast(next, Rest(turns), i - |head|);
      CallLeavesStatus(s, t);
      assert (head + tail)[..i] == head + tail[..i - |head|];
      RunConcat(s, head, tail[..i - |head|]);
      CallIsRun(s, t);
    }
  }
}
