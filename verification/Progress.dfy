/** How far the protocol has got: a rank that only the deletion of the CSR raises, that everybody lowers in
    turn, and that leads to the end amid any noise. */
module Progress {
  import opened Credentials
  import opened Conditions
  import opened Objects
  import opened Resources
  import opened Protocol
  import opened Safety
  import opened WholeRun
  import opened Convergence

  // ----- progress

  /** How far a world is from the end: no CSR, pending, approved, decided with an answer, terminal. */
  function Rank(w: World): nat {
    if w.kubeconfig.status.Terminal() then 0
    else if w.csr.None? then 4
    else if w.csr.value.flags.Pending() then 3
    else if w.csr.value.flags == Flags(true, false, false) && w.csr.value.certificate.Empty? then 2
    else 1
  }

  /** Only the deletion of the CSR can throw the protocol back. */
  lemma RankNeverRises(s0: System, actions: seq<Action>, a: Action)
    requires Initial(s0) && a != Outside(DeleteCsr)
    ensures Rank(Apply(Run(s0, actions), a).world) <= Rank(Run(s0, actions).world)
  {
    InitialInv(s0);
    RunKeepsInv(s0, actions);
    StepNeverRaisesRank(Run(s0, actions), a);
  }

  lemma StepNeverRaisesRank(s: System, a: Action)
    requires Inv(s) && a != Outside(DeleteCsr)
    ensures Rank(Apply(s, a).world) <= Rank(s.world)
  {
    if s.world.kubeconfig.status.Terminal() {
      TerminalStep(s, a);
    } else {
      match a
      case Outside(o) => OutsideNeverRaisesRank(s.world, s.approver, o);
      case Work(outcome) => WorkStepEffect(s.world, s.worker, outcome);
      case _ =>
    }
  }

  lemma OutsideNeverRaisesRank(w: World, approver: Approver, o: OutsideAction)
    requires VersionsOk(w) && ApproverOk(w, approver) && o != DeleteCsr
    ensures Rank(OutsideStep(w, approver, o).0) <= Rank(w)
  {
    OutsideStepEffect(w, approver, o);
    assert w.csr.Some? ==> OutsideStep(w, approver, o).0.csr.Some?;
  }

  /** A restart of the kubeconfig reconciler followed by a failure-free run. */
  function Restart(s: System): System {
    Reconcile(Apply(s, Crash))
  }

  lemma RestartFacts(s: System)
    requires Inv(s)
    ensures Inv(Restart(s)) && Restart(s).world == ReconciledWorld(s.world)
  {
    ReconcileIsOneUpdate(Apply(s, Crash));
    StepKeepsInv(s, Crash);
    LeadsToItself(Apply(s, Crash));
    LeadsToReconcile(Apply(s, Crash), Apply(s, Crash));
    LeadsKeepsInv(Apply(s, Crash), Restart(s));
  }

  lemma {:induction false} NoiseNeverRaisesRank(s: System, noise: seq<Action>)
    requires Inv(s) && KeepsCsr(noise)
    ensures Inv(Run(s, noise)) && Rank(Run(s, noise).world) <= Rank(s.world)
    ensures Run(s, noise).world.spec == s.world.spec
  {
    RunKeepsInv(s, noise);
    BindingHistory(s, noise);
    if noise != [] {
      var n := |noise| - 1;
      NoiseNeverRaisesRank(s, noise[..n]);
      StepNeverRaisesRank(Run(s, noise[..n]), noise[n]);
    }
  }

  /** The same for the CSR reconciler. */
  function RestartApprover(s: System): System {
    ReconcileCsr(Apply(s, Outside(CrashApprover)))
  }

  lemma RestartApproverFacts(s: System)
    requires Inv(s)
    ensures Inv(RestartApprover(s)) && RestartApprover(s).world == CsrReconciledWorld(s.world)
  {
    var rested := Apply(s, Outside(CrashApprover));
    ReconcileCsrIsOneUpdate(rested);
    StepKeepsInv(s, Outside(CrashApprover));
    LeadsToItself(rested);
    LeadsToReconcileCsr(rested, rested);
    LeadsKeepsInv(rested, RestartApprover(s));
  }

  /** The CSR, if there is one, asks the operator for its approval. */
  predicate Asking(w: World) {
    w.csr.Some? ==> AsksForApproval(w.csr.value)
  }

  /** A failure-free run of the CSR reconciler on any CSR, also one that somebody else made: it decides it
      exactly if it is pending and asks for approval, and approves exactly what parses. */
  lemma CsrRunDecides(s: System)
    requires s.approver.Resting? && s.world.csr.Some?
    ensures var csr, decided := s.world.csr.value, ReconcileCsr(s).world.csr;
      && decided.Some?
      && decided.value.uid == csr.uid && decided.value.owners == csr.owners
      && decided.value.annotations == csr.annotations && decided.value.request == csr.request
      && decided.value.certificate == csr.certificate
      && decided.value.flags ==
           if AsksForApproval(csr) && !csr.flags.approved && !csr.flags.denied && !csr.flags.failed then
             if csr.request.RequestPem? && csr.request.blockType == "CERTIFICATE REQUEST"
             then Flags(true, false, false) else Flags(false, false, true)
           else csr.flags
  {
    ReconcileCsrIsOneUpdate(s);
  }

  /** The CSR was refused, or nothing is missing for the kubeconfig. */
  predicate CanAnswer(w: World) {
    Refused(w) || (w.rootCa.Some? && BindingObtainable(w))
  }

  /** Each party lowers the rank when its turn comes: the reconciler, if it can make a CSR, or can answer
      the decision on it; a person, or the operator if it is asked; and the signer. */
  lemma EachPartyMakesProgress(s: System)
    requires Inv(s)
    ensures Rank(s.world) == 4 ==> Rank(Restart(s).world) == if CanIssue(s.world) then 3 else 4
    ensures Rank(s.world) == 3 ==> Rank(Apply(s, Outside(HumanApprove)).world) == 2
    ensures Rank(s.world) == 3 ==> Rank(RestartApprover(s).world) == if Asking(s.world) then 2 else 3
    ensures Rank(s.world) == 2 ==> Rank(Apply(s, Outside(SignCsr)).world) == 1
    ensures Rank(s.world) == 1 ==> Rank(Restart(s).world) == if CanAnswer(s.world) then 0 else 1
  {
    RestartFacts(s);
    RestartApproverFacts(s);
    ReconcilerMakesProgress(s.world);
    ApproverMakesProgress(s.world);
    PeopleMakeProgress(s);
  }

  lemma PeopleMakeProgress(s: System)
    requires CsrMatchesSecret(s.world)
    ensures Rank(s.world) == 3 ==> Rank(Apply(s, Outside(HumanApprove)).world) == 2
    ensures Rank(s.world) == 2 ==> Rank(Apply(s, Outside(SignCsr)).world) == 1
  {
  }

  lemma ReconcilerMakesProgress(w: World)
    requires WellIssued(w)
    ensures Rank(w) == 4 ==> Rank(ReconciledWorld(w)) == if CanIssue(w) then 3 else 4
    ensures Rank(w) == 1 ==> Rank(ReconciledWorld(w)) == if CanAnswer(w) then 0 else 1
  {
    if !w.kubeconfig.status.Terminal() {
      RunDecides(w);
      if w.csr.None? {
        FirstRunIssues(w);
      }
    }
  }

  lemma ApproverMakesProgress(w: World)
    requires CsrMatchesSecret(w)
    ensures Rank(w) == 3 ==> Rank(CsrReconciledWorld(w)) == if Asking(w) then 2 else 3
  {
  }

  lemma RestartNeverRaisesRank(s: System)
    requires Inv(s)
    ensures Inv(Restart(s)) && Rank(Restart(s).world) <= Rank(s.world)
    ensures Asking(s.world) && s.world.spec.autoApproveCSR ==> Asking(Restart(s).world)
    ensures Restart(s).world.spec == s.world.spec
  {
    RestartFacts(s);
    RunKeepsSurroundings(s.world);
    if s.world.csr.Some? {
      FirstRunKeepsCsr(s.world);
    } else if !s.world.kubeconfig.status.Terminal() {
      FirstRunIssues(s.world);
    }
  }

  lemma IssuePhase(s: System, noise: seq<Action>)
    requires Inv(s) && (s.world.csr.Some? || CanIssue(s.world)) && KeepsCsr(noise)
    ensures var t := Run(Restart(s), noise);
      Inv(t) && Rank(t.world) <= 3
  {
    EachPartyMakesProgress(s);
    RestartNeverRaisesRank(s);
    NoiseNeverRaisesRank(Restart(s), noise);
  }

  lemma OutsidePhase(s: System, a: Action, noise: seq<Action>)
    requires Inv(s) && a.Outside? && a != Outside(DeleteCsr) && KeepsCsr(noise)
    ensures var t := Run(Apply(s, a), noise);
      Inv(t) && Rank(t.world) <= Rank(Apply(s, a).world) <= Rank(s.world)
  {
    StepKeepsInv(s, a);
    StepNeverRaisesRank(s, a);
    NoiseNeverRaisesRank(Apply(s, a), noise);
  }

  /** From an approved CSR on. */
  lemma FinalPhases(approved: System, noise: seq<Action>)
    requires Inv(approved) && Rank(approved.world) <= 2 && KeepsCsr(noise)
    ensures var signed := Run(Apply(approved, Outside(SignCsr)), noise);
      CanAnswer(signed.world) ==> Restart(signed).world.kubeconfig.status.Terminal()
  {
    EachPartyMakesProgress(approved);
    OutsidePhase(approved, Outside(SignCsr), noise);
    var signed := Run(Apply(approved, Outside(SignCsr)), noise);
    EachPartyMakesProgress(signed);
    RestartNeverRaisesRank(signed);
  }

  /** The good steps need not come in one piece. Between them, any number of steps of anyone may happen,
      with failures, lost replies, crashes, edits, denials: as long as the CSR is not deleted from then
      on, and in the end the CA is published and the binding can be had, the protocol finishes. */
  lemma FinishesAmidNoise(s0: System, before: seq<Action>,
                          noise1: seq<Action>, noise2: seq<Action>, noise3: seq<Action>)
    requires Initial(s0) && CanIssue(Run(s0, before).world)
    requires KeepsCsr(noise1) && KeepsCsr(noise2) && KeepsCsr(noise3)
    ensures
      var issued := Run(Restart(Run(s0, before)), noise1);
      var approved := Run(Apply(issued, Outside(HumanApprove)), noise2);
      var signed := Run(Apply(approved, Outside(SignCsr)), noise3);
      CanAnswer(signed.world) ==> Restart(signed).world.kubeconfig.status.Terminal()
  {
    var s := Run(s0, before);
    InitialInv(s0);
    RunKeepsInv(s0, before);
    IssuePhase(s, noise1);
    var issued := Run(Restart(s), noise1);
    EachPartyMakesProgress(issued);
    OutsidePhase(issued, Outside(HumanApprove), noise2);
    FinalPhases(Run(Apply(issued, Outside(HumanApprove)), noise2), noise3);
  }

  /** Nobody edits the owner or the annotation out of the CSR. */
  predicate KeepsAsking(actions: seq<Action>) {
    forall i :: 0 <= i < |actions| ==> StillAsks(actions[i])
  }

  predicate StillAsks(a: Action) {
    a.Outside? && a.action.EditCsr? ==> OwnedByKubeconfig(a.action.owners) && AutoApproves(a.action.annotations)
  }

  lemma StepKeepsAsking(s: System, a: Action)
    requires ApproverInv(s) && s.world.spec.autoApproveCSR && Asking(s.world) && StillAsks(a)
    ensures Asking(Apply(s, a).world)
  {
    match a
    case Work(outcome) =>
      WorkStepEffect(s.world, s.worker, outcome);
      assert OwnerReference(API_VERSION, "Kubeconfig", s.world.name) in
        NewCsr(s.world.name, s.world.spec, Empty, 0).owners;
    case _ =>
  }

  lemma {:induction false} RunKeepsAsking(s: System, actions: seq<Action>)
    requires Inv(s) && s.world.spec.autoApproveCSR && Asking(s.world) && KeepsAsking(actions)
    ensures Asking(Run(s, actions).world) && Run(s, actions).world.spec.autoApproveCSR
  {
    BindingHistory(s, actions);
    if actions != [] {
      var n := |actions| - 1;
      RunKeepsAsking(s, actions[..n]);
      RunKeepsInv(s, actions[..n]);
      StepKeepsAsking(Run(s, actions[..n]), actions[n]);
    }
  }

  lemma ApproverPhase(s: System, noise: seq<Action>)
    requires Inv(s) && Rank(s.world) <= 3 && Asking(s.world) && KeepsCsr(noise)
    ensures var t := Run(RestartApprover(s), noise);
      Inv(t) && Rank(t.world) <= 2
  {
    EachPartyMakesProgress(s);
    RestartApproverFacts(s);
    NoiseNeverRaisesRank(RestartApprover(s), noise);
  }

  /** Nobody needs to approve a CSR that asks for it: the operator itself does, amid the same noise. */
  lemma FinishesByItself(s0: System, before: seq<Action>,
                         noise1: seq<Action>, noise2: seq<Action>, noise3: seq<Action>)
    requires Initial(s0) && CanIssue(Run(s0, before).world)
    requires KeepsCsr(noise1) && KeepsCsr(noise2) && KeepsCsr(noise3)
    ensures
      var issued := Run(Restart(Run(s0, before)), noise1);
      var approved := Run(RestartApprover(issued), noise2);
      var signed := Run(Apply(approved, Outside(SignCsr)), noise3);
      Asking(issued.world) && CanAnswer(signed.world) ==> Restart(signed).world.kubeconfig.status.Terminal()
  {
    var s := Run(s0, before);
    InitialInv(s0);
    RunKeepsInv(s0, before);
    IssuePhase(s, noise1);
    var issued := Run(Restart(s), noise1);
    if Asking(issued.world) {
      ApproverPhase(issued, noise2);
      FinalPhases(Run(RestartApprover(issued), noise2), noise3);
    }
  }

  /** With automatic approval the CSR does ask for it, as long as nobody edits the owner or the annotation
      out of it. */
  lemma AutomaticApprovalAsks(s0: System, before: seq<Action>, noise: seq<Action>)
    requires Initial(s0) && s0.world.spec.autoApproveCSR && KeepsAsking(before) && KeepsAsking(noise)
    ensures Asking(Run(Restart(Run(s0, before)), noise).world)
  {
    InitialInv(s0);
    RunKeepsInv(s0, before);
    RunKeepsAsking(s0, before);
    RestartNeverRaisesRank(Run(s0, before));
    RunKeepsAsking(Restart(Run(s0, before)), noise);
  }
}
