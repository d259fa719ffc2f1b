/** Once failures stop, the protocol finishes: exactly when, and exactly from where it can at all. */
module Convergence {
  import opened Wrappers
  import opened Credentials
  import opened Conditions
  import opened Objects
  import opened Acceptance
  import opened Resources
  import opened Protocol
  import opened Safety
  import opened Drive
  import opened WholeRun

  // ----- convergence

  /** A failure-free run of the CSR reconciler, as one update. */
  function CsrReconciledWorld(w: World): World {
    if w.csr.Some? && IsKubeconfigCsr(w.csr.value) && HasAutoApproveAnnotation(w.csr.value)
       && w.csr.value.flags.Pending()
    then
      var verdict := if Parses(w.csr.value.request) then Approved else Failed;
      PutCsr(w, w.csr.value.(flags := w.csr.value.flags.With(verdict)))
    else w
  }

  lemma ReconcileCsrIsOneUpdate(s: System)
    requires s.approver.Resting?
    ensures ReconcileCsr(s) == System(CsrReconciledWorld(s.world), s.worker, Resting)
  {
    var s1 := Apply(s, Outside(StartApprover));
    ServedApproverCall(s1);
    var s2 := Apply(s1, Outside(ApproverStep(Served)));
    if !s2.approver.Resting? {
      ServedApproverCall(s2);
    }
  }

  lemma ServedApproverCall(s: System)
    requires !s.approver.Resting?
    ensures DriveApprover(s, []) == DriveApprover(Apply(s, Outside(ApproverStep(Served))), [])
  {
    assert CallApprover(s, ApproverHead([])) == Apply(s, Outside(ApproverStep(Served)));
  }

  /** The schedule once failures have stopped: both workers restart, the reconciler runs, the CSR
      reconciler runs, a person may approve, the signer signs, and the reconciler runs again. */
  function Settle(s: System, human: bool): System {
    var s1 := Reconcile(Apply(Apply(s, Crash), Outside(CrashApprover)));
    var s2 := ReconcileCsr(s1);
    var s3 := if human then Apply(s2, Outside(HumanApprove)) else s2;
    Reconcile(Apply(s3, Outside(SignCsr)))
  }

  /** Nobody else puts a secret or a binding under the derived names. */
  predicate BringsNothing(a: Action) {
    a.Outside? ==> !a.action.PutSecret? && !a.action.PutCrb?
  }

  predicate BringNothing(actions: seq<Action>) {
    forall i :: 0 <= i < |actions| ==> BringsNothing(actions[i])
  }

  /** There is a run from one state to the other into which nobody brings objects of his own. */
  ghost predicate Leads(s: System, t: System) {
    exists actions :: BringNothing(actions) && Run(s, actions) == t
  }

  lemma LeadsToItself(s: System)
    ensures Leads(s, s)
  {
    assert BringNothing([]) && Run(s, []) == s;
  }

  lemma LeadsOn(s: System, t: System, a: Action)
    requires Leads(s, t) && BringsNothing(a)
    ensures Leads(s, Apply(t, a))
  {
    var actions :| BringNothing(actions) && Run(s, actions) == t;
    RunAppend(s, actions, a);
    assert BringNothing(actions + [a]);
  }

  lemma {:induction false} LeadsToReturn(s: System, t: System)
    requires Leads(s, t)
    ensures Leads(s, DriveWorker(t, []).0)
    decreases CallsLeft(t.worker)
  {
    if !t.worker.Idle? {
      ServedCall(t);
      CallsRunOut(t, Head([]));
      LeadsOn(s, t, Work(Served));
      LeadsToReturn(s, Apply(t, Work(Served)));
    }
  }

  lemma {:induction false} LeadsToApproverReturn(s: System, t: System)
    requires Leads(s, t)
    ensures Leads(s, DriveApprover(t, []).0)
    decreases ApproverCallsLeft(t.approver)
  {
    if !t.approver.Resting? {
      ServedApproverCall(t);
      ApproverCallsRunOut(t, ApproverHead([]));
      LeadsOn(s, t, Outside(ApproverStep(Served)));
      LeadsToApproverReturn(s, Apply(t, Outside(ApproverStep(Served))));
    }
  }

  lemma LeadsToReconcile(s: System, t: System)
    requires Leads(s, t)
    ensures Leads(s, Reconcile(t))
  {
    LeadsOn(s, t, Start);
    LeadsToReturn(s, Apply(t, Start));
  }

  lemma LeadsToReconcileCsr(s: System, t: System)
    requires Leads(s, t)
    ensures Leads(s, ReconcileCsr(t))
  {
    LeadsOn(s, t, Outside(StartApprover));
    LeadsToApproverReturn(s, Apply(t, Outside(StartApprover)));
  }

  lemma LeadsKeepsInv(s: System, t: System)
    requires Leads(s, t) && Inv(s)
    ensures Inv(t)
  {
    var actions :| BringNothing(actions) && Run(s, actions) == t;
    RunKeepsInv(s, actions);
  }

  /** The schedule is a run of the protocol. */
  lemma SettleIsRun(s: System, human: bool)
    ensures Leads(s, Settle(s, human))
  {
    LeadsToItself(s);
    LeadsOn(s, s, Crash);
    LeadsOn(s, Apply(s, Crash), Outside(CrashApprover));
    var s0 := Apply(Apply(s, Crash), Outside(CrashApprover));
    LeadsToReconcile(s, s0);
    var s1 := Reconcile(s0);
    LeadsToReconcileCsr(s, s1);
    var s2 := ReconcileCsr(s1);
    LeadsOn(s, s2, Outside(HumanApprove));
    var s3 := if human then Apply(s2, Outside(HumanApprove)) else s2;
    LeadsOn(s, s3, Outside(SignCsr));
    LeadsToReconcile(s, Apply(s3, Outside(SignCsr)));
  }

  /** Somebody will approve: a person, or the operator because the CSR is, or will be, annotated. */
  predicate WillBeApproved(w: World, human: bool) {
    human || (if w.csr.None? then w.spec.autoApproveCSR else
                w.csr.value.flags.approved || AsksForApproval(w.csr.value))
  }

  /** The secret that is to hold the key pair is not there yet, or it takes one: it has a data map and is
      not immutable. */
  predicate SecretTakesKeys(w: World) {
    w.secret.Some? ==> w.secret.value.Usable()
  }

  /** The reconciler can make a CSR: it knows the algorithm, the secret takes the keys, and the API server
      accepts the labels. */
  predicate CanIssue(w: World) {
    Supported(w.spec.csr.value.signatureAlgorithm) && SecretTakesKeys(w) && LabelsAccepted(w.name, w.spec)
  }

  predicate CanDeliver(w: World, human: bool) {
    && (w.csr.Some? || CanIssue(w))
    && WillBeApproved(w, human)
    && w.rootCa.Some? && BindingObtainable(w)
  }

  function ApproveAndSign(w: World, human: bool): World {
    var w2 := CsrReconciledWorld(w);
    var w3 := if human then OutsideStep(w2, Resting, HumanApprove).0 else w2;
    OutsideStep(w3, Resting, SignCsr).0
  }

  /** The world just before the last run of the schedule. */
  function Signed(w: World, human: bool): World {
    ApproveAndSign(ReconciledWorld(w), human)
  }

  lemma SettleIsOneUpdate(s: System, human: bool)
    ensures Settle(s, human).world == ReconciledWorld(Signed(s.world, human))
  {
    var s0 := Apply(Apply(s, Crash), Outside(CrashApprover));
    ReconcileIsOneUpdate(s0);
    var s1 := Reconcile(s0);
    ReconcileCsrIsOneUpdate(s1);
    var s2 := ReconcileCsr(s1);
    var s3 := if human then Apply(s2, Outside(HumanApprove)) else s2;
    ReconcileIsOneUpdate(Apply(s3, Outside(SignCsr)));
  }

  /** What a run leaves as it is. */
  predicate SameSurroundings(v: World, w: World) {
    && w.rootCa == v.rootCa && w.spec == v.spec && w.name == v.name
    && (w.crb == v.crb || (BindingObtainable(v) && w.crb.Some?))
  }

  lemma IssueKeepsSurroundings(w: World, k: Kubeconfig)
    requires w.secret.Some? && w.csr.None?
    ensures SameSurroundings(w, IssueCsr(w, k))
  {
  }

  lemma DeliverKeepsSurroundings(w: World, k: Kubeconfig, certificate: Bytes)
    requires w.secret.Some? && w.secret.value.data.Some? && w.rootCa.Some?
    ensures SameSurroundings(w, Deliver(w, k, certificate))
  {
  }

  lemma RunKeepsSurroundings(v: World)
    ensures SameSurroundings(v, ReconciledWorld(v))
    ensures BindingObtainable(ReconciledWorld(v)) <==> BindingObtainable(v)
  {
    if v.secret.Some? || LabelsAccepted(v.name, v.spec) {
      var (w, k) := EnsureSecret(v);
      assert SameSurroundings(v, w) && w.crb == v.crb;
      if w.csr.None? {
        IssueKeepsSurroundings(w, k);
      } else if w.secret.value.Usable() && w.rootCa.Some? {
        DeliverKeepsSurroundings(w, k, w.csr.value.certificate);
      }
    }
  }

  /** What the first run achieves without a CSR. */
  lemma FirstRunIssues(v: World)
    requires !v.kubeconfig.status.Terminal() && v.csr.None?
    ensures var w := ReconciledWorld(v);
      && (!CanIssue(v) ==> w.csr.None?)
      && (CanIssue(v) ==>
            && w.csr.Some? && WellIssued(w) && w.csr.value.flags == PENDING && w.csr.value.certificate.Empty?
            && IsKubeconfigCsr(w.csr.value) && Parses(w.csr.value.request)
            && (HasAutoApproveAnnotation(w.csr.value) <==> v.spec.autoApproveCSR))
  {
    if CanIssue(v) {
      IssuedCsr(v);
      assert OwnerReference(API_VERSION, "Kubeconfig", v.name) in ReconciledWorld(v).csr.value.owners;
    } else {
      NothingIssued(v);
    }
  }

  lemma IssuedCsr(v: World)
    requires !v.kubeconfig.status.Terminal() && v.csr.None? && CanIssue(v)
    ensures var w, request := ReconciledWorld(v), NewRequest(v.spec.username, v.spec.csr.value, v.keys);
      && w.csr.Some? && w.csr.value == NewCsr(v.name, v.spec, request, w.csr.value.version)
      && w.secret.Some? && w.secret.value.Usable()
  {
  }

  lemma NothingIssued(v: World)
    requires v.csr.None? && !CanIssue(v)
    ensures ReconciledWorld(v).csr.None?
  {
  }

  /** A run that finds a CSR leaves it as it is. */
  lemma FirstRunKeepsCsr(v: World)
    requires v.csr.Some?
    ensures ReconciledWorld(v).csr == v.csr
    ensures WellIssued(v) ==> WellIssued(ReconciledWorld(v))
  {
  }

  /** Approval and signature in between. */
  lemma ApproveAndSignFacts(w: World, human: bool)
    requires WellIssued(w) && !Refused(w)
    ensures var t := ApproveAndSign(w, human);
      && WellIssued(t) && t.kubeconfig.status == w.kubeconfig.status && !Refused(t)
      && (Deliverable(t) <==>
            && w.csr.Some? && w.rootCa.Some? && BindingObtainable(w)
            && (human || w.csr.value.flags.approved
                || (IsKubeconfigCsr(w.csr.value) && HasAutoApproveAnnotation(w.csr.value))))
  {
  }

  lemma SignedIsDeliverable(v: World, human: bool)
    requires !v.kubeconfig.status.Terminal() && !Refused(v) && WellIssued(v)
    ensures var w := Signed(v, human);
      && WellIssued(w) && w.kubeconfig.status == ReconciledWorld(v).kubeconfig.status
      && !Refused(w)
      && (Deliverable(w) <==> CanDeliver(v, human))
  {
    RunKeepsSurroundings(v);
    if v.csr.None? {
      FirstRunIssues(v);
    } else {
      FirstRunKeepsCsr(v);
    }
    ApproveAndSignFacts(ReconciledWorld(v), human);
  }

  /** The status the schedule ends with. */
  predicate Outcomes(before: KubeconfigStatus, after: KubeconfigStatus, refused: bool, delivers: bool) {
    if before.Terminal() then after == before
    else
      && (after.Is(KubeconfigFinished, False) <==> refused)
      && (after.Is(KubeconfigFinished, True) <==> !refused && delivers)
      && (after.Terminal() <==> refused || delivers)
  }

  lemma ScheduleOutcome(v: World, human: bool)
    requires WellIssued(v)
    ensures Outcomes(v.kubeconfig.status, ReconciledWorld(Signed(v, human)).kubeconfig.status,
                     Refused(v), CanDeliver(v, human))
  {
    if v.kubeconfig.status.Terminal() {
      TerminalStaysSigned(v, human);
    } else {
      RunDecides(v);
      if ReconciledWorld(v).kubeconfig.status.Terminal() {
        TerminalStaysSigned(v, human);
      } else {
        SignedIsDeliverable(v, human);
        RunDecides(Signed(v, human));
      }
    }
  }

  lemma TerminalStaysSigned(v: World, human: bool)
    requires ReconciledWorld(v).kubeconfig.status.Terminal()
    ensures ReconciledWorld(Signed(v, human)).kubeconfig.status == ReconciledWorld(v).kubeconfig.status
  {
  }

  /** From every reachable state, also one left behind by crashes, the schedule ends in a terminal
      condition exactly when the outcome was already decided, the CSR was denied or failed, or all of the
      following hold: there is a CSR, or one can be made since the algorithm of the spec is known, no
      secret without data or immutable is in the way, and the names are label values; somebody approves;
      the cluster CA is published; and there is a binding, or the API server accepts the operator's. It is
      False exactly in the second case and True in the third. */
  lemma SettlesExactlyWhen(s0: System, actions: seq<Action>, human: bool)
    requires Initial(s0)
    ensures var s := Run(s0, actions);
      Outcomes(s.world.kubeconfig.status, Settle(s, human).world.kubeconfig.status,
               Refused(s.world), CanDeliver(s.world, human))
  {
    var s := Run(s0, actions);
    InitialInv(s0);
    RunKeepsInv(s0, actions);
    SettleIsOneUpdate(s, human);
    ScheduleOutcome(s.world, human);
  }

  /** If a CSR can be made and the binding be had, the CA is published and a person approves, the protocol
      always finishes. */
  lemma AlwaysFinishes(s0: System, actions: seq<Action>)
    requires Initial(s0) && CanIssue(Run(s0, actions).world)
    requires Run(s0, actions).world.rootCa.Some? && BindingObtainable(Run(s0, actions).world)
    ensures Settle(Run(s0, actions), true).world.kubeconfig.status.Terminal()
  {
    SettlesExactlyWhen(s0, actions, true);
  }

  /** Without a CSR and without a way to make one. */
  predicate Stuck(s: System) {
    && s.world.csr.None? && !CanIssue(s.world)
    && !s.world.kubeconfig.status.Terminal()
    && match s.worker {
         case Idle => true
         case GetKubeconfig => true
         case GetSecret(k) => !k.status.Terminal()
         case CreateSecret(k) => !k.status.Terminal()
         case GetCsr(k, secret) => !k.status.Terminal() && s.world.secret == Some(secret)
         case WriteKeys(k, _) =>
           && !k.status.Terminal() && Supported(s.world.spec.csr.value.signatureAlgorithm)
           && ((s.world.secret.Some? && s.world.secret.value.immutable) || !LabelsAccepted(s.world.name, s.world.spec))
         case CreateCsr(k, _) => !k.status.Terminal() && !LabelsAccepted(s.world.name, s.world.spec)
         case Commit(k) => !k.status.Terminal()
         case _ => false
       }
  }

  lemma StuckStaysStuck(s: System, a: Action)
    requires ApproverInv(s) && Stuck(s)
    ensures Stuck(Apply(s, a))
  {
    match a
    case Outside(o) => OutsideStepEffect(s.world, s.approver, o);
    case Work(outcome) => WorkStepEffect(s.world, s.worker, outcome);
    case _ =>
  }

  /** With an unknown algorithm, with a secret in the way that takes no keys, or with a name that is no
      label value, the protocol never gets anywhere, whatever happens: no CSR is ever made and no terminal
      condition reached. */
  lemma {:induction false} NeverFinishesWithoutIssue(s0: System, actions: seq<Action>)
    requires Initial(s0) && !CanIssue(s0.world)
    ensures Run(s0, actions).world.csr.None? && !Run(s0, actions).world.kubeconfig.status.Terminal()
    ensures Inv(Run(s0, actions)) && Stuck(Run(s0, actions))
  {
    InitialInv(s0);
    if actions != [] {
      var n := |actions| - 1;
      NeverFinishesWithoutIssue(s0, actions[..n]);
      StuckStaysStuck(Run(s0, actions[..n]), actions[n]);
    }
    RunKeepsInv(s0, actions);
  }

  /** The plainest of such secrets is one that was stored without data. The reconciler generates a key
      pair, panics on the nil map, and starts over: each of its runs only counts up the key pairs, and no
      run of the protocol finishes although nothing else is amiss. */
  lemma SecretWithoutDataBlocks(s0: System, actions: seq<Action>)
    requires Initial(s0) && Supported(s0.world.spec.csr.value.signatureAlgorithm)
    requires s0.world.secret.Some? && s0.world.secret.value.data.None?
    ensures Reconcile(s0).world == s0.world.(keys := s0.world.keys + 1)
    ensures Run(s0, actions).world.csr.None? && !Run(s0, actions).world.kubeconfig.status.Terminal()
  {
    ReconcileIsOneUpdate(s0);
    VainRunCountsUp(s0.world);
    NeverFinishesWithoutIssue(s0, actions);
  }

  /** A mail address, which the webhook admits as a username, makes such a spec. */
  lemma MailAddressNeverFinishes(s0: System, user: string, host: string, actions: seq<Action>)
    requires Initial(s0) && s0.world.spec.username == user + "@" + host
    ensures Run(s0, actions).world.csr.None? && !Run(s0, actions).world.kubeconfig.status.Terminal()
  {
    MailAddressIsNoLabel(user, host);
    NeverFinishesWithoutIssue(s0, actions);
  }

  /** A name of more than 63 characters, which a kubeconfig may have, does too. */
  lemma LongNameNeverFinishes(s0: System, actions: seq<Action>)
    requires Initial(s0) && (|s0.world.name| > 63 || |s0.world.spec.username| > 63)
    ensures Run(s0, actions).world.csr.None? && !Run(s0, actions).world.kubeconfig.status.Terminal()
  {
    NeverFinishesWithoutIssue(s0, actions);
  }

  predicate FinishedWith(w: World, crb: ClusterRoleBinding) {
    w.kubeconfig.status.Is(KubeconfigFinished, True) && w.crb == Some(crb)
  }

  predicate LeavesBinding(actions: seq<Action>) {
    forall i :: 0 <= i < |actions| ==> ForeignBindingOf(actions[i]).None?
  }

  lemma {:induction false} NoForeignBinding(s0: System, actions: seq<Action>)
    requires LeavesBinding(actions)
    ensures ForeignBinding(s0, actions) == s0.world.crb
  {
    if actions != [] {
      var n := |actions| - 1;
      NoForeignBinding(s0, actions[..n]);
    }
  }

  lemma PreparedStart(s0: System)
    requires Initial(s0) && CanIssue(s0.world) && BindingObtainable(s0.world)
    ensures var s := Apply(s0, Outside(SetRootCa(Some(Empty))));
      && s.world.crb == s0.world.crb && s.world.spec == s0.world.spec && s.world.name == s0.world.name
      && !s.world.kubeconfig.status.Terminal() && !Refused(s.world) && CanDeliver(s.world, true)
  {
  }

  /** From a start at which a CSR can be made and a binding be had, the operator alone, with the CA
      published, the CSR approved by a person and signed, gets to the end. */
  lemma FinishingRun(s0: System) returns (actions: seq<Action>)
    requires Initial(s0) && CanIssue(s0.world) && BindingObtainable(s0.world)
    ensures BringNothing(actions)
    ensures FinishedWith(Run(s0, actions).world,
                         if s0.world.crb.Some? then s0.world.crb.value else NewClusterRoleBinding(s0.world.spec))
  {
    var publish := [Outside(SetRootCa(Some(Empty)))];
    RunAppend(s0, [], publish[0]);
    assert [] + publish == publish;
    PreparedStart(s0);
    var s := Run(s0, publish);
    SettlesExactlyWhen(s0, publish, true);
    SettleIsRun(s, true);
    var more :| BringNothing(more) && Run(s, more) == Settle(s, true);
    actions := publish + more;
    RunConcat(s0, publish, more);
    NoForeignBinding(s0, actions);
    FinishedBinding(s0, actions);
  }

  lemma FinishedBinding(s0: System, actions: seq<Action>)
    requires Initial(s0) && Run(s0, actions).world.kubeconfig.status.Is(KubeconfigFinished, True)
    ensures Run(s0, actions).world.crb == match ForeignBinding(s0, actions)
      case Some(crb) => Some(crb)
      case None => Some(NewClusterRoleBinding(s0.world.spec))
  {
    InitialInv(s0);
    RunKeepsInv(s0, actions);
    BindingHistory(s0, actions);
  }

  lemma StartWithBinding(s0: System, crb: ClusterRoleBinding)
    requires Initial(s0) && CanIssue(s0.world) && (s0.world.crb.Some? ==> s0.world.crb == Some(crb))
    ensures var s := Apply(s0, Outside(PutCrb(crb))); Initial(s) && CanIssue(s.world) && s.world.crb == Some(crb)
  {
  }

  /** Any binding that is found, or put under the name in time, is adopted by some run that finishes. */
  lemma ForeignBindingIsAdopted(s0: System, crb: ClusterRoleBinding)
    requires Initial(s0) && CanIssue(s0.world) && (s0.world.crb.Some? ==> s0.world.crb == Some(crb))
    ensures exists actions :: FinishedWith(Run(s0, actions).world, crb)
  {
    var put := [Outside(PutCrb(crb))];
    RunAppend(s0, [], put[0]);
    assert [] + put == put;
    StartWithBinding(s0, crb);
    var more := FinishingRun(Run(s0, put));
    RunConcat(s0, put, more);
    assert FinishedWith(Run(s0, put + more).world, crb);
  }

  /** So a start can lead to a finished kubeconfig exactly when a CSR can be made from it, and, unless
      somebody else may still put a binding there, a binding can be had. */
  lemma SomeRunFinishesExactlyWhen(s0: System, mayBind: bool)
    requires Initial(s0)
    ensures (exists actions :: (mayBind || LeavesBinding(actions))
                               && Run(s0, actions).world.kubeconfig.status.Is(KubeconfigFinished, True))
            <==> CanIssue(s0.world) && (mayBind || BindingObtainable(s0.world))
  {
    if CanIssue(s0.world) && BindingObtainable(s0.world) {
      var actions := FinishingRun(s0);
      assert LeavesBinding(actions);
    } else if CanIssue(s0.world) && mayBind {
      ForeignBindingIsAdopted(s0, NewClusterRoleBinding(s0.world.spec));
    } else {
      forall actions | mayBind || LeavesBinding(actions)
        ensures !Run(s0, actions).world.kubeconfig.status.Is(KubeconfigFinished, True)
      {
        NeverFinishesUnbound(s0, actions);
      }
    }
  }

  lemma NeverFinishesUnbound(s0: System, actions: seq<Action>)
    requires Initial(s0)
    requires !CanIssue(s0.world) || (LeavesBinding(actions) && !BindingObtainable(s0.world))
    ensures !Run(s0, actions).world.kubeconfig.status.Is(KubeconfigFinished, True)
  {
    if !CanIssue(s0.world) {
      NeverFinishesWithoutIssue(s0, actions);
    } else if Run(s0, actions).world.kubeconfig.status.Is(KubeconfigFinished, True) {
      NoForeignBinding(s0, actions);
      FinishedHasBinding(s0, actions);
      BindingHistory(s0, actions);
    }
  }

  /** A role of a namespace, which the webhook admits too, cannot be bound in the whole cluster. */
  lemma NamespacedRoleNeverFinishes(s0: System, actions: seq<Action>)
    requires Initial(s0) && s0.world.crb.None? && s0.world.spec.roleRef.value.kind == "Role" && LeavesBinding(actions)
    ensures !Run(s0, actions).world.kubeconfig.status.Is(KubeconfigFinished, True)
  {
    NeverFinishesUnbound(s0, actions);
  }
}
