/** Between two edits of the spec the protocol is the one without edits, and gets to its end as that does;
    and the edits that end with what belongs to the former spec: its user's certificate, or its role. */
module FormerSpec {
  import opened Wrappers
  import opened Credentials
  import opened Conditions
  import opened Objects
  import opened Acceptance
  import opened Admission
  import opened Protocol
  import opened Safety
  import opened WholeRun
  import opened Convergence
  import opened StaleCertificate
  import opened SpecEdits
  import opened EditedOutcomes

  // ----- without edits

  function Unedited(actions: seq<Action>): seq<Move> {
    seq(|actions|, i requires 0 <= i < |actions| => Usual(actions[i]))
  }

  /** The worker goes by the stored spec, or is about to read it. */
  predicate InStep(l: Live) {
    l.worker.Idle? || l.worker.GetKubeconfig? || l.read == l.world.spec
  }

  lemma AsStoredIsBack(l: Live, s: System)
    requires s.world.spec == l.world.spec && (s.world.crb.Some? || BindingOf(l, l.world.spec.username).None?)
    ensures AsStored(Back(l, l.world.spec.username, s)) == s
  {
  }

  lemma AsStoredShows(l: Live)
    ensures var w := AsStored(l).world;
      && w.kubeconfig == l.world.kubeconfig && w.csr == l.world.csr && w.secret == l.world.secret
      && w.rootCa == l.world.rootCa && w.spec == l.world.spec && w.crb == BindingOf(l, l.world.spec.username)
      && AsStored(l).worker == l.worker
  {
  }

  lemma FirstCallIgnoresSpec(l: Live, outcome: Outcome)
    requires l.worker.Idle? || l.worker.GetKubeconfig?
    ensures AsStored(WorkLive(l, outcome)) == Apply(AsStored(l), Work(outcome)) && InStep(WorkLive(l, outcome))
  {
  }

  lemma LaterCallIsPlain(l: Live, outcome: Outcome)
    requires l.read == l.world.spec && !l.worker.Idle? && !l.worker.GetKubeconfig?
    ensures AsStored(WorkLive(l, outcome)) == Apply(AsStored(l), Work(outcome)) && InStep(WorkLive(l, outcome))
  {
    BindingStep(AsStored(l), Work(outcome));
    AsStoredIsBack(l, Apply(AsStored(l), Work(outcome)));
  }

  lemma UneditedStep(l: Live, a: Action)
    requires InStep(l)
    ensures AsStored(StepLive(l, Usual(a))) == Apply(AsStored(l), a) && InStep(StepLive(l, Usual(a)))
  {
    if a.Work? {
      if l.worker.Idle? || l.worker.GetKubeconfig? {
        FirstCallIgnoresSpec(l, a.outcome);
      } else {
        LaterCallIsPlain(l, a.outcome);
      }
    } else {
      BindingStep(AsStored(l), a);
      AsStoredIsBack(l, Apply(AsStored(l), a));
    }
  }

  /** As long as nobody edits the spec this is the protocol as it stands, from the state that the edits left.
      So what is proved of its runs from any state holds between two edits; what is proved from an initial
      state, or under the invariant for a frozen spec, need not. */
  lemma {:induction false} UneditedRun(l: Live, actions: seq<Action>)
    requires InStep(l)
    ensures AsStored(RunLive(l, Unedited(actions))) == Run(AsStored(l), actions)
    ensures InStep(RunLive(l, Unedited(actions)))
  {
    if actions != [] {
      var n := |actions| - 1;
      UneditedRun(l, actions[..n]);
      assert Unedited(actions)[..n] == Unedited(actions[..n]);
      UneditedStep(RunLive(l, Unedited(actions[..n])), actions[n]);
    }
  }

  // ----- when edits stop

  lemma CrashedSettle(s: System, human: bool)
    ensures Settle(Apply(s, Crash), human) == Settle(s, human)
  {
    assert Apply(Apply(s, Crash), Crash) == Apply(s, Crash);
  }

  /** From every state that any edits have left, the schedule ends exactly as without edits, decided by the
      spec that is stored then; and it is a run of the protocol with edits. */
  lemma SettlesThoughEdited(l0: Live, moves: seq<Move>, human: bool)
    requires InitialLive(l0)
    ensures var l := RunLive(l0, moves);
      && Outcomes(l.world.kubeconfig.status, Settle(AsStored(l), human).world.kubeconfig.status,
                  Refused(l.world), CanDeliver(AsStored(l).world, human))
      && exists actions :: AsStored(RunLive(l, [Usual(Crash)] + Unedited(actions))) == Settle(AsStored(l), human)
  {
    var l := RunLive(l0, moves);
    InitialLiveInv(l0);
    RunKeepsLiveInv(l0, moves);
    SettleIsOneUpdate(AsStored(l), human);
    ScheduleOutcome(AsStored(l).world, human);
    SettleIsLiveRun(l, human);
  }

  lemma SettleIsLiveRun(l: Live, human: bool)
    ensures exists actions :: AsStored(RunLive(l, [Usual(Crash)] + Unedited(actions))) == Settle(AsStored(l), human)
  {
    var crashed := StepLive(l, Usual(Crash));
    AsStoredIsBack(l, Apply(AsStored(l), Crash));
    CrashedSettle(AsStored(l), human);
    SettleIsRun(AsStored(crashed), human);
    var actions :| BringNothing(actions) && Run(AsStored(crashed), actions) == Settle(AsStored(crashed), human);
    UneditedRun(crashed, actions);
    assert [Usual(Crash)][..0] == [] && RunLive(l, [Usual(Crash)]) == crashed;
    RunLiveConcat(l, [Usual(Crash)], Unedited(actions));
  }

  // ----- another user

  /** The update that gives the kubeconfig to another user. */
  function Rename(spec: Spec, username: string): UpdateRequest {
    UpdateRequest(spec.(username := username), None)
  }

  function Renamed(l: Live, username: string): Live {
    Edited(l, Rename(l.world.spec, username))
  }

  lemma RenamedState(l: Live, username: string)
    requires Supported(l.world.spec.csr.value.signatureAlgorithm) && BindingAccepted(l.world.name, l.world.spec)
    requires IsLabelValue(username) && username != ""
    ensures var t := Renamed(l, username);
      && t.world.spec.username == username && t.world.spec.csr == l.world.spec.csr
      && t.world.csr == l.world.csr && t.world.rootCa == l.world.rootCa && t.world.name == l.world.name
      && t.world.kubeconfig.status == l.world.kubeconfig.status && t.world.secret == l.world.secret
      && t.worker == l.worker && BindingAccepted(t.world.name, t.world.spec)
  {
  }

  /** The CA is published, a person approves and the signer signs. */
  function Approved(s: System): System {
    Apply(Apply(Apply(s, Outside(SetRootCa(Some(Empty)))), Outside(HumanApprove)), Outside(SignCsr))
  }

  /** Then the reconciler finishes. */
  function Finish(s: System): System {
    Reconcile(Approved(s))
  }

  lemma ApprovedLeads(s: System, t: System)
    requires Leads(s, t)
    ensures Leads(s, Approved(t))
  {
    LeadsOn(s, t, Outside(SetRootCa(Some(Empty))));
    LeadsOn(s, Apply(t, Outside(SetRootCa(Some(Empty)))), Outside(HumanApprove));
    LeadsOn(s, Apply(Apply(t, Outside(SetRootCa(Some(Empty)))), Outside(HumanApprove)), Outside(SignCsr));
  }

  lemma FinishLeads(s: System)
    ensures Leads(s, Finish(s))
  {
    LeadsToItself(s);
    ApprovedLeads(s, s);
    LeadsToReconcile(s, Approved(s));
  }

  lemma ApprovedState(s: System)
    requires WellIssued(s.world)
    requires s.world.csr.Some? && s.world.csr.value.flags == PENDING && s.world.csr.value.certificate.Empty?
    ensures var t := Approved(s);
      && Answered(t.world) && WellIssued(t.world) && t.world.csr.value.request == s.world.csr.value.request
      && t.world.spec == s.world.spec && t.world.name == s.world.name && t.world.crb == s.world.crb
      && t.world.secret == s.world.secret && t.world.kubeconfig == s.world.kubeconfig
      && t.worker == s.worker && t.approver == s.approver
  {
  }

  lemma FinishFinishes(s: System)
    requires s.worker.Idle? && !s.world.kubeconfig.status.Terminal() && WellIssued(s.world)
    requires s.world.csr.Some? && s.world.csr.value.flags == PENDING && s.world.csr.value.certificate.Empty?
    requires BindingAccepted(s.world.name, s.world.spec)
    ensures var t := Finish(s);
      && t.world.kubeconfig.status.Is(KubeconfigFinished, True)
      && t.world.csr.Some? && t.world.csr.value.request == s.world.csr.value.request && t.world.spec == s.world.spec
      && t.world.crb.Some?
  {
    var r := Approved(s);
    ApprovedState(s);
    ReconcileIsOneUpdate(r);
    RunDecides(r.world);
    FirstRunKeepsCsr(r.world);
    RunKeepsSurroundings(r.world);
  }

  /** Nobody but the operator makes a binding. */
  predicate NobodyBinds(moves: seq<Move>) {
    forall i :: 0 <= i < |moves| ==> ForeignBindingMoved(moves[i]).None?
  }

  /** A failure-free run from the start issues a CSR for the user of the spec. */
  lemma IssuingRun(l0: Live) returns (moves: seq<Move>)
    requires InitialLive(l0) && CanIssue(AsStored(l0).world)
    ensures AsStored(RunLive(l0, moves)) == Reconcile(AsStored(l0)) && RunLive(l0, moves).worker.Idle?
    ensures NobodyBinds(moves)
    ensures BindingOf(RunLive(l0, moves), l0.world.spec.username) == BindingOf(l0, l0.world.spec.username)
    ensures var w := RunLive(l0, moves).world;
      && !w.kubeconfig.status.Terminal() && WellIssued(w) && w.spec == l0.world.spec && w.name == l0.world.name
      && w.csr.Some? && w.csr.value.flags == PENDING && w.csr.value.certificate.Empty?
      && w.csr.value.request.RequestPem? && w.csr.value.request.request.commonName == l0.world.spec.username
  {
    var s0 := AsStored(l0);
    LeadsToItself(s0);
    LeadsToReconcile(s0, s0);
    var actions :| BringNothing(actions) && Run(s0, actions) == Reconcile(s0);
    moves := Unedited(actions);
    UneditedRun(l0, actions);
    IssuedSystem(s0);
    AsStoredShows(RunLive(l0, moves));
  }

  lemma IssuedSystem(s: System)
    requires s.worker.Idle? && s.world.csr.None? && !s.world.kubeconfig.status.Terminal() && CanIssue(s.world)
    ensures var t := Reconcile(s);
      && t.worker.Idle? && !t.world.kubeconfig.status.Terminal() && WellIssued(t.world)
      && t.world.spec == s.world.spec && t.world.name == s.world.name && t.world.crb == s.world.crb
      && t.world.csr.Some? && t.world.csr.value.flags == PENDING && t.world.csr.value.certificate.Empty?
      && t.world.csr.value.request.RequestPem?
      && t.world.csr.value.request.request.commonName == s.world.spec.username
  {
    ReconcileIsOneUpdate(s);
    IssuedWorld(s.world);
    RunKeepsSurroundings(s.world);
    FirstRunIssues(s.world);
    IssueKeepsBinding(s.world);
  }

  lemma IssueKeepsBinding(v: World)
    requires v.csr.None?
    ensures ReconciledWorld(v).crb == v.crb
  {
  }

  /** Then the kubeconfig is given to another user. */
  lemma RenamingRun(l0: Live, username: string) returns (moves: seq<Move>)
    requires InitialLive(l0) && CanIssue(AsStored(l0).world) && BindingAccepted(l0.world.name, l0.world.spec)
    requires IsLabelValue(username) && username != ""
    ensures var l := RunLive(l0, moves);
      && l.worker.Idle? && !l.world.kubeconfig.status.Terminal() && WellIssued(l.world)
      && l.world.spec.username == username && BindingAccepted(l.world.name, l.world.spec)
      && l.world.csr.Some? && l.world.csr.value.flags == PENDING && l.world.csr.value.certificate.Empty?
      && l.world.csr.value.request.RequestPem?
      && l.world.csr.value.request.request.commonName == l0.world.spec.username
  {
    var issue := IssuingRun(l0);
    var l := RunLive(l0, issue);
    var rename := [Edit(Rename(l.world.spec, username))];
    RenamedState(l, username);
    assert rename[..0] == [] && RunLive(l, rename) == Renamed(l, username);
    RunLiveConcat(l0, issue, rename);
    moves := issue + rename;
  }

  lemma FinishedSubject(l: Live)
    requires LiveInv(l) && IsFinished(l) && l.world.csr.Some?
    ensures l.world.secret.Some? && l.world.csr.value.request.RequestPem?
    ensures Subject(l.world.secret.value.tlsCrt) == Some(l.world.csr.value.request.request.commonName)
  {
  }

  lemma FinishingMoves(l: Live) returns (moves: seq<Move>)
    requires l.worker.Idle? && !l.world.kubeconfig.status.Terminal() && WellIssued(l.world)
    requires l.world.csr.Some? && l.world.csr.value.flags == PENDING && l.world.csr.value.certificate.Empty?
    requires BindingAccepted(l.world.name, l.world.spec)
    ensures var t := RunLive(l, moves);
      && IsFinished(t) && t.world.csr.Some? && t.world.csr.value.request == l.world.csr.value.request
      && t.world.spec == l.world.spec && t.world.spec.username in t.bindings
  {
    FinishFinishes(AsStored(l));
    FinishLeads(AsStored(l));
    var actions :| BringNothing(actions) && Run(AsStored(l), actions) == Finish(AsStored(l));
    moves := Unedited(actions);
    UneditedRun(l, actions);
    var t := RunLive(l, moves);
    assert AsStored(t).world.kubeconfig == t.world.kubeconfig && AsStored(t).world.csr == t.world.csr
           && AsStored(t).world.spec == t.world.spec;
    assert AsStored(t).world.crb == BindingOf(t, t.world.spec.username);
  }

  predicate NamesFormerUser(l: Live, former: string, username: string) {
    && IsFinished(l) && l.world.spec.username == username && username in l.bindings && former != username
    && l.world.secret.Some? && Subject(l.world.secret.value.tlsCrt) == Some(former)
  }

  /** A username edited between the CSR and its approval: the kubeconfig gets finished for the new user,
      with a binding for the new user, around a certificate that names the old one. This can be done to
      every kubeconfig from which a CSR can be made, with every new name that the API server accepts. */
  lemma CertificateMayNameFormerUser(l0: Live, username: string)
    requires InitialLive(l0) && CanIssue(AsStored(l0).world) && BindingAccepted(l0.world.name, l0.world.spec)
    requires IsLabelValue(username) && username != "" && username != l0.world.spec.username
    ensures exists moves :: NamesFormerUser(RunLive(l0, moves), l0.world.spec.username, username)
  {
    var begin := RenamingRun(l0, username);
    var finish := FinishingMoves(RunLive(l0, begin));
    RunLiveConcat(l0, begin, finish);
    InitialLiveInv(l0);
    RunKeepsLiveInv(l0, begin + finish);
    FinishedSubject(RunLive(l0, begin + finish));
    assert NamesFormerUser(RunLive(l0, begin + finish), l0.world.spec.username, username);
  }

  // ----- another role

  /** The update that asks for another role. */
  function WithRole(spec: Spec, role: RoleRef): UpdateRequest {
    UpdateRequest(spec.(roleRef := Some(role)), None)
  }

  lemma WithRoleState(l: Live, role: RoleRef)
    requires Supported(l.world.spec.csr.value.signatureAlgorithm)
    ensures var t := Edited(l, WithRole(l.world.spec, role));
      && t.world.spec.username == l.world.spec.username && t.world.spec.roleRef == Some(role)
      && t.world.csr == l.world.csr && t.world.rootCa == l.world.rootCa && t.world.secret == l.world.secret
      && t.world.kubeconfig.status == l.world.kubeconfig.status && t.bindings == l.bindings && t.worker == l.worker
  {
  }

  /** The reconciler gets as far as the binding and crashes before it writes the status. */
  function Bound(s: System): System {
    Apply(ServedSteps(Apply(s, Start), 7), Crash)
  }

  lemma BoundLeads(s: System, t: System)
    requires Leads(s, t)
    ensures Leads(s, Bound(t))
  {
    LeadsOn(s, t, Start);
    LeadsToSteps(s, Apply(t, Start), 7);
    LeadsOn(s, ServedSteps(Apply(t, Start), 7), Crash);
  }

  lemma WrittenState(s: System)
    requires s.worker.Idle? && !s.world.kubeconfig.status.Terminal() && Answered(s.world) && WellIssued(s.world)
    ensures var t := ServedSteps(Apply(s, Start), 5);
      && t.worker.GetCrb? && t.world.kubeconfig == s.world.kubeconfig && t.world.csr == s.world.csr
      && t.world.secret.Some? && t.world.secret.value.Usable() && t.world.crb == s.world.crb
      && t.world.spec == s.world.spec && t.world.name == s.world.name && t.world.rootCa == s.world.rootCa
  {
    var s0 := Apply(s, Start);
    var s1 := Apply(s0, Work(Served));
    var s2 := Apply(s1, Work(Served));
    var s3 := Apply(s2, Work(Served));
    var s4 := Apply(s3, Work(Served));
    assert ServedSteps(s0, 1) == s1;
    assert ServedSteps(s0, 2) == s2;
    assert ServedSteps(s0, 3) == s3;
    assert ServedSteps(s0, 4) == s4;
  }

  lemma BoundState(s: System)
    requires s.worker.Idle? && !s.world.kubeconfig.status.Terminal() && Answered(s.world) && WellIssued(s.world)
    requires s.world.crb.None? && BindingAccepted(s.world.name, s.world.spec)
    ensures var t := Bound(s);
      && t.worker.Idle? && !t.world.kubeconfig.status.Terminal() && Answered(t.world) && WellIssued(t.world)
      && t.world.spec == s.world.spec && t.world.crb == Some(NewClusterRoleBinding(s.world.spec))
  {
    WrittenState(s);
    var s5 := ServedSteps(Apply(s, Start), 5);
    var s6 := Apply(s5, Work(Served));
    assert ServedSteps(Apply(s, Start), 6) == s6;
    assert ServedSteps(Apply(s, Start), 7) == Apply(s6, Work(Served));
  }

  /** A CSR, its certificate and the binding, and then a crash. */
  lemma BindingRun(l0: Live) returns (moves: seq<Move>)
    requires InitialLive(l0) && CanIssue(AsStored(l0).world) && BindingAccepted(l0.world.name, l0.world.spec)
    requires l0.world.spec.username !in l0.bindings
    ensures NobodyBinds(moves)
    ensures var l := RunLive(l0, moves);
      && l.worker.Idle? && !l.world.kubeconfig.status.Terminal() && Answered(l.world) && WellIssued(l.world)
      && l.world.spec == l0.world.spec
      && BindingOf(l, l.world.spec.username) == Some(NewClusterRoleBinding(l.world.spec))
  {
    var issue := IssuingRun(l0);
    var l := RunLive(l0, issue);
    var s := AsStored(l);
    ApprovedState(s);
    BoundState(Approved(s));
    LeadsToItself(s);
    ApprovedLeads(s, s);
    BoundLeads(s, Approved(s));
    var actions :| BringNothing(actions) && Run(s, actions) == Bound(Approved(s));
    UneditedRun(l, actions);
    RunLiveConcat(l0, issue, Unedited(actions));
    moves := issue + Unedited(actions);
    assert AsStored(RunLive(l0, moves)) == Bound(Approved(s));
    AsStoredShows(RunLive(l0, moves));
  }

  lemma ReconcilingMoves(l: Live) returns (moves: seq<Move>)
    requires l.worker.Idle? && !l.world.kubeconfig.status.Terminal() && Answered(l.world) && WellIssued(l.world)
    requires l.world.spec.username in l.bindings
    ensures NobodyBinds(moves)
    ensures var t := RunLive(l, moves);
      && IsFinished(t) && t.world.spec == l.world.spec
      && BindingOf(t, l.world.spec.username) == BindingOf(l, l.world.spec.username)
  {
    var s := AsStored(l);
    AsStoredShows(l);
    ReconcileIsOneUpdate(s);
    RunDecides(s.world);
    LeadsToItself(s);
    LeadsToReconcile(s, s);
    var actions :| BringNothing(actions) && Run(s, actions) == Reconcile(s);
    BindingHistory(s, actions);
    UneditedRun(l, actions);
    moves := Unedited(actions);
    AsStoredShows(RunLive(l, moves));
  }

  lemma RoleEditingRun(l0: Live, role: RoleRef) returns (moves: seq<Move>)
    requires InitialLive(l0) && CanIssue(AsStored(l0).world) && BindingAccepted(l0.world.name, l0.world.spec)
    requires l0.world.spec.username !in l0.bindings
    ensures NobodyBinds(moves)
    ensures var l := RunLive(l0, moves);
      && l.worker.Idle? && !l.world.kubeconfig.status.Terminal() && Answered(l.world) && WellIssued(l.world)
      && l.world.spec.username == l0.world.spec.username && l.world.spec.roleRef == Some(role)
      && BindingOf(l, l.world.spec.username) == Some(NewClusterRoleBinding(l0.world.spec))
  {
    var begin := BindingRun(l0);
    var l := RunLive(l0, begin);
    var edit := [Edit(WithRole(l.world.spec, role))];
    WithRoleState(l, role);
    assert edit[..0] == [] && RunLive(l, edit) == Edited(l, WithRole(l.world.spec, role));
    RunLiveConcat(l0, begin, edit);
    moves := begin + edit;
  }

  predicate GrantsFormerRole(l: Live, former: RoleRef, role: RoleRef) {
    && IsFinished(l) && l.world.spec.roleRef == Some(role)
    && l.world.spec.username in l.bindings && GrantsRole(l.bindings[l.world.spec.username], former)
  }

  /** A role edited between the binding and the status: the kubeconfig gets finished for the new role, with
      the operator's own binding to the old one. No binding of anybody else is involved. This can be done to
      every kubeconfig from which a CSR can be made and whose user has no binding yet, with every role. */
  lemma BindingMayGrantFormerRole(l0: Live, role: RoleRef)
    requires InitialLive(l0) && CanIssue(AsStored(l0).world) && BindingAccepted(l0.world.name, l0.world.spec)
    requires l0.world.spec.username !in l0.bindings
    ensures exists moves ::
      NobodyBinds(moves) && GrantsFormerRole(RunLive(l0, moves), l0.world.spec.roleRef.value, role)
  {
    var begin := RoleEditingRun(l0, role);
    var finish := ReconcilingMoves(RunLive(l0, begin));
    RunLiveConcat(l0, begin, finish);
    assert NobodyBinds(begin + finish);
    assert GrantsFormerRole(RunLive(l0, begin + finish), l0.world.spec.roleRef.value, role);
  }
}
