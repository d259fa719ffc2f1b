/** Who approved what: the approval writes of a run, and what they say about its outcome. */
module Approval {
  import opened Credentials
  import opened Conditions
  import opened Objects
  import opened Protocol
  import opened Safety

  /** An approval write that reached the store, with the CSR as it was at that moment. */
  datatype Approval = Approval(byOperator: bool, target: Csr)

  function ApprovalsOf(s: System, a: Action): seq<Approval> {
    match a
    case Outside(ApproverStep(outcome)) =>
      if s.approver.WritingApproval? && Executed(outcome) && CsrIsCurrent(s.world, s.approver.csr)
      then [Approval(true, s.world.csr.value)] else []
    case Outside(HumanApprove) =>
      if s.world.csr.Some? && s.world.csr.value.flags.Pending() then [Approval(false, s.world.csr.value)] else []
    case _ => []
  }

  /** The approval writes of a run, in order. */
  function Approvals(s0: System, actions: seq<Action>): seq<Approval> {
    if actions == [] then [] else
      var n := |actions| - 1;
      Approvals(s0, actions[..n]) + ApprovalsOf(Run(s0, actions[..n]), actions[n])
  }

  /** The approval `e` was written by step `i` of the run. */
  predicate WrittenAt(s0: System, actions: seq<Action>, i: nat, e: Approval)
    requires i < |actions|
  {
    ApprovalsOf(Run(s0, actions[..i]), actions[i]) == [e]
  }

  lemma WrittenAtPrefix(s0: System, actions: seq<Action>, n: nat, i: nat, e: Approval)
    requires i < n <= |actions| && WrittenAt(s0, actions[..n], i, e)
    ensures WrittenAt(s0, actions, i, e)
  {
    assert actions[..n][..i] == actions[..i];
  }

  lemma {:induction false} ApprovalHasStep(s0: System, actions: seq<Action>, e: Approval) returns (i: nat)
    requires e in Approvals(s0, actions)
    ensures i < |actions| && WrittenAt(s0, actions, i, e)
  {
    var n := |actions| - 1;
    if e in Approvals(s0, actions[..n]) {
      i := ApprovalHasStep(s0, actions[..n], e);
      WrittenAtPrefix(s0, actions, n, i, e);
    } else {
      i := n;
    }
  }

  // ----- each CSR is approved at most once, and by the operator only when it should be

  predicate WellApproved(w: World, e: Approval) {
    && e.target.uid <= w.revision
    && e.target.flags.Pending()
    && (e.byOperator ==> IsKubeconfigCsr(e.target) && HasAutoApproveAnnotation(e.target) && Parses(e.target.request))
    && (w.csr.Some? && w.csr.value.uid == e.target.uid ==>
          w.csr.value.flags.approved && w.csr.value.request == e.target.request)
  }

  ghost predicate LogOk(w: World, log: seq<Approval>) {
    && (forall i :: 0 <= i < |log| ==> WellApproved(w, log[i]))
    && (forall i, j :: 0 <= i < j < |log| ==> log[i].target.uid != log[j].target.uid)
  }

  /** A CSR that exists after a step either existed before and only gained conditions, or is brand new. */
  lemma CsrFrame(s: System, a: Action)
    requires ApproverInv(s)
    ensures var v, w := s.world, Apply(s, a).world;
      && v.revision <= w.revision
      && (w.csr.Some? ==> (v.csr.Some? && CsrGrows(v.csr.value, w.csr.value))
                          || (w.csr.value.uid > v.revision && w.csr.value.flags == PENDING))
  {
    match a
    case Outside(o) => OutsideStepEffect(s.world, s.approver, o);
    case Work(outcome) => WorkStepEffect(s.world, s.worker, outcome);
    case _ =>
  }

  lemma LogKept(s: System, a: Action, log: seq<Approval>)
    requires ApproverInv(s) && LogOk(s.world, log)
    ensures LogOk(Apply(s, a).world, log + ApprovalsOf(s, a))
  {
    CsrFrame(s, a);
    var w := Apply(s, a).world;
    forall i | 0 <= i < |log| ensures WellApproved(w, log[i]) {
      assert WellApproved(s.world, log[i]);
    }
    if ApprovalsOf(s, a) != [] {
      var e := ApprovalsOf(s, a)[0];
      assert WellApproved(w, e);
      forall i | 0 <= i < |log| ensures log[i].target.uid != e.target.uid {
        assert WellApproved(s.world, log[i]);
      }
    }
  }

  lemma {:induction false} LogHolds(s0: System, actions: seq<Action>)
    requires ApproverInv(s0)
    ensures ApproverInv(Run(s0, actions)) && LogOk(Run(s0, actions).world, Approvals(s0, actions))
  {
    if actions != [] {
      var n := |actions| - 1;
      LogHolds(s0, actions[..n]);
      StepKeepsApproverInv(Run(s0, actions[..n]), actions[n]);
      LogKept(Run(s0, actions[..n]), actions[n], Approvals(s0, actions[..n]));
    }
  }

  /** For any CSR, also one that somebody else made, and over any run of the CSR reconciler with
      retries and lost replies: an approval write by the operator hits a CSR that at that very moment
      is owned by a Kubeconfig, annotated for auto-approval, pending and parseable, and every CSR object
      receives at most one approval write. */
  lemma OperatorApprovesOnceAndRightly(s0: System, actions: seq<Action>)
    requires VersionsOk(s0.world) && s0.approver.Resting?
    ensures var log := Approvals(s0, actions);
      && (forall e :: e in log && e.byOperator ==>
            && (exists o :: o in e.target.owners
                  && o.kind == "Kubeconfig" && o.apiVersion == "kubeconfig.k8s.zoomoid.dev/v1alpha1")
            && "kubeconfig.k8s.zoomoid.dev/auto-approve" in e.target.annotations
            && e.target.annotations["kubeconfig.k8s.zoomoid.dev/auto-approve"] == "true"
            && !e.target.flags.approved && !e.target.flags.denied && !e.target.flags.failed
            && e.target.request.RequestPem? && e.target.request.blockType == "CERTIFICATE REQUEST")
      && (forall i, j :: 0 <= i < j < |log| ==> log[i].target.uid != log[j].target.uid)
  {
    LogHolds(s0, actions);
    var log := Approvals(s0, actions);
    forall e | e in log ensures WellApproved(Run(s0, actions).world, e) {
    }
  }

  lemma ApproverDecidesOnlyPending(v: World, approver: Approver, outcome: Outcome)
    requires ApproverOk(v, approver)
    ensures var w := ApproverWork(v, approver, outcome).0;
      v.csr.Some? && w.csr.Some? && w.csr.value.flags != v.csr.value.flags ==>
        && v.csr.value.flags.Pending()
        && w.csr.value.flags == PENDING.With(if Parses(v.csr.value.request) then Approved else Failed)
  {
  }

  /** The operator decides a CSR only while it is pending, and marks it failed exactly when it does not
      parse. So no step of the operator leaves a CSR that is approved and also denied or failed, unless
      outsiders had made it so. */
  lemma OperatorDecidesOnlyPending(s0: System, actions: seq<Action>, a: Action)
    requires VersionsOk(s0.world) && s0.approver.Resting? && IsOperatorAction(a)
    ensures var v, w := Run(s0, actions).world, Apply(Run(s0, actions), a).world;
      v.csr.Some? && w.csr.Some? && w.csr.value.flags != v.csr.value.flags ==>
        && v.csr.value.flags.Pending()
        && w.csr.value.flags == PENDING.With(if Parses(v.csr.value.request) then Approved else Failed)
  {
    LogHolds(s0, actions);
    var s := Run(s0, actions);
    match a
    case Outside(ApproverStep(outcome)) => ApproverDecidesOnlyPending(s.world, s.approver, outcome);
    case Work(outcome) => WorkStepEffect(s.world, s.worker, outcome);
    case _ =>
  }

  // ----- provenance

  ghost predicate HasApproval(log: seq<Approval>, request: Bytes) {
    exists i :: 0 <= i < |log| && log[i].target.request == request
  }

  ghost predicate StoredRequestApproved(w: World, log: seq<Approval>) {
    w.secret.Some? && HasApproval(log, w.secret.value.tlsCsr)
  }

  predicate NeedsApproval(worker: Worker) {
    worker.GetRootCa? || worker.WriteKubeconfig? || worker.GetCrb? || worker.CreateCrb?
    || (worker.Commit? && worker.kubeconfig.status.Is(KubeconfigFinished, True))
  }

  ghost predicate Provenance(s: System, log: seq<Approval>) {
    && (s.world.csr.Some? && s.world.csr.value.flags.approved ==> HasApproval(log, s.world.csr.value.request))
    && (NeedsApproval(s.worker) ==> StoredRequestApproved(s.world, log))
    && (s.world.kubeconfig.status.Is(KubeconfigFinished, True) ==> StoredRequestApproved(s.world, log))
  }

  /** The approver's status write never approves, so an approval by the operator is an approval write. */
  lemma OperatorApprovalIsWrite(v: World, approver: Approver, outcome: Outcome)
    requires ApproverOk(v, approver)
    ensures var w := ApproverWork(v, approver, outcome).0;
      v.csr.Some? && w.csr.Some? && !v.csr.value.flags.approved && w.csr.value.flags.approved
      ==> approver.WritingApproval? && Executed(outcome) && CsrIsCurrent(v, approver.csr)
  {
  }

  lemma ApprovalIsLogged(s: System, o: OutsideAction)
    requires ApproverInv(s)
    requires s.world.csr.Some? && !s.world.csr.value.flags.approved
    requires Apply(s, Outside(o)).world.csr.Some? && Apply(s, Outside(o)).world.csr.value.flags.approved
    ensures |ApprovalsOf(s, Outside(o))| == 1 && ApprovalsOf(s, Outside(o))[0].target == s.world.csr.value
  {
    if o.ApproverStep? {
      OperatorApprovalIsWrite(s.world, s.approver, o.outcome);
    }
  }

  lemma ApprovalStays(log: seq<Approval>, more: seq<Approval>, request: Bytes)
    requires HasApproval(log, request)
    ensures HasApproval(log + more, request)
  {
    var i :| 0 <= i < |log| && log[i].target.request == request;
    assert (log + more)[i] == log[i];
  }

  lemma StoredApprovalStays(w: World, log: seq<Approval>, more: seq<Approval>)
    requires StoredRequestApproved(w, log)
    ensures StoredRequestApproved(w, log + more)
  {
    ApprovalStays(log, more, w.secret.value.tlsCsr);
  }

  lemma OutsideKeepsProvenance(s: System, o: OutsideAction, log: seq<Approval>)
    requires ApproverInv(s) && Provenance(s, log)
    ensures Provenance(Apply(s, Outside(o)), log + ApprovalsOf(s, Outside(o)))
  {
    var t, more := Apply(s, Outside(o)), ApprovalsOf(s, Outside(o));
    OutsideStepEffect(s.world, s.approver, o);
    if t.world.csr.Some? && t.world.csr.value.flags.approved {
      if s.world.csr.value.flags.approved {
        ApprovalStays(log, more, s.world.csr.value.request);
      } else {
        ApprovalIsLogged(s, o);
        assert (log + more)[|log|] == more[0];
      }
    }
    if StoredRequestApproved(s.world, log) {
      StoredApprovalStays(s.world, log, more);
    }
  }

  /** The reconciler only goes on to certificates from a CSR it found approved. */
  lemma WorkKeepsProvenance(s: System, reader: AdmittedSpec, writer: AdmittedSpec, outcome: Outcome,
                            log: seq<Approval>)
    requires InvBy(s, reader, writer) && Provenance(s, log)
    ensures Provenance(WorkBy(s, reader, outcome), log)
  {
    var r, t := GoingBy(s, reader), WorkBy(s, reader, outcome);
    WorkStepEffect(r.world, s.worker, outcome);
    WorkNeedsApproval(s, reader, writer, outcome);
    if NeedsApproval(s.worker) {
      WorkKeepsStoredRequest(s, reader, writer, outcome);
    }
    if t.world.kubeconfig.status != s.world.kubeconfig.status {
      StatusIsWrittenLast(r, Work(outcome));
    }
  }

  /** How the reconciler comes to need an approval. */
  lemma WorkNeedsApproval(s: System, reader: AdmittedSpec, writer: AdmittedSpec, outcome: Outcome)
    requires InvBy(s, reader, writer)
    ensures var t := WorkBy(s, reader, outcome);
      NeedsApproval(t.worker) && !NeedsApproval(s.worker) ==>
        && t.world == s.world && s.world.csr.Some? && s.world.csr.value.flags.approved
        && s.world.secret.Some? && s.world.csr.value.request == s.world.secret.value.tlsCsr
  {
  }

  lemma WorkKeepsStoredRequest(s: System, reader: AdmittedSpec, writer: AdmittedSpec, outcome: Outcome)
    requires InvBy(s, reader, writer) && NeedsApproval(s.worker)
    ensures var t := WorkBy(s, reader, outcome).world;
      s.world.secret.Some? && t.secret.Some? && t.secret.value.tlsCsr == s.world.secret.value.tlsCsr
  {
  }

  lemma ProvenanceKept(s: System, a: Action, log: seq<Approval>)
    requires Inv(s) && Provenance(s, log)
    ensures Provenance(Apply(s, a), log + ApprovalsOf(s, a))
  {
    match a
    case Outside(o) => OutsideKeepsProvenance(s, o, log);
    case Work(outcome) =>
      FrozenSpec(s, outcome);
      WorkKeepsProvenance(s, s.world.spec, s.world.spec, outcome, log);
      assert log + [] == log;
    case _ =>
      assert log + [] == log;
  }

  lemma {:induction false} ProvenanceHolds(s0: System, actions: seq<Action>)
    requires Initial(s0)
    ensures Inv(Run(s0, actions)) && Provenance(Run(s0, actions), Approvals(s0, actions))
  {
    if actions == [] {
      InitialInv(s0);
    } else {
      var n := |actions| - 1;
      ProvenanceHolds(s0, actions[..n]);
      StepKeepsInv(Run(s0, actions[..n]), actions[n]);
      ProvenanceKept(Run(s0, actions[..n]), actions[n], Approvals(s0, actions[..n]));
    }
  }

  /** A run that ends with KubeconfigFinished=True contains a step that approved a CSR which carried
      exactly the request the final secret holds; if the operator made that approval, the CSR was
      annotated for it. */
  lemma FinishedWasApproved(s0: System, actions: seq<Action>) returns (i: nat, e: Approval)
    requires Initial(s0) && Run(s0, actions).world.kubeconfig.status.Is(KubeconfigFinished, True)
    ensures i < |actions| && WrittenAt(s0, actions, i, e)
    ensures Run(s0, actions).world.secret.Some? && e.target.request == Run(s0, actions).world.secret.value.tlsCsr
    ensures e.byOperator ==> AsksForApproval(e.target)
  {
    ProvenanceHolds(s0, actions);
    var log, w := Approvals(s0, actions), Run(s0, actions).world;
    var j :| 0 <= j < |log| && log[j].target.request == w.secret.value.tlsCsr;
    e := log[j];
    i := ApprovalHasStep(s0, actions, e);
    LogHolds(s0, actions);
    assert WellApproved(w, e);
  }

  /** Nobody asked for automatic approval: not the spec, and no edit of the CSR's annotations. */
  predicate NeverAsksForApproval(a: Action) {
    a.Outside? && a.action.EditCsr? && "kubeconfig.k8s.zoomoid.dev/auto-approve" in a.action.annotations ==>
      a.action.annotations["kubeconfig.k8s.zoomoid.dev/auto-approve"] != "true"
  }

  lemma UnaskedStep(s: System, a: Action)
    requires ApproverInv(s) && !s.world.spec.autoApproveCSR
    requires s.world.csr.Some? ==> !HasAutoApproveAnnotation(s.world.csr.value)
    requires NeverAsksForApproval(a) && a != Outside(HumanApprove)
    ensures var t := Apply(s, a).world; t.csr.Some? ==> !HasAutoApproveAnnotation(t.csr.value)
    ensures ApprovalsOf(s, a) == []
  {
    match a
    case Outside(o) =>
    case Work(outcome) => WorkStepEffect(s.world, s.worker, outcome);
    case _ =>
  }

  lemma {:induction false} UnaskedIsUnapproved(s0: System, actions: seq<Action>)
    requires Initial(s0) && !s0.world.spec.autoApproveCSR
    requires forall a :: a in actions ==> NeverAsksForApproval(a) && a != Outside(HumanApprove)
    ensures var w := Run(s0, actions).world;
      && w.spec == s0.world.spec
      && (w.csr.Some? ==> !HasAutoApproveAnnotation(w.csr.value))
      && Approvals(s0, actions) == []
  {
    BindingHistory(s0, actions);
    if actions != [] {
      var n := |actions| - 1;
      UnaskedIsUnapproved(s0, actions[..n]);
      InitialInv(s0);
      RunKeepsInv(s0, actions[..n]);
      UnaskedStep(Run(s0, actions[..n]), actions[n]);
    }
  }

  /** With automatic approval off, nobody editing the annotation in, and no person approving, no run,
      however long and however unlucky, hands out a kubeconfig. */
  lemma NoApprovalNoKubeconfig(s0: System, actions: seq<Action>)
    requires Initial(s0) && !s0.world.spec.autoApproveCSR
    requires forall a :: a in actions ==> NeverAsksForApproval(a) && a != Outside(HumanApprove)
    ensures !Run(s0, actions).world.kubeconfig.status.Is(KubeconfigFinished, True)
  {
    UnaskedIsUnapproved(s0, actions);
    ProvenanceHolds(s0, actions);
  }
}
