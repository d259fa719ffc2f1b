/** Where the approval of a kubeconfig comes from if the spec was edited on the way. */
module EditedApproval {
  import opened Credentials
  import opened Objects
  import opened Protocol
  import opened Approval
  import opened SpecEdits

  function ApprovalsOfMove(l: Live, m: Move): seq<Approval> {
    if m.Usual? then ApprovalsOf(AsStored(l), m.action) else []
  }

  /** The approval writes of a run, in order. */
  function ApprovalsLive(l0: Live, moves: seq<Move>): seq<Approval> {
    if moves == [] then [] else
      var n := |moves| - 1;
      ApprovalsLive(l0, moves[..n]) + ApprovalsOfMove(RunLive(l0, moves[..n]), moves[n])
  }

  predicate WrittenAtMove(l0: Live, moves: seq<Move>, i: nat, e: Approval)
    requires i < |moves|
  {
    ApprovalsOfMove(RunLive(l0, moves[..i]), moves[i]) == [e]
  }

  lemma {:induction false} ApprovalHasMove(l0: Live, moves: seq<Move>, e: Approval) returns (i: nat)
    requires e in ApprovalsLive(l0, moves)
    ensures i < |moves| && WrittenAtMove(l0, moves, i, e)
  {
    var n := |moves| - 1;
    if e in ApprovalsLive(l0, moves[..n]) {
      i := ApprovalHasMove(l0, moves[..n], e);
      assert moves[..n][..i] == moves[..i];
    } else {
      i := n;
    }
  }

  lemma OutsideKeepsProvenanceLive(l: Live, o: OutsideAction, log: seq<Approval>)
    requires LiveInv(l) && Provenance(Made(l), log)
    ensures Provenance(Made(StepLive(l, Usual(Outside(o)))), log + ApprovalsOf(AsStored(l), Outside(o)))
  {
    assert Provenance(AsStored(l), log);
    OutsideKeepsProvenance(AsStored(l), o, log);
  }

  lemma WorkKeepsProvenanceLive(l: Live, outcome: Outcome, log: seq<Approval>)
    requires LiveInv(l) && Provenance(Made(l), log)
    ensures Provenance(Made(WorkLive(l, outcome)), log)
  {
    WorkKeepsProvenance(Made(l), l.read, l.writtenBy, outcome, log);
    MadeFollows(l, outcome);
  }

  lemma StartAndCrashKeepProvenance(l: Live, a: Action, log: seq<Approval>)
    requires Provenance(Made(l), log) && (a.Start? || a.Crash?)
    ensures Provenance(Made(StepLive(l, Usual(a))), log) && ApprovalsOfMove(l, Usual(a)) == []
  {
  }

  lemma MoveKeepsProvenance(l: Live, m: Move, log: seq<Approval>)
    requires LiveInv(l) && Provenance(Made(l), log)
    ensures Provenance(Made(StepLive(l, m)), log + ApprovalsOfMove(l, m))
  {
    match m
    case Edit(u) => assert log + [] == log;
    case Usual(a) =>
      match a
      case Outside(o) => OutsideKeepsProvenanceLive(l, o, log);
      case Work(outcome) =>
        WorkKeepsProvenanceLive(l, outcome, log);
        assert log + [] == log;
      case _ =>
        StartAndCrashKeepProvenance(l, a, log);
        assert log + [] == log;
  }

  lemma {:induction false} ProvenanceThoughEdited(l0: Live, moves: seq<Move>)
    requires InitialLive(l0)
    ensures LiveInv(RunLive(l0, moves)) && Provenance(Made(RunLive(l0, moves)), ApprovalsLive(l0, moves))
  {
    if moves == [] {
      InitialLiveInv(l0);
    } else {
      var n := |moves| - 1;
      ProvenanceThoughEdited(l0, moves[..n]);
      StepKeepsLiveInv(RunLive(l0, moves[..n]), moves[n]);
      MoveKeepsProvenance(RunLive(l0, moves[..n]), moves[n], ApprovalsLive(l0, moves[..n]));
    }
  }

  lemma OperatorApprovesAnnotated(l: Live, m: Move, e: Approval)
    requires LiveInv(l) && ApprovalsOfMove(l, m) == [e]
    ensures e.target.flags.Pending()
    ensures e.byOperator ==> AsksForApproval(e.target) && Parses(e.target.request)
  {
  }

  /** Whatever is edited, a run that ends with KubeconfigFinished=True contains a step that approved a pending
      CSR with exactly the final request; if the operator made it, the CSR was owned, annotated and
      parseable. */
  lemma FinishedWasApprovedThoughEdited(l0: Live, moves: seq<Move>) returns (i: nat, e: Approval)
    requires InitialLive(l0) && IsFinished(RunLive(l0, moves))
    ensures i < |moves| && WrittenAtMove(l0, moves, i, e) && e.target.flags.Pending()
    ensures RunLive(l0, moves).world.secret.Some?
    ensures e.target.request == RunLive(l0, moves).world.secret.value.tlsCsr
    ensures e.byOperator ==> AsksForApproval(e.target) && Parses(e.target.request)
  {
    ProvenanceThoughEdited(l0, moves);
    var log, w := ApprovalsLive(l0, moves), RunLive(l0, moves).world;
    var j :| 0 <= j < |log| && log[j].target.request == w.secret.value.tlsCsr;
    e := log[j];
    i := ApprovalHasMove(l0, moves, e);
    ProvenanceThoughEdited(l0, moves[..i]);
    OperatorApprovesAnnotated(RunLive(l0, moves[..i]), moves[i], e);
  }

  // ----- without approval

  /** Nobody asks for automatic approval, neither in an edit of the spec nor in the annotations of the CSR,
      and no person approves. */
  predicate NeverApproves(m: Move) {
    match m
    case Edit(u) => !u.spec.autoApproveCSR
    case Usual(a) => NeverAsksForApproval(a) && a != Outside(HumanApprove)
  }

  predicate Unasked(l: Live) {
    && !l.world.spec.autoApproveCSR
    && (l.worker.Idle? || l.worker.GetKubeconfig? || !l.read.autoApproveCSR)
    && (l.world.csr.Some? ==> !HasAutoApproveAnnotation(l.world.csr.value))
  }

  lemma UnaskedMove(l: Live, m: Move)
    requires LiveInv(l) && Unasked(l) && NeverApproves(m)
    ensures Unasked(StepLive(l, m)) && ApprovalsOfMove(l, m) == []
  {
    match m
    case Edit(u) =>
    case Usual(a) =>
      if !a.Work? {
        UnaskedStep(AsStored(l), a);
      } else if !l.worker.Idle? && !l.worker.GetKubeconfig? {
        UnaskedStep(By(l, l.read), a);
        CopyKeepsVersion(By(l, l.read).world, l.worker, a.outcome);
      }
  }

  lemma {:induction false} UnaskedStaysUnapproved(l0: Live, moves: seq<Move>)
    requires InitialLive(l0) && Unasked(l0) && forall m :: m in moves ==> NeverApproves(m)
    ensures LiveInv(RunLive(l0, moves)) && Unasked(RunLive(l0, moves)) && ApprovalsLive(l0, moves) == []
  {
    if moves == [] {
      InitialLiveInv(l0);
    } else {
      var n := |moves| - 1;
      UnaskedStaysUnapproved(l0, moves[..n]);
      StepKeepsLiveInv(RunLive(l0, moves[..n]), moves[n]);
      UnaskedMove(RunLive(l0, moves[..n]), moves[n]);
    }
  }

  /** With automatic approval off in every spec that is ever stored, nobody editing the annotation in, and no
      person approving, no run hands out a kubeconfig. */
  lemma NoApprovalNoKubeconfigThoughEdited(l0: Live, moves: seq<Move>)
    requires InitialLive(l0) && Unasked(l0) && forall m :: m in moves ==> NeverApproves(m)
    ensures !IsFinished(RunLive(l0, moves))
  {
    UnaskedStaysUnapproved(l0, moves);
    ProvenanceThoughEdited(l0, moves);
  }
}
