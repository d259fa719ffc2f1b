/**
  Both reconcilers in the form they are written in: one method body that calls the API server and
  decides step by step on local copies. Each is proved equal to a whole run of its state machine, for
  every script of interference, dropped calls and lost replies.
*/
module Reconciler {
  import opened Wrappers
  import opened Credentials
  import opened Conditions
  import opened Objects
  import opened Resources
  import opened Protocol
  import opened Safety
  import opened Drive

  /** The invariant, and what a finished kubeconfig promises because of it. */
  ghost predicate Sound(s: System) {
    Inv(s) && (s.world.kubeconfig.status.Is(KubeconfigFinished, True) ==> GivesAccess(s.world))
  }

  /** A whole run keeps the invariant, and so whatever is proved from it. */
  lemma DriveKeepsInv(s: System, turns: seq<Turn>)
    requires Inv(s.(worker := Idle)) && s.worker.GetKubeconfig?
    ensures Sound(DriveWorker(s, turns).0)
  {
    DriveIsRun(s, turns);
    RunKeepsInv(s, DriveActions(s, turns));
    if DriveWorker(s, turns).0.world.kubeconfig.status.Is(KubeconfigFinished, True) {
      FinishedGivesAccess(DriveWorker(s, turns).0);
    }
  }

  lemma DriveApproverKeepsInv(s: System, turns: seq<ApproverTurn>)
    requires Inv(s.(approver := Resting)) && s.approver.Reading?
    ensures Inv(DriveApprover(s, turns).0)
  {
    DriveApproverIsRun(s, turns);
    RunKeepsInv(s, ApproverActions(s, turns));
  }

  class ApiServer {
    var world: World
    /** The other reconciler, as it stands between its own calls. */
    var worker: Worker
    var approver: Approver
    /** What is going to happen around the calls of the kubeconfig reconciler, and of the CSR reconciler. */
    var turns: seq<Turn>
    var approverTurns: seq<ApproverTurn>

    constructor (s: System, turns: seq<Turn>, approverTurns: seq<ApproverTurn>)
      ensures world == s.world && worker == s.worker && approver == s.approver
      ensures this.turns == turns && this.approverTurns == approverTurns
    {
      this.world, this.worker, this.approver := s.world, s.worker, s.approver;
      this.turns, this.approverTurns := turns, approverTurns;
    }

    /** The state of the protocol when the kubeconfig reconciler is about to make the call `at`. */
    ghost function At(at: Worker): System
      reads this
    {
      System(world, at, approver)
    }

    /** The outcome of the whole run from there. */
    ghost function RunFrom(at: Worker): (System, seq<Turn>)
      reads this
    {
      DriveWorker(At(at), turns)
    }

    /** Others act, then the fate of the call is drawn. */
    method BeforeCall(ghost at: Worker) returns (outcome: Outcome)
      modifies this
      ensures outcome == Head(old(turns)).outcome && turns == Rest(old(turns))
      ensures At(at) == Interfere(old(At(at)), Head(old(turns)).before)
      ensures worker == old(worker) && approverTurns == old(approverTurns)
    {
      var turn := Head(turns);
      turns := Rest(turns);
      ghost var start := At(at);
      for i := 0 to |turn.before|
        invariant At(at) == Interfere(start, turn.before[..i])
        invariant turns == Rest(old(turns)) && worker == old(worker) && approverTurns == old(approverTurns)
      {
        InterfereOneMore(start, turn.before, i);
        var (w, a) := OutsideStep(world, approver, turn.before[i]);
        world, approver := w, a;
      }
      assert turn.before[..|turn.before|] == turn.before;
      outcome := turn.outcome;
    }

    // ----- API calls of the kubeconfig reconciler; the call site is named for the specification only

    /** The call was made in the world `seen` with this outcome, and the run goes on from there. */
    ghost predicate OneCall(whole: (System, seq<Turn>), at: Worker, seen: World, outcome: Outcome)
      reads this
    {
      whole == DriveWorker(Apply(System(seen, at, approver), Work(outcome)), turns)
    }

    method GetKubeconfigObject(ghost at: Worker)
      returns (reply: Reply<Kubeconfig>, ghost seen: World, ghost outcome: Outcome)
      requires at.GetKubeconfig?
      modifies this
      ensures OneCall(old(RunFrom(at)), at, seen, outcome)
      ensures world == seen
      ensures reply == if !outcome.Served? then Error else Found(seen.kubeconfig)
      ensures worker == old(worker) && approverTurns == old(approverTurns)
    {
      var fate := BeforeCall(at);
      seen, outcome := world, fate;
      reply := if !fate.Served? then Error else Found(world.kubeconfig);
    }

    method GetUserSecret(ghost at: Worker) returns (reply: Reply<Secret>, ghost seen: World, ghost outcome: Outcome)
      requires at.GetSecret?
      modifies this
      ensures OneCall(old(RunFrom(at)), at, seen, outcome)
      ensures world == seen
      ensures reply == if !outcome.Served? then Error else OptionToReply(seen.secret)
      ensures worker == old(worker) && approverTurns == old(approverTurns)
    {
      var fate := BeforeCall(at);
      seen, outcome := world, fate;
      reply := if !fate.Served? then Error else OptionToReply(world.secret);
    }

    method GetCsrObject(ghost at: Worker) returns (reply: Reply<Csr>, ghost seen: World, ghost outcome: Outcome)
      requires at.GetCsr?
      modifies this
      ensures OneCall(old(RunFrom(at)), at, seen, outcome)
      ensures world == seen
      ensures reply == if !outcome.Served? then Error else OptionToReply(seen.csr)
      ensures worker == old(worker) && approverTurns == old(approverTurns)
    {
      var fate := BeforeCall(at);
      seen, outcome := world, fate;
      reply := if !fate.Served? then Error else OptionToReply(world.csr);
    }

    method GetRootCaData(ghost at: Worker) returns (reply: Reply<Bytes>, ghost seen: World, ghost outcome: Outcome)
      requires at.GetRootCa?
      modifies this
      ensures OneCall(old(RunFrom(at)), at, seen, outcome)
      ensures world == seen
      ensures reply == if !outcome.Served? then Error else OptionToReply(seen.rootCa)
      ensures worker == old(worker) && approverTurns == old(approverTurns)
    {
      var fate := BeforeCall(at);
      seen, outcome := world, fate;
      reply := if !fate.Served? then Error else OptionToReply(world.rootCa);
    }

    method GetClusterRoleBinding(ghost at: Worker)
      returns (reply: Reply<ClusterRoleBinding>, ghost seen: World, ghost outcome: Outcome)
      requires at.GetCrb?
      modifies this
      ensures OneCall(old(RunFrom(at)), at, seen, outcome)
      ensures world == seen
      ensures reply == if !outcome.Served? then Error else OptionToReply(seen.crb)
      ensures worker == old(worker) && approverTurns == old(approverTurns)
    {
      var fate := BeforeCall(at);
      seen, outcome := world, fate;
      reply := if !fate.Served? then Error else OptionToReply(world.crb);
    }

    method CreateUserSecret(ghost at: Worker) returns (reply: Reply<Secret>, ghost seen: World, ghost outcome: Outcome)
      requires at.CreateSecret?
      modifies this
      ensures OneCall(old(RunFrom(at)), at, seen, outcome)
      ensures world == if Executed(outcome) then CreateSecretIn(seen) else seen
      ensures reply == if outcome.Served? && SecretCreateAccepted(seen)
                       then Found(CreateSecretIn(seen).secret.value) else Error
      ensures worker == old(worker) && approverTurns == old(approverTurns)
    {
      var fate := BeforeCall(at);
      seen, outcome := world, fate;
      reply := if fate.Served? && SecretCreateAccepted(world) then Found(NewUserSecret(world.revision + 1)) else Error;
      if Executed(fate) {
        world := CreateSecretIn(world);
      }
    }

    method UpdateUserSecret(ghost at: Worker, secret: Secret)
      returns (reply: bool, ghost seen: World, ghost outcome: Outcome)
      requires at.WriteKeys? || at.WriteKubeconfig?
      modifies this
      ensures OneCall(old(RunFrom(at)), at, seen, outcome)
      ensures world == if Executed(outcome) then UpdateSecretIn(seen, secret) else seen
      ensures reply == (outcome.Served? && SecretUpdateAccepted(seen, secret))
      ensures worker == old(worker) && approverTurns == old(approverTurns)
    {
      var fate := BeforeCall(at);
      seen, outcome := world, fate;
      reply := fate.Served? && SecretUpdateAccepted(world, secret);
      if Executed(fate) {
        world := UpdateSecretIn(world, secret);
      }
    }

    method CreateCsrObject(ghost at: Worker, request: Bytes)
      returns (reply: bool, ghost seen: World, ghost outcome: Outcome)
      requires at.CreateCsr?
      modifies this
      ensures OneCall(old(RunFrom(at)), at, seen, outcome)
      ensures world == if Executed(outcome) then CreateCsrIn(seen, request) else seen
      ensures reply == (outcome.Served? && CsrCreateAccepted(seen))
      ensures worker == old(worker) && approverTurns == old(approverTurns)
    {
      var fate := BeforeCall(at);
      seen, outcome := world, fate;
      reply := fate.Served? && CsrCreateAccepted(world);
      if Executed(fate) {
        world := CreateCsrIn(world, request);
      }
    }

    method CreateClusterRoleBinding(ghost at: Worker) returns (reply: bool, ghost seen: World, ghost outcome: Outcome)
      requires at.CreateCrb?
      modifies this
      ensures OneCall(old(RunFrom(at)), at, seen, outcome)
      ensures world == if Executed(outcome) then CreateCrbIn(seen) else seen
      ensures reply == (outcome.Served? && CrbCreateAccepted(seen))
      ensures worker == old(worker) && approverTurns == old(approverTurns)
    {
      var fate := BeforeCall(at);
      seen, outcome := world, fate;
      reply := fate.Served? && CrbCreateAccepted(world);
      if Executed(fate) {
        world := CreateCrbIn(world);
      }
    }

    method UpdateStatus(ghost at: Worker, kubeconfig: Kubeconfig)
      returns (reply: bool, ghost seen: World, ghost outcome: Outcome)
      requires at.Commit?
      modifies this
      ensures OneCall(old(RunFrom(at)), at, seen, outcome)
      ensures world == if Executed(outcome) then UpdateStatusIn(seen, kubeconfig) else seen
      ensures reply == (outcome.Served? && seen.kubeconfig.version == kubeconfig.version)
      ensures worker == old(worker) && approverTurns == old(approverTurns)
    {
      var fate := BeforeCall(at);
      seen, outcome := world, fate;
      reply := fate.Served? && world.kubeconfig.version == kubeconfig.version;
      if Executed(fate) {
        world := UpdateStatusIn(world, kubeconfig);
      }
    }

    // ----- KubeconfigReconciler.Reconcile

    /** Handles one request: equal to the run of the state machine from its first call, in the store it
        leaves behind, in what the others did meanwhile, and in the number of calls it makes. */
    method Reconcile()
      modifies this
      ensures (At(Idle), turns) == old(RunFrom(GetKubeconfig))
      ensures worker == old(worker) && approverTurns == old(approverTurns)
      ensures old(Inv(At(Idle))) ==> Sound(At(Idle))
    {
      ghost var whole := RunFrom(GetKubeconfig);
      if Inv(At(Idle)) {
        DriveKeepsInv(At(GetKubeconfig), turns);
      }
      var got, seen, outcome := GetKubeconfigObject(GetKubeconfig);
      if !got.Found? {
        return;
      }
      var kubeconfig := got.value;
      if kubeconfig.status.Terminal() {
        return;
      }

      assert RunFrom(GetSecret(kubeconfig)) == whole;
      ReconcileSecret(kubeconfig);
    }

    /** The part from reading the secret on. */
    method ReconcileSecret(kubeconfig0: Kubeconfig)
      modifies this
      ensures (At(Idle), turns) == old(RunFrom(GetSecret(kubeconfig0)))
      ensures worker == old(worker) && approverTurns == old(approverTurns)
    {
      var kubeconfig := kubeconfig0;
      ghost var at := GetSecret(kubeconfig);
      ghost var whole := RunFrom(at);
      var userSecret, seen, outcome := GetUserSecret(at);
      if userSecret.NotFound? {
        at := CreateSecret(kubeconfig);
        assert RunFrom(at) == whole;
        userSecret, seen, outcome := CreateUserSecret(at);
        if !userSecret.Found? {
          kubeconfig := kubeconfig.(status := kubeconfig.status.Set(UserSecretCreated, False));
          kubeconfig := kubeconfig.(status := kubeconfig.status.(phase := PhaseFailed));
          assert RunFrom(Commit(kubeconfig)) == whole;
          var ok, seen', outcome' := UpdateStatus(Commit(kubeconfig), kubeconfig);
          return;
        }
        var secretRef := SecretRef(SecretName(world.name), SECRET_NAMESPACE);
        kubeconfig := kubeconfig.(status := kubeconfig.status.(userSecret := Some(secretRef)));
        kubeconfig := kubeconfig.(status := kubeconfig.status.Set(UserSecretCreated, True));
      } else if userSecret.Error? {
        return;
      }
      assert RunFrom(GetCsr(kubeconfig, userSecret.value)) == whole;
      ReconcileRequest(kubeconfig, userSecret.value);
    }

    /** The part from reading the CSR on. */
    method ReconcileRequest(kubeconfig0: Kubeconfig, userSecret0: Secret)
      modifies this
      ensures (At(Idle), turns) == old(RunFrom(GetCsr(kubeconfig0, userSecret0)))
      ensures worker == old(worker) && approverTurns == old(approverTurns)
    {
      var kubeconfig, userSecret := kubeconfig0, userSecret0;
      ghost var at := GetCsr(kubeconfig, userSecret);
      ghost var whole := RunFrom(at);
      var got, seen, outcome := GetCsrObject(at);
      if got.NotFound? {
        var parameters := world.spec.csr.value;
        if !Supported(parameters.signatureAlgorithm) {
          return;
        }
        var keyPair := world.keys;
        world := world.(keys := world.keys + 1);
        var csrBuffer := NewRequest(world.spec.username, parameters, keyPair);
        // the entries are written one by one; the first write panics on a nil map
        if userSecret.data.None? {
          return;
        }
        userSecret := userSecret.(data := Some(userSecret.data.value.(tlsKey := NewKey(parameters, keyPair))));
        userSecret := userSecret.(data := Some(userSecret.data.value.(tlsCsr := csrBuffer)));
        assert RunFrom(WriteKeys(kubeconfig, userSecret)) == whole;
        IssueRequest(kubeconfig, userSecret, csrBuffer);
        return;
      } else if got.Error? {
        return;
      }

      FollowRequest(kubeconfig, userSecret, got.value);
    }

    /** The part that decides by the conditions of the CSR. */
    method FollowRequest(kubeconfig0: Kubeconfig, userSecret0: Secret, csr: Csr)
      modifies this
      ensures (At(Idle), turns) == old(RunFrom(AfterFoundCsr(csr, kubeconfig0, userSecret0)))
      ensures worker == old(worker) && approverTurns == old(approverTurns)
    {
      var kubeconfig, userSecret := kubeconfig0, userSecret0;
      ghost var whole := RunFrom(AfterFoundCsr(csr, kubeconfig, userSecret));
      if csr.flags.denied || csr.flags.failed {
        kubeconfig := kubeconfig.(status := kubeconfig.status.Set(CSRApproved, False));
        kubeconfig := kubeconfig.(status := kubeconfig.status.Set(KubeconfigFinished, False));
        kubeconfig := kubeconfig.(status := kubeconfig.status.(phase := PhaseFailed));
        assert RunFrom(Commit(kubeconfig)) == whole;
        var ok, seen', outcome' := UpdateStatus(Commit(kubeconfig), kubeconfig);
        return;
      }
      if !csr.flags.approved {
        return;
      }
      kubeconfig := kubeconfig.(status := kubeconfig.status.Set(CSRApproved, True));
      if csr.certificate.Empty? {
        assert RunFrom(Commit(kubeconfig)) == whole;
        var ok, seen', outcome' := UpdateStatus(Commit(kubeconfig), kubeconfig);
        return;
      }
      if userSecret.data.None? {
        return;
      }
      userSecret := userSecret.(data := Some(userSecret.data.value.(tlsCrt := csr.certificate)));
      assert RunFrom(GetRootCa(kubeconfig, userSecret)) == whole;
      FinishKubeconfig(kubeconfig, userSecret);
    }

    /** First the secret, then the CSR, then the status. */
    method IssueRequest(kubeconfig0: Kubeconfig, userSecret: Secret, csrBuffer: Bytes)
      requires csrBuffer == userSecret.tlsCsr
      modifies this
      ensures (At(Idle), turns) == old(RunFrom(WriteKeys(kubeconfig0, userSecret)))
      ensures worker == old(worker) && approverTurns == old(approverTurns)
    {
      var kubeconfig := kubeconfig0;
      ghost var whole := RunFrom(WriteKeys(kubeconfig, userSecret));
      var ok, seen, outcome := UpdateUserSecret(WriteKeys(kubeconfig, userSecret), userSecret);
      if !ok {
        return;
      }
      assert RunFrom(CreateCsr(kubeconfig, csrBuffer)) == whole;
      ok, seen, outcome := CreateCsrObject(CreateCsr(kubeconfig, csrBuffer), csrBuffer);
      if !ok {
        return;
      }
      kubeconfig := kubeconfig.(status := kubeconfig.status.(csr := Some(world.name)));
      kubeconfig := kubeconfig.(status := kubeconfig.status.Set(CSRCreated, True));
      kubeconfig := kubeconfig.(status := kubeconfig.status.(phase := PhaseAwaitingApproval));
      assert RunFrom(Commit(kubeconfig)) == whole;
      ok, seen, outcome := UpdateStatus(Commit(kubeconfig), kubeconfig);
    }

    /** First the secret, then the binding, then the status. */
    method FinishKubeconfig(kubeconfig0: Kubeconfig, userSecret0: Secret)
      modifies this
      ensures (At(Idle), turns) == old(RunFrom(GetRootCa(kubeconfig0, userSecret0)))
      ensures worker == old(worker) && approverTurns == old(approverTurns)
    {
      var kubeconfig, userSecret := kubeconfig0, userSecret0;
      ghost var whole := RunFrom(GetRootCa(kubeconfig, userSecret));
      var ca, seen, outcome := GetRootCaData(GetRootCa(kubeconfig, userSecret));
      if !ca.Found? {
        return;
      }
      var cfg := CreateKubeconfig(world.spec, Some(ca.value), userSecret);
      kubeconfig := kubeconfig.(status := kubeconfig.status.(kubeconfig := Some(cfg.value)));
      if userSecret.data.None? {
        return;
      }
      userSecret := userSecret.(data := Some(userSecret.data.value.(kubeconfig := Some(cfg.value))));
      ghost var at := WriteKubeconfig(kubeconfig, userSecret);
      assert RunFrom(at) == whole;
      var ok;
      ok, seen, outcome := UpdateUserSecret(at, userSecret);
      if !ok {
        return;
      }
      kubeconfig := kubeconfig.(status := kubeconfig.status.Set(UserSecretFinished, True));
      assert RunFrom(GetCrb(kubeconfig)) == whole;
      BindRole(kubeconfig);
    }

    method BindRole(kubeconfig0: Kubeconfig)
      modifies this
      ensures (At(Idle), turns) == old(RunFrom(GetCrb(kubeconfig0)))
      ensures worker == old(worker) && approverTurns == old(approverTurns)
    {
      var kubeconfig := kubeconfig0;
      ghost var whole := RunFrom(GetCrb(kubeconfig));
      var crb, seen, outcome := GetClusterRoleBinding(GetCrb(kubeconfig));
      var ok;
      if crb.NotFound? {
        assert RunFrom(CreateCrb(kubeconfig)) == whole;
        ok, seen, outcome := CreateClusterRoleBinding(CreateCrb(kubeconfig));
        if !ok {
          return;
        }
      } else if crb.Error? {
        return;
      }
      kubeconfig := kubeconfig.(status := kubeconfig.status.Set(KubeconfigFinished, True));
      kubeconfig := kubeconfig.(status := kubeconfig.status.(phase := PhaseDone));
      assert RunFrom(Commit(kubeconfig)) == whole;
      ok, seen, outcome := UpdateStatus(Commit(kubeconfig), kubeconfig);
    }

    // ----- CertificateSigningRequestReconciler.Reconcile

    ghost function CsrAt(at: Approver): System
      reads this
    {
      System(world, worker, at)
    }

    ghost function CsrRunFrom(at: Approver): (System, seq<ApproverTurn>)
      reads this
    {
      DriveApprover(CsrAt(at), approverTurns)
    }

    ghost predicate OneCsrCall(whole: (System, seq<ApproverTurn>), at: Approver, seen: World, outcome: Outcome)
      reads this
    {
      whole == DriveApprover(Apply(System(seen, worker, at), Outside(ApproverStep(outcome))), approverTurns)
    }

    method BeforeCsrCall(ghost at: Approver) returns (outcome: Outcome)
      modifies this
      ensures outcome == ApproverHead(old(approverTurns)).outcome && approverTurns == ApproverRest(old(approverTurns))
      ensures CsrAt(at) == InterfereApprover(old(CsrAt(at)), ApproverHead(old(approverTurns)).before)
      ensures approver == old(approver) && turns == old(turns)
    {
      var turn := ApproverHead(approverTurns);
      approverTurns := ApproverRest(approverTurns);
      ghost var start := CsrAt(at);
      for i := 0 to |turn.before|
        invariant CsrAt(at) == InterfereApprover(start, turn.before[..i])
        invariant approverTurns == ApproverRest(old(approverTurns)) && approver == old(approver) && turns == old(turns)
      {
        InterfereApproverOneMore(start, turn.before, i);
        OthersIgnoreApprover(CsrAt(at), Resting, turn.before[i]);
        var next := Apply(System(world, worker, Resting), turn.before[i]);
        world, worker := next.world, next.worker;
      }
      assert turn.before[..|turn.before|] == turn.before;
      outcome := turn.outcome;
    }

    method ReadCsr() returns (reply: Reply<Csr>, ghost seen: World, ghost outcome: Outcome)
      modifies this
      ensures OneCsrCall(old(CsrRunFrom(Reading)), Reading, seen, outcome)
      ensures world == seen
      ensures reply == if !outcome.Served? then Error else OptionToReply(seen.csr)
      ensures approver == old(approver) && turns == old(turns)
    {
      var fate := BeforeCsrCall(Reading);
      seen, outcome := world, fate;
      reply := if !fate.Served? then Error else OptionToReply(world.csr);
    }

    method UpdateApproval(ghost at: Approver, csr: Csr, flags: Flags)
      returns (reply: bool, ghost seen: World, ghost outcome: Outcome)
      requires at == WritingApproval(csr)
      modifies this
      ensures OneCsrCall(old(CsrRunFrom(at)), at, seen, outcome)
      ensures world == if Executed(outcome) then UpdateApprovalIn(seen, csr, flags) else seen
      ensures reply == (outcome.Served? && CsrIsCurrent(seen, csr))
      ensures approver == old(approver) && turns == old(turns)
    {
      var fate := BeforeCsrCall(at);
      seen, outcome := world, fate;
      reply := fate.Served? && CsrIsCurrent(world, csr);
      if Executed(fate) {
        world := UpdateApprovalIn(world, csr, flags);
      }
    }

    method UpdateCsrStatus(ghost at: Approver, csr: Csr, flags: Flags)
      returns (ghost seen: World, ghost outcome: Outcome)
      requires at == WritingStatus(csr, flags)
      modifies this
      ensures OneCsrCall(old(CsrRunFrom(at)), at, seen, outcome)
      ensures world == if Executed(outcome) then UpdateCsrStatusIn(seen, csr, flags) else seen
      ensures approver == old(approver) && turns == old(turns)
    {
      var fate := BeforeCsrCall(at);
      seen, outcome := world, fate;
      if Executed(fate) {
        world := UpdateCsrStatusIn(world, csr, flags);
      }
    }

    /** Handles one CSR; again equal to a whole run of the state machine. */
    method ReconcileCsr()
      modifies this
      ensures (CsrAt(Resting), approverTurns) == old(CsrRunFrom(Reading))
      ensures approver == old(approver) && turns == old(turns)
      ensures old(Inv(CsrAt(Resting))) ==> Inv(CsrAt(Resting))
    {
      ghost var whole := CsrRunFrom(Reading);
      if Inv(CsrAt(Resting)) {
        DriveApproverKeepsInv(CsrAt(Reading), approverTurns);
      }
      var got, seen, outcome := ReadCsr();
      if !got.Found? {
        return;
      }
      var csr := got.value;
      if !IsKubeconfigCsr(csr) {
        return;
      }
      var approved, denied, failed := csr.flags.approved, csr.flags.denied, csr.flags.failed;
      var isPending := !approved && !denied && !failed;
      if HasAutoApproveAnnotation(csr) && isPending {
        var err, flags := ApproveCsr(csr, whole);
        if err {
          seen, outcome := UpdateCsrStatus(WritingStatus(csr, flags), csr, flags);
        }
        return;
      }
    }

    /** ApproveCSR. `flags` is what it leaves in the caller's copy; an error makes the caller write that
        copy to the status. */
    method ApproveCsr(csr: Csr, ghost whole: (System, seq<ApproverTurn>)) returns (err: bool, flags: Flags)
      requires whole == DriveApprover(CsrAt(if Parses(csr.request) then WritingApproval(csr)
                                            else WritingStatus(csr, csr.flags.With(Failed))), approverTurns)
      modifies this
      ensures whole == CsrRunFrom(if err then WritingStatus(csr, flags) else Resting)
      ensures flags == csr.flags.With(if Parses(csr.request) then Approved else Failed)
      ensures !Parses(csr.request) ==> err && world == old(world)
      ensures approver == old(approver) && turns == old(turns)
    {
      if !Parses(csr.request) {
        return true, csr.flags.With(Failed);
      }
      flags := csr.flags.With(Approved);
      var ok, seen, outcome := UpdateApproval(WritingApproval(csr), csr, flags);
      err := !ok;
    }
  }
}
