/** One whole run of a reconciler, from its first API call to its return. */
module Drive {
  import opened Protocol

  /** What happens around one API call: steps of others before it, and its outcome. */
  datatype Turn = Turn(before: seq<OutsideAction>, outcome: Outcome)

  /** When the script ends, calls are served and nobody interferes. */
  function Head(turns: seq<Turn>): Turn {
    if turns == [] then Turn([], Served) else turns[0]
  }

  function Rest(turns: seq<Turn>): seq<Turn> {
    if turns == [] then [] else turns[1..]
  }

  function Interfere(s: System, before: seq<OutsideAction>): (r: System)
    ensures r.worker == s.worker
  {
    if before == [] then s else Apply(Interfere(s, before[..|before| - 1]), Outside(before[|before| - 1]))
  }

  lemma InterfereOneMore(s: System, before: seq<OutsideAction>, i: nat)
    requires i < |before|
    ensures Interfere(s, before[..i + 1]) == Apply(Interfere(s, before[..i]), Outside(before[i]))
  {
    assert before[..i + 1][..i] == before[..i];
  }

  /** One API call of the kubeconfig reconciler. */
  function Call(s: System, turn: Turn): System {
    Apply(Interfere(s, turn.before), Work(turn.outcome))
  }

  /** A bound on the number of calls still to come. */
  function CallsLeft(worker: Worker): nat {
    match worker
    case Idle => 0
    case Commit(_) => 1
    case CreateCrb(_) => 2
    case GetCrb(_) => 3
    case WriteKubeconfig(_, _) => 4
    case GetRootCa(_, _) => 5
    case CreateCsr(_, _) => 6
    case WriteKeys(_, _) => 7
    case GetCsr(_, _) => 8
    case CreateSecret(_) => 9
    case GetSecret(_) => 10
    case GetKubeconfig => 11
  }

  lemma CallsRunOut(s: System, turn: Turn)
    requires !s.worker.Idle?
    ensures CallsLeft(Call(s, turn).worker) < CallsLeft(s.worker)
  {
  }

  /** The state when the run returns, and what is left of the script. */
  function DriveWorker(s: System, turns: seq<Turn>): (System, seq<Turn>)
    decreases CallsLeft(s.worker)
  {
    if s.worker.Idle? then (s, turns) else
      CallsRunOut(s, Head(turns));
      DriveWorker(Call(s, Head(turns)), Rest(turns))
  }

  /** The steps the run consists of. */
  function DriveActions(s: System, turns: seq<Turn>): seq<Action>
    decreases CallsLeft(s.worker)
  {
    if s.worker.Idle? then [] else
      CallsRunOut(s, Head(turns));
      OutsideActions(Head(turns).before) + [Work(Head(turns).outcome)]
      + DriveActions(Call(s, Head(turns)), Rest(turns))
  }

  function OutsideActions(before: seq<OutsideAction>): seq<Action> {
    seq(|before|, i requires 0 <= i < |before| => Outside(before[i]))
  }

  lemma {:induction false} InterfereIsRun(s: System, before: seq<OutsideAction>)
    ensures Interfere(s, before) == Run(s, OutsideActions(before))
  {
    if before != [] {
      var n := |before| - 1;
      InterfereIsRun(s, before[..n]);
      assert OutsideActions(before)[..n] == OutsideActions(before[..n]);
    }
  }

  /** A whole run is a run of the protocol, so everything proved of protocol runs holds of it. */
  lemma {:induction false} DriveIsRun(s: System, turns: seq<Turn>)
    ensures DriveWorker(s, turns).0 == Run(s, DriveActions(s, turns))
    ensures DriveWorker(s, turns).0.worker.Idle?
    decreases CallsLeft(s.worker)
  {
    if !s.worker.Idle? {
      var t := Head(turns);
      CallsRunOut(s, t);
      DriveIsRun(Call(s, t), Rest(turns));
      InterfereIsRun(s, t.before);
      var head, tail := OutsideActions(t.before) + [Work(t.outcome)], DriveActions(Call(s, t), Rest(turns));
      RunAppend(s, OutsideActions(t.before), Work(t.outcome));
      RunConcat(s, head, tail);
    }
  }

  // ----- the CSR reconciler

  /** Steps of everyone but the CSR reconciler. */
  type OtherAction = a: Action | !IsApproverAction(a) witness Start

  datatype ApproverTurn = ApproverTurn(before: seq<OtherAction>, outcome: Outcome)

  function ApproverHead(turns: seq<ApproverTurn>): ApproverTurn {
    if turns == [] then ApproverTurn([], Served) else turns[0]
  }

  function ApproverRest(turns: seq<ApproverTurn>): seq<ApproverTurn> {
    if turns == [] then [] else turns[1..]
  }

  function InterfereApprover(s: System, before: seq<OtherAction>): (r: System)
    ensures r.approver == s.approver
  {
    if before == [] then s else Apply(InterfereApprover(s, before[..|before| - 1]), before[|before| - 1])
  }

  lemma InterfereApproverOneMore(s: System, before: seq<OtherAction>, i: nat)
    requires i < |before|
    ensures InterfereApprover(s, before[..i + 1]) == Apply(InterfereApprover(s, before[..i]), before[i])
  {
    assert before[..i + 1][..i] == before[..i];
  }

  /** Steps of others do not depend on where the CSR reconciler stands. */
  lemma OthersIgnoreApprover(s: System, approver: Approver, a: OtherAction)
    ensures Apply(s, a) == Apply(s.(approver := approver), a).(approver := s.approver)
  {
  }

  function CallApprover(s: System, turn: ApproverTurn): System {
    Apply(InterfereApprover(s, turn.before), Outside(ApproverStep(turn.outcome)))
  }

  function ApproverCallsLeft(approver: Approver): nat {
    match approver
    case Resting => 0
    case WritingStatus(_, _) => 1
    case WritingApproval(_) => 2
    case Reading => 3
  }

  lemma ApproverCallsRunOut(s: System, turn: ApproverTurn)
    requires !s.approver.Resting?
    ensures ApproverCallsLeft(CallApprover(s, turn).approver) < ApproverCallsLeft(s.approver)
  {
  }

  function DriveApprover(s: System, turns: seq<ApproverTurn>): (System, seq<ApproverTurn>)
    decreases ApproverCallsLeft(s.approver)
  {
    if s.approver.Resting? then (s, turns) else
      ApproverCallsRunOut(s, ApproverHead(turns));
      DriveApprover(CallApprover(s, ApproverHead(turns)), ApproverRest(turns))
  }

  function ApproverActions(s: System, turns: seq<ApproverTurn>): seq<Action>
    decreases ApproverCallsLeft(s.approver)
  {
    if s.approver.Resting? then [] else
      ApproverCallsRunOut(s, ApproverHead(turns));
      ApproverHead(turns).before + [Outside(ApproverStep(ApproverHead(turns).outcome))]
      + ApproverActions(CallApprover(s, ApproverHead(turns)), ApproverRest(turns))
  }

  lemma {:induction false} InterfereApproverIsRun(s: System, before: seq<OtherAction>)
    ensures InterfereApprover(s, before) == Run(s, before)
  {
    if before != [] {
      InterfereApproverIsRun(s, before[..|before| - 1]);
    }
  }

  lemma {:induction false} DriveApproverIsRun(s: System, turns: seq<ApproverTurn>)
    ensures DriveApprover(s, turns).0 == Run(s, ApproverActions(s, turns))
    ensures DriveApprover(s, turns).0.approver.Resting?
    decreases ApproverCallsLeft(s.approver)
  {
    if !s.approver.Resting? {
      var t := ApproverHead(turns);
      ApproverCallsRunOut(s, t);
      DriveApproverIsRun(CallApprover(s, t), ApproverRest(turns));
      InterfereApproverIsRun(s, t.before);
      var head: seq<Action> := t.before + [Outside(ApproverStep(t.outcome))];
      RunAppend(s, t.before, Outside(ApproverStep(t.outcome)));
      RunConcat(s, head, ApproverActions(CallApprover(s, t), ApproverRest(turns)));
    }
  }
}
