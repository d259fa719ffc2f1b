/** What a finished kubeconfig is worth if the spec was edited on the way: whom its certificate names, what
    its binding grants, and that nothing changes any more. */
module EditedOutcomes {
  import opened Wrappers
  import opened Credentials
  import opened Document
  import opened Objects
  import opened Acceptance
  import opened Protocol
  import opened Safety
  import opened SpecEdits

  // ----- whose certificate it is

  /** The user whom a certificate names. */
  function Subject(crt: Bytes): Option<string> {
    if crt.Certificate? then Some(crt.request.commonName) else None
  }

  predicate KeepsCsrLive(moves: seq<Move>) {
    forall i :: 0 <= i < |moves| ==> moves[i] != Usual(Outside(DeleteCsr))
  }

  /** While there is a CSR no key pair is written. */
  lemma CsrKeepsIssuedFor(l: Live, m: Move)
    requires LiveInv(l) && l.world.csr.Some? && m != Usual(Outside(DeleteCsr))
    ensures StepLive(l, m).world.csr.Some? && StepLive(l, m).issuedFor == l.issuedFor
  {
    match m
    case Edit(u) =>
    case Usual(a) =>
      match a
      case Work(outcome) => WorkStepEffect(By(l, l.read).world, l.worker, outcome);
      case Outside(o) => CsrSurvivesLive(AsStored(l).world, l.approver, o);
      case _ =>
  }

  lemma CsrSurvivesLive(w: World, approver: Approver, o: OutsideAction)
    requires w.csr.Some? && o != DeleteCsr
    ensures OutsideStep(w, approver, o).0.csr.Some?
  {
  }

  lemma {:induction false} CsrNamesItsUser(l: Live, moves: seq<Move>)
    requires LiveInv(l) && l.world.csr.Some? && KeepsCsrLive(moves)
    ensures var t := RunLive(l, moves); LiveInv(t) && t.world.csr.Some? && t.issuedFor == l.issuedFor
    ensures l.world.csr.value.request.RequestPem? && l.world.csr.value.request.request.commonName == l.issuedFor
  {
    RunKeepsLiveInv(l, moves);
    if moves != [] {
      var n := |moves| - 1;
      CsrNamesItsUser(l, moves[..n]);
      CsrKeepsIssuedFor(RunLive(l, moves[..n]), moves[n]);
    }
  }

  /** The certificate of a finished kubeconfig names the user of the spec if and only if the username still
      is the one the key pair was generated for. */
  lemma NamesUserExactlyWhen(l0: Live, moves: seq<Move>)
    requires InitialLive(l0) && IsFinished(RunLive(l0, moves))
    ensures var l := RunLive(l0, moves);
      && l.world.secret.Some?
      && (Subject(l.world.secret.value.tlsCrt) == Some(l.world.spec.username) <==> l.issuedFor == l.world.spec.username)
  {
    FinishedThoughEdited(l0, moves);
  }

  /** In terms of the CSR, while it is there: if the CSR named the user when it was issued, exactly when no
      edit has changed the username since. */
  lemma NamesUserOfCsr(l0: Live, before: seq<Move>, after: seq<Move>)
    requires InitialLive(l0) && RunLive(l0, before).world.csr.Some? && KeepsCsrLive(after)
    requires IsFinished(RunLive(l0, before + after))
    ensures var issued, done := RunLive(l0, before), RunLive(l0, before + after);
      && issued.world.csr.value.request.RequestPem? && done.world.secret.Some?
      && (Subject(done.world.secret.value.tlsCrt) == Some(done.world.spec.username)
          <==> done.world.spec.username == issued.world.csr.value.request.request.commonName)
  {
    InitialLiveInv(l0);
    RunKeepsLiveInv(l0, before);
    RunLiveConcat(l0, before, after);
    CsrNamesItsUser(RunLive(l0, before), after);
    NamesUserExactlyWhen(l0, before + after);
  }

  // ----- whose cluster it trusts

  /** The cluster CAs that were published in the course of a run. */
  function PublishedCasLive(l0: Live, moves: seq<Move>): set<Bytes> {
    var rootCa := RunLive(l0, moves).world.rootCa;
    (if rootCa.Some? then {rootCa.value} else {})
    + if moves == [] then {} else PublishedCasLive(l0, moves[..|moves| - 1])
  }

  lemma {:induction false} PublishedAtSomeMove(l0: Live, moves: seq<Move>, ca: Bytes) returns (i: nat)
    requires ca in PublishedCasLive(l0, moves)
    ensures i <= |moves| && RunLive(l0, moves[..i]).world.rootCa == Some(ca)
  {
    var n := |moves|;
    if RunLive(l0, moves).world.rootCa == Some(ca) {
      i := n;
      assert moves[..n] == moves;
    } else {
      i := PublishedAtSomeMove(l0, moves[..n - 1], ca);
      assert moves[..n - 1][..i] == moves[..i];
    }
  }

  lemma MoveTrustsPublished(l: Live, m: Move, cas: set<Bytes>)
    requires TrustsPublished(l.world.kubeconfig.status, l.worker, cas)
    requires l.world.rootCa.Some? ==> l.world.rootCa.value in cas
    ensures TrustsPublished(StepLive(l, m).world.kubeconfig.status, StepLive(l, m).worker, cas)
  {
    match m
    case Edit(u) =>
    case Usual(a) =>
      match a
      case Work(outcome) => WorkTrustsPublished(By(l, l.read).world, l.worker, outcome, cas);
      case Outside(o) => OthersLeaveStatus(AsStored(l).world, l.approver, o);
      case _ =>
  }

  lemma {:induction false} RunLiveTrustsPublished(l0: Live, moves: seq<Move>)
    requires InitialLive(l0)
    ensures var l := RunLive(l0, moves);
      TrustsPublished(l.world.kubeconfig.status, l.worker, PublishedCasLive(l0, moves))
  {
    if moves != [] {
      var n := |moves| - 1;
      var l, t, cas := RunLive(l0, moves[..n]), RunLive(l0, moves), PublishedCasLive(l0, moves[..n]);
      RunLiveTrustsPublished(l0, moves[..n]);
      MoveTrustsPublished(l, moves[n], cas);
      MorePublished(t.world.kubeconfig.status, t.worker, cas, PublishedCasLive(l0, moves));
    }
  }

  /** Whatever is edited, the kubeconfig trusts a cluster CA that was published in the course of the run. */
  lemma TrustsPublishedThoughEdited(l0: Live, moves: seq<Move>) returns (i: nat, ca: Bytes)
    requires InitialLive(l0) && IsFinished(RunLive(l0, moves))
    ensures i <= |moves| && RunLive(l0, moves[..i]).world.rootCa == Some(ca)
    ensures var text := RunLive(l0, moves).world.kubeconfig.status.kubeconfig;
      && text.Some? && Parse(text.value).Success? && Resolve(Parse(text.value).value).Some?
      && Resolve(Parse(text.value).value).value.authority == Base64(ca)
  {
    RunLiveTrustsPublished(l0, moves);
    var text, cas := RunLive(l0, moves).world.kubeconfig.status.kubeconfig, PublishedCasLive(l0, moves);
    ca :| ca in cas && Resolve(Parse(text.value).value).value.authority == Base64(ca);
    i := PublishedAtSomeMove(l0, moves, ca);
  }

  // ----- whose binding it is

  /** Who brought the binding under the name of a user: nobody yet, somebody else, or the operator by the
      spec it went by then. */
  datatype Maker = Nobody | SomebodyElse(crb: ClusterRoleBinding) | Operator(spec: AdmittedSpec)

  function MakerOf(l0: Live, moves: seq<Move>, username: string): Maker {
    if moves == [] then
      match BindingOf(l0, username)
      case None => Nobody
      case Some(crb) => SomebodyElse(crb)
    else
      var n := |moves| - 1;
      var l := RunLive(l0, moves[..n]);
      if BindingOf(l, username).Some? then MakerOf(l0, moves[..n], username)
      else if BindingOf(StepLive(l, moves[n]), username).None? then Nobody
      else match ForeignBindingMoved(moves[n])
        case Some(crb) => SomebodyElse(crb)
        case None => Operator(l.read)
  }

  function ForeignBindingMoved(m: Move): Option<ClusterRoleBinding> {
    if m.Usual? then ForeignBindingOf(m.action) else None
  }

  predicate IsFrom(name: string, username: string, crb: Option<ClusterRoleBinding>, maker: Maker) {
    match maker
    case Nobody => crb.None?
    case SomebodyElse(other) => crb == Some(other)
    case Operator(spec) =>
      spec.username == username && BindingAccepted(name, spec) && crb == Some(NewClusterRoleBinding(spec))
  }

  /** A step leaves the bindings that are there, and adds at most one. */
  lemma BindingStepLive(l: Live, m: Move, username: string)
    ensures var t := StepLive(l, m);
      && t.world.name == l.world.name
      && (BindingOf(l, username).Some? ==> BindingOf(t, username) == BindingOf(l, username))
      && (BindingOf(l, username).None? && BindingOf(t, username).Some? ==>
            IsFrom(l.world.name, username, BindingOf(t, username),
                   match ForeignBindingMoved(m) case Some(crb) => SomebodyElse(crb) case None => Operator(l.read)))
  {
    match m
    case Edit(u) =>
    case Usual(a) =>
      if a.Work? {
        BindingStep(By(l, l.read), a);
      } else {
        BindingStep(AsStored(l), a);
        OthersMakeNoBinding(AsStored(l), a);
      }
  }

  lemma OthersMakeNoBinding(s: System, a: Action)
    requires !a.Work?
    ensures ForeignBindingOf(a).None? ==> Apply(s, a).world.crb == s.world.crb
  {
  }

  lemma {:induction false} BindingIsFromItsMaker(l0: Live, moves: seq<Move>, username: string)
    ensures RunLive(l0, moves).world.name == l0.world.name
    ensures IsFrom(l0.world.name, username, BindingOf(RunLive(l0, moves), username), MakerOf(l0, moves, username))
  {
    if moves != [] {
      var n := |moves| - 1;
      BindingIsFromItsMaker(l0, moves[..n], username);
      BindingStepLive(RunLive(l0, moves[..n]), moves[n], username);
    }
  }

  predicate HadRole(maker: Maker, role: RoleRef) {
    match maker
    case Nobody => false
    case SomebodyElse(crb) => GrantsRole(crb, role)
    case Operator(spec) => SameRole(spec.roleRef.value, role)
  }

  /** Whatever is edited, a finished kubeconfig's user has a binding. It grants the role of the spec the
      kubeconfig was written by exactly when whoever made the binding had that role: somebody else, or the
      operator by the spec it went by at that time, which may have been edited since. It names the user
      unless it came from somebody else who named another. */
  lemma FinishedHasBindingThoughEdited(l0: Live, moves: seq<Move>)
    requires InitialLive(l0) && IsFinished(RunLive(l0, moves))
    ensures var l := RunLive(l0, moves);
      var spec := l.writtenBy;
      var crb, maker := BindingOf(l, spec.username), MakerOf(l0, moves, spec.username);
      && crb.Some? && !maker.Nobody?
      && (GrantsRole(crb.value, spec.roleRef.value) <==> HadRole(maker, spec.roleRef.value))
      && (crb.value.subject == spec.username <==> maker.Operator? || maker.crb.subject == spec.username)
  {
    FinishedThoughEdited(l0, moves);
    var spec := RunLive(l0, moves).writtenBy;
    BindingIsFromItsMaker(l0, moves, spec.username);
    var maker := MakerOf(l0, moves, spec.username);
    if maker.Operator? {
      NewBindingGrants(maker.spec, spec.roleRef.value);
    }
  }

  /** So at the moment of finishing this holds of the stored spec. */
  lemma FinishesWithRoleExactlyWhen(l0: Live, moves: seq<Move>, m: Move)
    requires InitialLive(l0)
    ensures var before, after := RunLive(l0, moves), RunLive(l0, moves + [m]);
      !IsFinished(before) && IsFinished(after) ==>
        var spec := after.world.spec;
        var crb, maker := BindingOf(after, spec.username), MakerOf(l0, moves + [m], spec.username);
        && crb.Some? && !maker.Nobody?
        && (GrantsRole(crb.value, spec.roleRef.value) <==> HadRole(maker, spec.roleRef.value))
  {
    assert (moves + [m])[..|moves|] == moves;
    FinishesByStoredSpec(l0, moves, m);
    if IsFinished(RunLive(l0, moves + [m])) {
      FinishedHasBindingThoughEdited(l0, moves + [m]);
    }
  }

  // ----- the end is the end

  predicate IsOperatorMove(m: Move) {
    m.Usual? && IsOperatorAction(m.action)
  }

  lemma TerminalMove(l: Live, m: Move)
    requires LiveInv(l) && l.world.kubeconfig.status.Terminal()
    ensures var t := StepLive(l, m);
      && t.world.kubeconfig.status == l.world.kubeconfig.status && t.world.secret == l.world.secret
      && (l.world.csr.None? ==> t.world.csr.None?)
      && (IsOperatorMove(m) ==> t.world.(crb := None) == l.world.(crb := None) && t.bindings == l.bindings)
  {
    match m
    case Edit(u) =>
    case Usual(a) =>
      match a
      case Outside(o) => TerminalOutside(l, o);
      case _ => TerminalCall(l, a);
  }

  lemma TerminalOutside(l: Live, o: OutsideAction)
    requires LiveInv(l) && l.world.kubeconfig.status.Terminal()
    ensures var s, t := AsStored(l), Apply(AsStored(l), Outside(o));
      && t.world.kubeconfig.status == s.world.kubeconfig.status && t.world.secret == s.world.secret
      && (s.world.csr.None? ==> t.world.csr.None?)
      && (IsApproverAction(Outside(o)) ==> t.world == s.world)
  {
    OutsideStepEffect(AsStored(l).world, l.approver, o);
    if o.ApproverStep? {
      DecidedCsrIsLeftAlone(AsStored(l).world, l.approver, o.outcome);
    }
  }

  lemma TerminalCall(l: Live, a: Action)
    requires LiveInv(l) && l.world.kubeconfig.status.Terminal() && !a.Outside?
    ensures StepLive(l, Usual(a)).world.(crb := None) == l.world.(crb := None)
    ensures StepLive(l, Usual(a)).bindings == l.bindings
  {
    PutBack(l.bindings, l.read.username);
    PutBack(l.bindings, l.world.spec.username);
  }

  lemma PutBack(m: map<string, ClusterRoleBinding>, name: string)
    ensures name in m ==> m[name := m[name]] == m
  {
  }

  /** Terminal states are absorbing under edits too: status and secret stay, no CSR comes into being, and no
      step of the operator changes anything in the store, whatever spec is put there. */
  lemma {:induction false} TerminalThoughEdited(l0: Live, before: seq<Move>, after: seq<Move>)
    requires InitialLive(l0) && RunLive(l0, before).world.kubeconfig.status.Terminal()
    ensures var v, w := RunLive(l0, before).world, RunLive(l0, before + after).world;
      && w.kubeconfig.status == v.kubeconfig.status && w.secret == v.secret
      && (v.csr.None? ==> w.csr.None?)
      && ((forall m :: m in after ==> IsOperatorMove(m)) ==>
            && w.(crb := None) == v.(crb := None)
            && RunLive(l0, before + after).bindings == RunLive(l0, before).bindings)
  {
    RunLiveConcat(l0, before, after);
    if after != [] {
      var n := |after| - 1;
      var prefix := after[..n];
      TerminalThoughEdited(l0, before, prefix);
      InitialLiveInv(l0);
      RunKeepsLiveInv(l0, before + prefix);
      RunLiveConcat(l0, before, prefix);
      TerminalMove(RunLive(l0, before + prefix), after[n]);
    }
  }
}
