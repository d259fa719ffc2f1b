/** Why KubeconfigFinished has to be checked before the secret is used, and what else would do. */
module StaleCertificate {
  import opened Wrappers
  import opened Credentials
  import opened Conditions
  import opened Objects
  import opened Protocol
  import opened Safety
  import opened WholeRun
  import opened Convergence

  /** The secret holds a certificate that was not issued for its own key and request. */
  predicate Stale(w: World) {
    w.secret.Some? && !w.secret.value.tlsCrt.Empty? && !Certified(w.spec, w.secret.value)
  }

  predicate NoCertificate(w: World) {
    w.secret.Some? ==> w.secret.value.tlsCrt.Empty?
  }

  /** Whoever puts a secret under the derived name does not put a certificate into it. */
  predicate BringsNoCertificate(a: Action) {
    a.Outside? && a.action.PutSecret? && a.action.data.Some? ==> a.action.data.value.tlsCrt.Empty?
  }

  predicate Clean(actions: seq<Action>) {
    forall i :: 0 <= i < |actions| ==> BringsNoCertificate(actions[i])
  }

  // ----- without deletion

  /** Without a CSR there is no certificate, and with one it belongs to the stored key. */
  ghost predicate Fits(s: System) {
    && !Stale(s.world)
    && (s.world.csr.None? ==> NoCertificate(s.world))
    && (s.worker.GetRootCa? || s.worker.WriteKubeconfig? ==> s.world.csr.Some?)
  }

  lemma WorkKeepsFit(s: System, outcome: Outcome)
    requires Inv(s) && Fits(s)
    ensures Fits(Apply(s, Work(outcome)))
  {
    if s.worker.WriteKeys? || s.worker.WriteKubeconfig? {
      SecretWriteKeepsFit(s, outcome);
    } else if s.worker.GetCsr? {
      ReadCsrKeepsFit(s, outcome);
    } else {
      OtherWorkKeepsFit(s, outcome);
    }
  }

  lemma SecretWriteKeepsFit(s: System, outcome: Outcome)
    requires Inv(s) && Fits(s) && (s.worker.WriteKeys? || s.worker.WriteKubeconfig?)
    ensures Fits(Apply(s, Work(outcome)))
  {
  }

  lemma ReadCsrKeepsFit(s: System, outcome: Outcome)
    requires Inv(s) && Fits(s) && s.worker.GetCsr?
    ensures Fits(Apply(s, Work(outcome)))
  {
  }

  lemma OtherWorkKeepsFit(s: System, outcome: Outcome)
    requires Inv(s) && Fits(s) && !s.worker.WriteKeys? && !s.worker.WriteKubeconfig? && !s.worker.GetCsr?
    ensures Fits(Apply(s, Work(outcome)))
  {
  }

  lemma OutsideKeepsFit(s: System, o: OutsideAction)
    requires Inv(s) && Fits(s) && o != DeleteCsr && BringsNoCertificate(Outside(o))
    ensures Fits(Apply(s, Outside(o)))
  {
    OutsideStepEffect(s.world, s.approver, o);
    CsrSurvives(s.world, s.approver, o);
  }

  lemma CsrSurvives(w: World, approver: Approver, o: OutsideAction)
    requires o != DeleteCsr
    ensures w.csr.Some? ==> OutsideStep(w, approver, o).0.csr.Some?
  {
  }

  lemma StepKeepsFit(s: System, a: Action)
    requires Inv(s) && Fits(s) && a != Outside(DeleteCsr) && BringsNoCertificate(a)
    ensures Fits(Apply(s, a))
  {
    match a
    case Work(outcome) => WorkKeepsFit(s, outcome);
    case Outside(o) => OutsideKeepsFit(s, o);
    case _ =>
  }

  lemma {:induction false} FitStays(s: System, actions: seq<Action>)
    requires Inv(s) && Fits(s) && KeepsCsr(actions) && Clean(actions)
    ensures Fits(Run(s, actions))
  {
    if actions != [] {
      var n := |actions| - 1;
      FitStays(s, actions[..n]);
      RunKeepsInv(s, actions[..n]);
      StepKeepsFit(Run(s, actions[..n]), actions[n]);
    }
  }

  /** As long as nobody deletes the CSR, a certificate in the secret always is the one for the secret's
      key, whether the kubeconfig is finished or not. */
  lemma NoDeletionNoStaleCertificate(s0: System, actions: seq<Action>)
    requires Initial(s0) && NoCertificate(s0.world) && KeepsCsr(actions) && Clean(actions)
    ensures !Stale(Run(s0, actions).world)
  {
    InitialInv(s0);
    FitStays(s0, actions);
  }

  // ----- with deletion

  function ServedSteps(s: System, n: nat): System {
    if n == 0 then s else Apply(ServedSteps(s, n - 1), Work(Served))
  }

  lemma {:induction false} LeadsToSteps(s: System, t: System, n: nat)
    requires Leads(s, t)
    ensures Leads(s, ServedSteps(t, n))
  {
    if n > 0 {
      LeadsToSteps(s, t, n - 1);
      LeadsOn(s, ServedSteps(t, n - 1), Work(Served));
    }
  }

  /** The reconciler crashes, the CSR is deleted and the CA published. */
  function Cleared(s: System): System {
    Apply(Apply(Apply(s, Crash), Outside(DeleteCsr)), Outside(SetRootCa(Some(Empty))))
  }

  /** A failure-free run, up to the certificate. */
  function Certificated(s: System): System {
    Apply(Apply(Reconcile(s), Outside(HumanApprove)), Outside(SignCsr))
  }

  /** The certificate is in the secret, but the binding and the status are not written yet. */
  function Interrupted(s: System): System {
    Apply(ServedSteps(Apply(s, Start), 5), Crash)
  }

  /** The operator can write a key pair into a secret that is there. */
  predicate CanGenerate(w: World) {
    Supported(w.spec.csr.value.signatureAlgorithm) && w.secret.Some? && w.secret.value.Usable()
  }

  /** A second key pair is in the secret. */
  function Regenerated(s: System): System {
    ServedSteps(Apply(Apply(s, Outside(DeleteCsr)), Start), 4)
  }

  lemma CertificatedState(s: System)
    requires s.worker.Idle? && s.world.csr.None? && !s.world.kubeconfig.status.Terminal()
    requires CanIssue(s.world) && s.world.rootCa.Some?
    ensures var t := Certificated(s);
      && t.worker.Idle? && !t.world.kubeconfig.status.Terminal() && Answered(t.world)
      && t.world.secret.Some? && t.world.secret.value.Usable()
      && t.world.spec == s.world.spec && t.world.keys == s.world.keys + 1
      && t.world.csr.value.certificate == Sign(NewRequest(s.world.spec.username, s.world.spec.csr.value, s.world.keys))
  {
    ReconcileIsOneUpdate(s);
    IssuedWorld(s.world);
    ApprovedAndSigned(ReconciledWorld(s.world));
  }

  lemma IssuedWorld(v: World)
    requires !v.kubeconfig.status.Terminal() && v.csr.None? && CanIssue(v)
    ensures var w := ReconciledWorld(v);
      && !w.kubeconfig.status.Terminal() && w.secret.Some? && w.secret.value.Usable()
      && w.rootCa == v.rootCa && w.spec == v.spec && w.keys == v.keys + 1
      && w.csr.Some? && w.csr.value.flags == PENDING && w.csr.value.certificate.Empty?
      && w.csr.value.request == NewRequest(v.spec.username, v.spec.csr.value, v.keys)
  {
    RunDecides(v);
  }

  lemma ApprovedAndSigned(w: World)
    requires w.csr.Some? && w.csr.value.flags == PENDING && w.csr.value.certificate.Empty?
    requires Parses(w.csr.value.request)
    ensures var t := OutsideStep(OutsideStep(w, Resting, HumanApprove).0, Resting, SignCsr).0;
      && t.kubeconfig == w.kubeconfig && t.secret == w.secret && t.rootCa == w.rootCa
      && t.spec == w.spec && t.keys == w.keys
      && t.csr.Some? && t.csr.value.flags == PENDING.With(Approved)
      && t.csr.value.certificate == Sign(w.csr.value.request)
  {
  }

  lemma InterruptedState(s: System)
    requires s.worker.Idle? && !s.world.kubeconfig.status.Terminal() && Answered(s.world)
    requires s.world.secret.Some? && s.world.secret.value.Usable()
    ensures var t := Interrupted(s);
      && t.worker.Idle? && !t.world.kubeconfig.status.Terminal() && t.world.spec == s.world.spec
      && t.world.secret.Some? && t.world.secret.value.Usable()
      && t.world.secret.value.tlsCrt == s.world.csr.value.certificate
      && t.world.keys == s.world.keys
  {
    var s0 := Apply(s, Start);
    var s1 := Apply(s0, Work(Served));
    var s2 := Apply(s1, Work(Served));
    var s3 := Apply(s2, Work(Served));
    var s4 := Apply(s3, Work(Served));
    var s5 := Apply(s4, Work(Served));
    assert ServedSteps(s0, 1) == s1;
    assert ServedSteps(s0, 2) == s2;
    assert ServedSteps(s0, 3) == s3;
    assert ServedSteps(s0, 4) == s4;
  }

  lemma RegeneratedState(s: System)
    requires s.worker.Idle? && !s.world.kubeconfig.status.Terminal() && CanGenerate(s.world)
    ensures var t := Regenerated(s);
      && t.world.secret.Some? && t.world.spec == s.world.spec
      && t.world.secret.value.tlsCrt == s.world.secret.value.tlsCrt
      && t.world.secret.value.tlsKey == NewKey(s.world.spec.csr.value, s.world.keys)
      && t.world.secret.value.tlsCsr == NewRequest(s.world.spec.username, s.world.spec.csr.value, s.world.keys)
  {
    var s0 := Apply(Apply(s, Outside(DeleteCsr)), Start);
    var s1 := Apply(s0, Work(Served));
    var s2 := Apply(s1, Work(Served));
    var s3 := Apply(s2, Work(Served));
    var s4 := Apply(s3, Work(Served));
    assert ServedSteps(s0, 1) == s1;
    assert ServedSteps(s0, 2) == s2;
    assert ServedSteps(s0, 3) == s3;
    assert ServedSteps(s0, 4) == s4;
  }

  lemma ClearedLeads(s: System)
    ensures Leads(s, Cleared(s))
  {
    LeadsToItself(s);
    LeadsOn(s, s, Crash);
    LeadsOn(s, Apply(s, Crash), Outside(DeleteCsr));
    LeadsOn(s, Apply(Apply(s, Crash), Outside(DeleteCsr)), Outside(SetRootCa(Some(Empty))));
  }

  lemma ClearedState(s: System)
    ensures var t := Cleared(s);
      && t.worker.Idle? && t.world == s.world.(csr := None, rootCa := Some(Empty))
  {
  }

  lemma CertificatedLeads(s: System, t: System)
    requires Leads(s, t)
    ensures Leads(s, Certificated(t))
  {
    LeadsToReconcile(s, t);
    LeadsOn(s, Reconcile(t), Outside(HumanApprove));
    LeadsOn(s, Apply(Reconcile(t), Outside(HumanApprove)), Outside(SignCsr));
  }

  lemma InterruptedLeads(s: System, t: System)
    requires Leads(s, t)
    ensures Leads(s, Interrupted(t))
  {
    LeadsOn(s, t, Start);
    LeadsToSteps(s, Apply(t, Start), 5);
    LeadsOn(s, ServedSteps(Apply(t, Start), 5), Crash);
  }

  lemma RegeneratedLeads(s: System, t: System)
    requires Leads(s, t)
    ensures Leads(s, Regenerated(t))
  {
    LeadsOn(s, t, Outside(DeleteCsr));
    LeadsOn(s, Apply(t, Outside(DeleteCsr)), Start);
    LeadsToSteps(s, Apply(Apply(t, Outside(DeleteCsr)), Start), 4);
  }

  /** A crash between the last secret write and the status write, followed by the deletion of the CSR,
      makes the reconciler generate a second key pair next to the certificate of the first. This can
      happen from every state that is not terminal and from which a CSR can be made. */
  lemma SecretMayHoldStaleCertificate(s: System)
    requires !s.world.kubeconfig.status.Terminal() && CanIssue(s.world)
    ensures Stale(Regenerated(Interrupted(Certificated(Cleared(s)))).world)
    ensures Leads(s, Regenerated(Interrupted(Certificated(Cleared(s)))))
  {
    ClearedLeads(s);
    ClearedState(s);
    CertificatedLeads(s, Cleared(s));
    InterruptedLeads(s, Certificated(Cleared(s)));
    RegeneratedLeads(s, Interrupted(Certificated(Cleared(s))));
    TurnsStale(Cleared(s));
  }

  lemma TurnsStale(s: System)
    requires s.worker.Idle? && s.world.csr.None? && !s.world.kubeconfig.status.Terminal()
    requires CanIssue(s.world) && s.world.rootCa.Some?
    ensures Stale(Regenerated(Interrupted(Certificated(s))).world)
  {
    CertificatedState(s);
    InterruptedState(Certificated(s));
    RegeneratedState(Interrupted(Certificated(s)));
  }

  /** The counter moves past the number of a key pair that the certificate may happen to name. */
  function Restarted(s: System): System {
    var crt := if s.world.secret.Some? then s.world.secret.value.tlsCrt else Empty;
    Apply(Apply(s, Crash), Outside(Elsewhere(0, if crt.Certificate? && crt.request.key == s.world.keys then 1 else 0)))
  }

  /** The same happens to a certificate that somebody else put beside a fitting key: the operator, which
      finds no CSR, overwrites the key. */
  lemma OverwritesKeyOfCertificate(s: System)
    requires !s.world.kubeconfig.status.Terminal() && CanGenerate(s.world) && !s.world.secret.value.tlsCrt.Empty?
    ensures Stale(Regenerated(Restarted(s)).world)
    ensures Leads(s, Regenerated(Restarted(s)))
  {
    RegeneratedState(Restarted(s));
    LeadsToItself(s);
    LeadsOn(s, s, Crash);
    var crt := s.world.secret.value.tlsCrt;
    LeadsOn(s, Apply(s, Crash),
            Outside(Elsewhere(0, if crt.Certificate? && crt.request.key == s.world.keys then 1 else 0)));
    RegeneratedLeads(s, Restarted(s));
  }

  // ----- exactly when

  /** A secret that takes no keys is never written. */
  lemma UnusableSecretIsFrozen(s: System, a: Action)
    requires Inv(s) && !SecretTakesKeys(s.world)
    ensures Apply(s, a).world.secret == s.world.secret
  {
    match a
    case Outside(o) => OutsideStepEffect(s.world, s.approver, o);
    case _ =>
  }

  /** The certificate fits, and the operator has no way to change that. */
  predicate Barren(w: World) {
    !Stale(w) && (CanGenerate(w) ==> w.secret.value.tlsCrt.Empty?)
  }

  lemma StuckStaysBarren(s: System, a: Action)
    requires Inv(s) && Stuck(s) && Barren(s.world) && (s.world.secret.Some? || BringsNoCertificate(a))
    ensures Barren(Apply(s, a).world) && (s.world.secret.Some? ==> Apply(s, a).world.secret.Some?)
  {
    match a
    case Outside(o) => OutsideStepEffect(s.world, s.approver, o);
    case _ =>
  }

  /** Where no CSR can be made, no certificate of the operator comes into the secret. */
  lemma {:induction false} BlockedStaysBarren(s: System, more: seq<Action>)
    requires Inv(s) && Barren(s.world) && (!SecretTakesKeys(s.world) || Stuck(s))
    requires s.world.secret.Some? || Clean(more)
    ensures var t := Run(s, more);
      && Inv(t) && Barren(t.world) && (!SecretTakesKeys(t.world) || Stuck(t))
      && (s.world.secret.Some? ==> t.world.secret.Some?)
  {
    RunKeepsInv(s, more);
    if more != [] {
      var n := |more| - 1;
      BlockedStaysBarren(s, more[..n]);
      var t := Run(s, more[..n]);
      BindingStep(t, more[n]);
      if !SecretTakesKeys(t.world) {
        UnusableSecretIsFrozen(t, more[n]);
      } else {
        StuckStaysStuck(t, more[n]);
        StuckStaysBarren(t, more[n]);
      }
    }
  }

  /** A certificate that does not fit is there, or may come: from somebody else while there is no secret,
      or from the operator, by a CSR or by overwriting the key of a certificate. */
  predicate CanTurnStale(w: World) {
    || Stale(w)
    || (!w.kubeconfig.status.Terminal()
        && (w.secret.None? || CanIssue(w) || (CanGenerate(w) && !w.secret.value.tlsCrt.Empty?)))
  }

  /** Over all runs: this is exactly when a reachable state can lead to a stale certificate. So a
      certificate that fits can be relied upon for good only in a terminal condition, or where the operator
      is blocked altogether. */
  lemma CanTurnStaleExactlyWhen(s0: System, before: seq<Action>)
    requires Initial(s0)
    ensures var s := Run(s0, before);
      (exists more :: Stale(Run(s, more).world)) <==> CanTurnStale(s.world)
  {
    var s := Run(s0, before);
    if CanTurnStale(s.world) {
      StaleRun(s);
    } else {
      forall more ensures !Stale(Run(s, more).world) {
        StaysFresh(s0, before, more);
      }
    }
  }

  lemma StaleRun(s: System)
    requires CanTurnStale(s.world)
    ensures exists more :: Stale(Run(s, more).world)
  {
    if Stale(s.world) {
      assert Stale(Run(s, []).world);
    } else if s.world.secret.None? {
      var put := [Outside(PutSecret(false, Some(SecretData(Empty, Empty, Arbitrary(""), None))))];
      RunAppend(s, [], put[0]);
      assert [] + put == put;
      assert Stale(Run(s, put).world);
    } else if CanIssue(s.world) {
      SecretMayHoldStaleCertificate(s);
    } else {
      OverwritesKeyOfCertificate(s);
    }
  }

  lemma StaysFresh(s0: System, before: seq<Action>, more: seq<Action>)
    requires Initial(s0) && !CanTurnStale(Run(s0, before).world)
    ensures !Stale(Run(Run(s0, before), more).world)
  {
    var s := Run(s0, before);
    InitialInv(s0);
    RunKeepsInv(s0, before);
    BindingHistory(s0, before);
    if s.world.kubeconfig.status.Terminal() {
      TerminalIsAbsorbing(s0, before, more);
      RunConcat(s0, before, more);
      BindingHistory(s, more);
    } else {
      if SecretTakesKeys(s.world) {
        NeverFinishesWithoutIssue(s0, before);
      }
      BlockedStaysBarren(s, more);
    }
  }

  /** Over environments that bring no certificates of their own: from a start without a certificate, some
      run leads to a stale one if and only if the CSR may be deleted and a CSR can be made in the first
      place. */
  lemma StaleNeedsDeletion(s0: System, mayDelete: bool)
    requires Initial(s0) && NoCertificate(s0.world)
    ensures (exists actions :: Clean(actions) && (mayDelete || KeepsCsr(actions)) && Stale(Run(s0, actions).world))
            <==> mayDelete && CanIssue(s0.world)
  {
    if mayDelete && CanIssue(s0.world) {
      SecretMayHoldStaleCertificate(s0);
      var t := Regenerated(Interrupted(Certificated(Cleared(s0))));
      var actions :| BringNothing(actions) && Run(s0, actions) == t;
      assert Clean(actions);
    } else {
      forall actions | Clean(actions) && (mayDelete || KeepsCsr(actions)) ensures !Stale(Run(s0, actions).world) {
        if KeepsCsr(actions) {
          NoDeletionNoStaleCertificate(s0, actions);
        } else {
          NeverFinishesWithoutIssue(s0, []);
          BlockedStaysBarren(s0, actions);
        }
      }
    }
  }
}
