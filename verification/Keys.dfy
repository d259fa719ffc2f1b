/** Which key pairs a kubeconfig is made with. Whatever keys somebody plants in its secret, the operator
    overwrites them before it asks for a certificate. */
module Keys {
  import opened Credentials
  import opened Conditions
  import opened Objects
  import opened Protocol
  import opened Safety

  predicate IsKey(bytes: Bytes, k: nat) {
    bytes.KeyPem? && bytes.key == k
  }

  predicate AsksFor(request: Bytes, k: nat) {
    request.RequestPem? && request.request.key == k
  }

  /** The kubeconfig is in the secret, and only the end is missing. */
  predicate IsEnding(worker: Worker) {
    || worker.GetCrb? || worker.CreateCrb?
    || (worker.Commit? && worker.kubeconfig.status.Is(KubeconfigFinished, True))
  }

  /** The key pair `k` is on its way into a kubeconfig, or in it: in the CSR, in what the worker is about to
      write, or in the secret once that is complete. */
  predicate Uses(s: System, k: nat) {
    || (s.world.csr.Some? && AsksFor(s.world.csr.value.request, k))
    || ((s.worker.WriteKeys? || s.worker.GetRootCa? || s.worker.WriteKubeconfig?) && IsKey(s.worker.secret.tlsKey, k))
    || (s.worker.CreateCsr? && AsksFor(s.worker.request, k))
    || ((IsEnding(s.worker) || s.world.kubeconfig.status.Is(KubeconfigFinished, True))
        && s.world.secret.Some? && IsKey(s.world.secret.value.tlsKey, k))
  }

  /** A key pair that a step puts to use was generated by that step. */
  lemma UsedKeysAreFresh(s: System, a: Action, k: nat)
    requires Inv(s) && Uses(Apply(s, a), k)
    ensures Uses(s, k) || s.world.keys <= k < Apply(s, a).world.keys
  {
    match a
    case Work(outcome) => WorkUsesFreshKeys(s, outcome, k);
    case Outside(o) => OutsideStepEffect(s.world, s.approver, o);
    case _ =>
  }

  lemma WorkUsesFreshKeys(s: System, outcome: Outcome, k: nat)
    requires Inv(s) && Uses(Apply(s, Work(outcome)), k)
    ensures Uses(s, k) || s.world.keys <= k < Apply(s, Work(outcome)).world.keys
  {
    if s.worker.GetCsr? {
      ReadCsrUsesFreshKeys(s, outcome, k);
    } else if s.worker.WriteKeys? || s.worker.CreateCsr? || s.worker.WriteKubeconfig? {
      WriteUsesFreshKeys(s, outcome, k);
    } else {
      OtherCallUsesFreshKeys(s, outcome, k);
    }
  }

  lemma ReadCsrUsesFreshKeys(s: System, outcome: Outcome, k: nat)
    requires Inv(s) && s.worker.GetCsr? && Uses(Apply(s, Work(outcome)), k)
    ensures Uses(s, k) || s.world.keys <= k < Apply(s, Work(outcome)).world.keys
  {
  }

  lemma WriteUsesFreshKeys(s: System, outcome: Outcome, k: nat)
    requires Inv(s) && (s.worker.WriteKeys? || s.worker.CreateCsr? || s.worker.WriteKubeconfig?)
    requires Uses(Apply(s, Work(outcome)), k)
    ensures Uses(s, k)
  {
  }

  lemma OtherCallUsesFreshKeys(s: System, outcome: Outcome, k: nat)
    requires Inv(s) && !s.worker.GetCsr? && !s.worker.WriteKeys? && !s.worker.CreateCsr? && !s.worker.WriteKubeconfig?
    requires Uses(Apply(s, Work(outcome)), k)
    ensures Uses(s, k)
  {
  }

  lemma NothingIsUsedAtFirst(s: System, k: nat)
    requires Initial(s)
    ensures !Uses(s, k)
  {
  }

  lemma KeysAreCounted(s: System, a: Action)
    ensures s.world.keys <= Apply(s, a).world.keys
  {
  }

  lemma {:induction false} UsedKeysAreGenerated(s0: System, actions: seq<Action>, k: nat)
    requires Initial(s0)
    ensures Inv(Run(s0, actions)) && s0.world.keys <= Run(s0, actions).world.keys
    ensures Uses(Run(s0, actions), k) ==> s0.world.keys <= k < Run(s0, actions).world.keys
  {
    InitialInv(s0);
    RunKeepsInv(s0, actions);
    if actions == [] {
      NothingIsUsedAtFirst(s0, k);
    } else {
      var n := |actions| - 1;
      UsedKeysAreGenerated(s0, actions[..n], k);
      KeysAreCounted(Run(s0, actions[..n]), actions[n]);
      if Uses(Run(s0, actions), k) {
        UsedKeysAreFresh(Run(s0, actions[..n]), actions[n], k);
      }
    }
  }

  lemma FinishedUsesItsKey(s: System)
    requires Inv(s) && s.world.kubeconfig.status.Is(KubeconfigFinished, True)
    ensures s.world.secret.Some?
    ensures var secret := s.world.secret.value;
      && secret.tlsKey.KeyPem? && Uses(s, secret.tlsKey.key)
      && secret.tlsCrt.Certificate? && secret.tlsCrt.request.key == secret.tlsKey.key
  {
  }

  /** The key of a finished kubeconfig was generated on the way there: it is none that was in the secret at
      the start, or that somebody put there. */
  lemma FinishedKeyIsFresh(s0: System, actions: seq<Action>)
    requires Initial(s0) && Run(s0, actions).world.kubeconfig.status.Is(KubeconfigFinished, True)
    ensures var w := Run(s0, actions).world;
      w.secret.Some? && w.secret.value.tlsKey.KeyPem? && s0.world.keys <= w.secret.value.tlsKey.key < w.keys
  {
    InitialInv(s0);
    RunKeepsInv(s0, actions);
    FinishedUsesItsKey(Run(s0, actions));
    UsedKeysAreGenerated(s0, actions, Run(s0, actions).world.secret.value.tlsKey.key);
  }
}
