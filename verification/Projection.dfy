/** The world of one kubeconfig inside the API server, and the proof that a call made under a computed name
    is a step of the protocol on that world. */
module Projection {
  import opened Wrappers
  import opened Credentials
  import opened Objects
  import opened Acceptance
  import opened Resources
  import opened Protocol
  import opened Calls

  function Placed<V>(m: map<string, V>, name: string, v: Option<V>): map<string, V> {
    if v.Some? then m[name := v.value] else m - {name}
  }

  /** The world of one kubeconfig: the objects under its derived names. */
  function View(f: Fleet, n: string): System
    requires f.Valid() && n in f.specs
  {
    var spec, o := f.specs[n], f.store;
    System(World(n, spec, o.kubeconfigs[n], Lookup(o.secrets, SecretName(n)), Lookup(o.csrs, n),
                 Lookup(o.crbs, BindingName(spec.username)), o.rootCa, o.revision, f.keys),
           f.workers[n], f.approvers[n])
  }

  /** The store with the world of one kubeconfig put in its place. */
  function PutWorld(o: Store, w: World): Store {
    Store(o.kubeconfigs[w.name := w.kubeconfig],
          Placed(o.secrets, SecretName(w.name), w.secret),
          Placed(o.csrs, w.name, w.csr),
          Placed(o.crbs, BindingName(w.spec.username), w.crb),
          w.rootCa, w.revision)
  }

  function Put(f: Fleet, n: string, s: System): Fleet
    requires f.Valid() && n in f.specs
  {
    f.(store := PutWorld(f.store, s.world),
       workers := f.workers[n := s.worker], approvers := f.approvers[n := s.approver], keys := s.world.keys)
  }

  // ----- calls by name are steps of the protocol

  /** Putting back what is there changes nothing. */
  lemma PlacedBack<V>(m: map<string, V>, name: string)
    ensures Placed(m, name, Lookup(m, name)) == m
  {
  }

  lemma PutBack<V>(m: map<string, V>, name: string)
    requires name in m
    ensures m[name := m[name]] == m
  {
  }

  lemma ViewPutBack(f: Fleet, n: string)
    requires f.Valid() && n in f.specs
    ensures PutWorld(f.store, View(f, n).world) == f.store
    ensures f.workers[n := f.workers[n]] == f.workers && f.approvers[n := f.approvers[n]] == f.approvers
  {
    PutBack(f.store.kubeconfigs, n);
    PlacedBack(f.store.secrets, SecretName(n));
    PlacedBack(f.store.csrs, n);
    PlacedBack(f.store.crbs, BindingName(f.specs[n].username));
    PutBack(f.workers, n);
    PutBack(f.approvers, n);
  }

  lemma PutKubeconfigOnly(f: Fleet, n: string, k: Kubeconfig, revision: nat)
    requires f.Valid() && n in f.specs
    ensures PutWorld(f.store, View(f, n).world.(kubeconfig := k, revision := revision)) ==
            f.store.(kubeconfigs := f.store.kubeconfigs[n := k], revision := revision)
  {
    ViewPutBack(f, n);
  }

  lemma PutSecretOnly(f: Fleet, n: string, secret: Secret, revision: nat)
    requires f.Valid() && n in f.specs
    ensures PutWorld(f.store, View(f, n).world.(secret := Some(secret), revision := revision)) ==
            f.store.(secrets := f.store.secrets[SecretName(n) := secret], revision := revision)
  {
    ViewPutBack(f, n);
  }

  lemma PutCsrOnly(f: Fleet, n: string, csr: Csr, revision: nat)
    requires f.Valid() && n in f.specs
    ensures PutWorld(f.store, View(f, n).world.(csr := Some(csr), revision := revision)) ==
            f.store.(csrs := f.store.csrs[n := csr], revision := revision)
  {
    ViewPutBack(f, n);
  }

  lemma PutCrbOnly(f: Fleet, n: string, crb: ClusterRoleBinding, revision: nat)
    requires f.Valid() && n in f.specs
    ensures PutWorld(f.store, View(f, n).world.(crb := Some(crb), revision := revision)) ==
            f.store.(crbs := f.store.crbs[BindingName(f.specs[n].username) := crb], revision := revision)
  {
    ViewPutBack(f, n);
  }

  predicate Writes(worker: Worker) {
    worker.CreateSecret? || worker.WriteKeys? || worker.CreateCsr? || worker.WriteKubeconfig? || worker.CreateCrb?
    || worker.Commit?
  }

  /** What the server makes of the worker's next call is what the protocol makes of its world. */
  ghost predicate Follows(f: Fleet, n: string, outcome: Outcome)
    requires f.Valid() && n in f.specs
  {
    Serve(f.store, NextCall(n, f.specs[n], f.workers[n]), outcome).0 ==
      PutWorld(f.store, WorkStep(View(f, n).world, f.workers[n], outcome).0)
  }

  lemma ReadFollows(f: Fleet, n: string, outcome: Outcome)
    requires f.Valid() && n in f.specs && !Writes(f.workers[n])
    ensures Follows(f, n, outcome)
  {
    ViewPutBack(f, n);
  }

  lemma AddSecretIsCreate(f: Fleet, n: string)
    requires f.Valid() && n in f.specs
    ensures var call := AddSecret(SecretName(n), LabelsForSubresources(n, f.specs[n]), NewUserSecret(0));
      Serve(f.store, call, Served).0 == PutWorld(f.store, CreateSecretIn(View(f, n).world))
  {
    ViewPutBack(f, n);
    var version := f.store.revision + 1;
    PutSecretOnly(f, n, NewUserSecret(version), version);
  }

  lemma AddSecretFollows(f: Fleet, n: string, outcome: Outcome)
    requires f.Valid() && n in f.specs && f.workers[n].CreateSecret?
    ensures Follows(f, n, outcome)
  {
    ViewPutBack(f, n);
    AddSecretIsCreate(f, n);
  }

  lemma WriteSecretFollows(f: Fleet, n: string, outcome: Outcome)
    requires f.Valid() && n in f.specs && (f.workers[n].WriteKeys? || f.workers[n].WriteKubeconfig?)
    ensures Follows(f, n, outcome)
  {
    ViewPutBack(f, n);
    var version := f.store.revision + 1;
    PutSecretOnly(f, n, Secret(version, false, f.workers[n].secret.data), version);
  }

  lemma CsrCallFollows(f: Fleet, n: string, outcome: Outcome)
    requires f.Valid() && n in f.specs && f.workers[n].CreateCsr?
    ensures Follows(f, n, outcome)
  {
    ViewPutBack(f, n);
    var version := f.store.revision + 1;
    PutCsrOnly(f, n, NewCsr(n, f.specs[n], f.workers[n].request, version), version);
  }

  lemma BindingCallFollows(f: Fleet, n: string, outcome: Outcome)
    requires f.Valid() && n in f.specs && f.workers[n].CreateCrb?
    ensures Follows(f, n, outcome)
  {
    ViewPutBack(f, n);
    PutCrbOnly(f, n, NewClusterRoleBinding(f.specs[n]), f.store.revision + 1);
  }

  lemma StatusCallFollows(f: Fleet, n: string, outcome: Outcome)
    requires f.Valid() && n in f.specs && f.workers[n].Commit?
    ensures Follows(f, n, outcome)
  {
    ViewPutBack(f, n);
    var version := f.store.revision + 1;
    PutKubeconfigOnly(f, n, Kubeconfig(version, f.workers[n].kubeconfig.status), version);
  }

  lemma StoreFollows(f: Fleet, n: string, outcome: Outcome)
    requires f.Valid() && n in f.specs
    ensures Follows(f, n, outcome)
  {
    var worker := f.workers[n];
    if worker.CreateSecret? {
      AddSecretFollows(f, n, outcome);
    } else if worker.WriteKeys? || worker.WriteKubeconfig? {
      WriteSecretFollows(f, n, outcome);
    } else if worker.CreateCsr? {
      CsrCallFollows(f, n, outcome);
    } else if worker.CreateCrb? {
      BindingCallFollows(f, n, outcome);
    } else if worker.Commit? {
      StatusCallFollows(f, n, outcome);
    } else {
      ReadFollows(f, n, outcome);
    }
  }

  /** The reply is all the worker needs to go on as in the protocol. */
  ghost predicate Decides(f: Fleet, n: string, outcome: Outcome)
    requires f.Valid() && n in f.specs
  {
    var (w, worker) := WorkStep(View(f, n).world, f.workers[n], outcome);
    Continue(n, f.specs[n], f.keys, f.workers[n],
             Serve(f.store, NextCall(n, f.specs[n], f.workers[n]), outcome).1) == (w.keys, worker)
  }

  lemma WriteReplyDecides(f: Fleet, n: string, outcome: Outcome)
    requires f.Valid() && n in f.specs && Writes(f.workers[n])
    ensures Decides(f, n, outcome)
  {
  }

  lemma ReadReplyDecides(f: Fleet, n: string, outcome: Outcome)
    requires f.Valid() && n in f.specs && !Writes(f.workers[n])
    ensures Decides(f, n, outcome)
  {
  }

  lemma WorkNamedIsStep(f: Fleet, n: string, outcome: Outcome)
    requires f.Valid() && n in f.specs
    ensures WorkNamed(f, n, outcome) == Put(f, n, Apply(View(f, n), Work(outcome)))
  {
    ViewPutBack(f, n);
    StoreFollows(f, n, outcome);
    if Writes(f.workers[n]) {
      WriteReplyDecides(f, n, outcome);
    } else {
      ReadReplyDecides(f, n, outcome);
    }
  }

  lemma ApproverStoreFollows(f: Fleet, n: string, outcome: Outcome)
    requires f.Valid() && n in f.specs
    ensures Serve(f.store, NextApproverCall(n, f.approvers[n]), outcome).0 ==
            PutWorld(f.store, ApproverWork(View(f, n).world, f.approvers[n], outcome).0)
  {
    ViewPutBack(f, n);
    var w, version := View(f, n).world, f.store.revision + 1;
    if w.csr.Some? {
      match f.approvers[n]
      case WritingApproval(csr) =>
        PutCsrOnly(f, n, w.csr.value.(flags := ApprovedCopy(csr), version := version), version);
      case WritingStatus(_, flags) =>
        PutCsrOnly(f, n, w.csr.value.(flags := flags, version := version), version);
      case _ =>
    }
  }

  lemma ApproverReplyDecides(f: Fleet, n: string, outcome: Outcome)
    requires f.Valid() && n in f.specs
    ensures var (w, approver) := ApproverWork(View(f, n).world, f.approvers[n], outcome);
      && w.keys == f.keys
      && ApproverContinue(f.approvers[n], Serve(f.store, NextApproverCall(n, f.approvers[n]), outcome).1) == approver
  {
  }

  lemma ApproverNamedIsStep(f: Fleet, n: string, outcome: Outcome)
    requires f.Valid() && n in f.specs
    ensures ApproverNamed(f, n, outcome) == Put(f, n, Apply(View(f, n), Outside(ApproverStep(outcome))))
  {
    ViewPutBack(f, n);
    ApproverStoreFollows(f, n, outcome);
    ApproverReplyDecides(f, n, outcome);
  }

  /** The people and the signer, who act on the CSR. */
  lemma EditIsStep(f: Fleet, n: string, a: OutsideAction)
    requires f.Valid() && n in f.specs
    requires a.HumanApprove? || a.HumanDeny? || a.SignCsr? || a.FailCsr? || a.EditCsr?
    ensures OthersAct(f.store, n, f.specs[n].username, a) ==
            PutWorld(f.store, OutsideStep(View(f, n).world, f.approvers[n], a).0)
  {
    ViewPutBack(f, n);
    var w, version := View(f, n).world, f.store.revision + 1;
    if w.csr.Some? && Edited(w.csr.value, a).Some? {
      PutCsrOnly(f, n, Edited(w.csr.value, a).value.(version := version), version);
    }
  }

  lemma DeleteIsStep(f: Fleet, n: string)
    requires f.Valid() && n in f.specs
    ensures PutWorld(f.store, View(f, n).world.(csr := None)) == f.store.(csrs := f.store.csrs - {n})
  {
    ViewPutBack(f, n);
  }

  lemma PublishIsStep(f: Fleet, n: string, rootCa: Option<Bytes>)
    requires f.Valid() && n in f.specs
    ensures PutWorld(f.store, View(f, n).world.(rootCa := rootCa)) == f.store.(rootCa := rootCa)
  {
    ViewPutBack(f, n);
  }

  lemma AddForeignIsStep(f: Fleet, n: string, a: OutsideAction)
    requires f.Valid() && n in f.specs && (a.PutSecret? || a.PutCrb?)
    ensures OthersAct(f.store, n, f.specs[n].username, a) ==
            PutWorld(f.store, OutsideStep(View(f, n).world, f.approvers[n], a).0)
  {
    ViewPutBack(f, n);
    var version := f.store.revision + 1;
    if a.PutSecret? {
      PutSecretOnly(f, n, Secret(version, a.immutable, a.data), version);
    } else {
      PutCrbOnly(f, n, a.crb, version);
    }
  }

  /** Everybody else. */
  lemma OthersActIsStep(f: Fleet, n: string, a: OutsideAction)
    requires f.Valid() && n in f.specs
    requires !a.StartApprover? && !a.ApproverStep? && !a.CrashApprover? && !a.Elsewhere?
    ensures OthersAct(f.store, n, f.specs[n].username, a) ==
            PutWorld(f.store, OutsideStep(View(f, n).world, f.approvers[n], a).0)
  {
    ViewPutBack(f, n);
    var w, version := View(f, n).world, f.store.revision + 1;
    match a
    case DeleteCsr => DeleteIsStep(f, n);
    case SetRootCa(rootCa) => PublishIsStep(f, n, rootCa);
    case TouchKubeconfig => PutKubeconfigOnly(f, n, w.kubeconfig.(version := version), version);
    case PutSecret(_, _) => AddForeignIsStep(f, n, a);
    case PutCrb(_) => AddForeignIsStep(f, n, a);
    case _ => EditIsStep(f, n, a);
  }

  lemma OthersKeepTheRest(w: World, approver: Approver, a: OutsideAction)
    requires !a.StartApprover? && !a.ApproverStep? && !a.CrashApprover? && !a.Elsewhere?
    ensures var (w', approver') := OutsideStep(w, approver, a); w'.keys == w.keys && approver' == approver
  {
  }

  /** Counters are no part of anybody's objects. */
  lemma ElsewhereIsStep(f: Fleet, n: string, writes: nat, newKeys: nat)
    requires f.Valid() && n in f.specs
    ensures OutsideNamed(f, n, Elsewhere(writes, newKeys)) ==
            Put(f, n, Apply(View(f, n), Outside(Elsewhere(writes, newKeys))))
  {
    ViewPutBack(f, n);
  }

  lemma PeopleNamedIsStep(f: Fleet, n: string, a: OutsideAction)
    requires f.Valid() && n in f.specs
    requires !a.StartApprover? && !a.ApproverStep? && !a.CrashApprover? && !a.Elsewhere?
    ensures OutsideNamed(f, n, a) == Put(f, n, Apply(View(f, n), Outside(a)))
  {
    ViewPutBack(f, n);
    OthersActIsStep(f, n, a);
    OthersKeepTheRest(View(f, n).world, f.approvers[n], a);
    assert OutsideNamed(f, n, a) == f.(store := OthersAct(f.store, n, f.specs[n].username, a));
  }

  lemma OutsideNamedIsStep(f: Fleet, n: string, a: OutsideAction)
    requires f.Valid() && n in f.specs
    ensures OutsideNamed(f, n, a) == Put(f, n, Apply(View(f, n), Outside(a)))
  {
    match a
    case StartApprover => ViewPutBack(f, n);
    case CrashApprover => ViewPutBack(f, n);
    case ApproverStep(outcome) => ApproverNamedIsStep(f, n, outcome);
    case Elsewhere(writes, newKeys) => ElsewhereIsStep(f, n, writes, newKeys);
    case _ => PeopleNamedIsStep(f, n, a);
  }

  /** A step of the fleet, call by call under computed names, is the step of the protocol on the world that
      those names make up. */
  lemma StepIsApply(f: Fleet, n: string, a: Action)
    requires f.Valid() && n in f.specs
    ensures Step(f, n, a) == Put(f, n, Apply(View(f, n), a))
  {
    ViewPutBack(f, n);
    match a
    case Start =>
    case Crash =>
    case Work(outcome) => WorkNamedIsStep(f, n, outcome);
    case Outside(o) => OutsideNamedIsStep(f, n, o);
  }
}
