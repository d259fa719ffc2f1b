/** Many kubeconfigs in one API server. Every object is found under a name derived from the kubeconfig,
    and this is what keeps the protocols of different kubeconfigs apart; only the binding is shared by the
    kubeconfigs of one username. */
module FleetRuns {
  import opened Wrappers
  import opened Conditions
  import opened Objects
  import opened Acceptance
  import opened Protocol
  import opened Safety
  import opened Keys
  import opened Calls
  import opened Projection

  // ----- derived names

  lemma SuffixIsInjective(a: string, b: string, suffix: string)
    ensures a + suffix == b + suffix <==> a == b
  {
    if a + suffix == b + suffix {
      assert |a| == |b|;
      assert a == (a + suffix)[..|a|] == (b + suffix)[..|b|] == b;
    }
  }

  /** Different kubeconfigs have different secrets and CSRs, and bindings differ as the usernames do. */
  lemma DerivedNamesAreInjective(m: string, n: string, u: string, v: string)
    ensures SecretName(m) == SecretName(n) <==> m == n
    ensures BindingName(u) == BindingName(v) <==> u == v
  {
    SuffixIsInjective(m, n, "-client-cert");
    SuffixIsInjective(u, v, "-kubeconfig");
  }

  // ----- one step

  lemma CountersOnlyGrow(s: System, a: Action)
    ensures Apply(s, a).world.revision >= s.world.revision && Apply(s, a).world.keys >= s.world.keys
    ensures Apply(s, a).world.rootCa == s.world.rootCa || (a.Outside? && a.action.SetRootCa?)
    ensures Apply(s, a).world.name == s.world.name && Apply(s, a).world.spec == s.world.spec
  {
  }

  /** A step that makes a binding appear does nothing else to what is shared. */
  lemma BindingIsOneWrite(s: System, a: Action)
    ensures var v, w := s.world, Apply(s, a).world;
      && (v.crb.Some? || (a.Outside? && a.action.SetRootCa?) ==> w.crb == v.crb)
      && (v.crb.None? && w.crb.Some? ==> w.rootCa == v.rootCa && w.revision == v.revision + 1 && w.keys == v.keys)
  {
  }

  /** How a step taken in `s` looks from another kubeconfig: it publishes the CA, which is common to all;
      it puts a binding there, if that is for the same username; or it only moves the counters. */
  function Echo(s: System, a: Action, username: string): Action {
    var w := Apply(s, a).world;
    if a.Outside? && a.action.SetRootCa? then a
    else if username == s.world.spec.username && s.world.crb.None? && w.crb.Some? then Outside(PutCrb(w.crb.value))
    else
      CountersOnlyGrow(s, a);
      Outside(Elsewhere(w.revision - s.world.revision, w.keys - s.world.keys))
  }

  /** The state `s` with the parts that its world shares with the world `w`. */
  function Sharing(s: System, w: World): System {
    s.(world := s.world.(rootCa := w.rootCa, revision := w.revision, keys := w.keys,
                         crb := if s.world.spec.username == w.spec.username then w.crb else s.world.crb))
  }

  lemma EchoSharesStep(s: System, a: Action, other: System)
    requires Sharing(other, s.world) == other
    ensures Apply(other, Echo(s, a, other.world.spec.username)) == Sharing(other, Apply(s, a).world)
  {
    CountersOnlyGrow(s, a);
    BindingIsOneWrite(s, a);
  }

  lemma StepOfItself(f: Fleet, n: string, a: Action)
    requires f.Valid() && n in f.specs
    ensures View(Step(f, n, a), n) == Apply(View(f, n), a)
  {
    StepIsApply(f, n, a);
    CountersOnlyGrow(View(f, n), a);
  }

  lemma PutShowsShared(f: Fleet, m: string, n: string, s: System)
    requires f.Valid() && m in f.specs && n in f.specs && m != n
    requires s.world.name == m && s.world.spec == f.specs[m]
    ensures View(Put(f, m, s), n) == Sharing(View(f, n), s.world)
  {
    DerivedNamesAreInjective(m, n, f.specs[m].username, f.specs[n].username);
  }

  lemma StepShowsShared(f: Fleet, m: string, n: string, a: Action)
    requires f.Valid() && m in f.specs && n in f.specs && m != n
    ensures View(Step(f, m, a), n) == Sharing(View(f, n), Apply(View(f, m), a).world)
  {
    StepIsApply(f, m, a);
    CountersOnlyGrow(View(f, m), a);
    PutShowsShared(f, m, n, Apply(View(f, m), a));
  }

  lemma StepOfAnother(f: Fleet, m: string, n: string, a: Action)
    requires f.Valid() && m in f.specs && n in f.specs && m != n
    ensures View(Step(f, m, a), n) == Apply(View(f, n), Echo(View(f, m), a, f.specs[n].username))
  {
    StepShowsShared(f, m, n, a);
    EchoSharesStep(View(f, m), a, View(f, n));
  }

  /** Two kubeconfigs for one username share the binding: whichever comes first creates it with its own
      role, and the other finds it. */
  lemma SharedUsernameSharesBinding(f: Fleet, m: string, n: string)
    requires f.Valid() && m in f.specs && n in f.specs && m != n
    requires f.workers[m].CreateCrb? && View(f, m).world.crb.None? && BindingAccepted(m, f.specs[m])
    ensures var t := View(Step(f, m, Work(Served)), n).world;
      if f.specs[m].username == f.specs[n].username
      then
        && t.crb.Some? && t.crb.value.subject == f.specs[n].username
        && GrantsRole(t.crb.value, f.specs[m].roleRef.value)
      else t.crb == View(f, n).world.crb
  {
    StepShowsShared(f, m, n, Work(Served));
    CreatedBinding(View(f, m));
  }

  lemma CreatedBinding(s: System)
    requires s.worker.CreateCrb? && CrbCreateAccepted(s.world)
    ensures Apply(s, Work(Served)).world.crb == Some(NewClusterRoleBinding(s.world.spec))
    ensures Apply(s, Work(Served)).world.spec == s.world.spec
  {
  }

  // ----- whole runs

  datatype Event = Event(name: string, action: Action)

  ghost predicate Known(f: Fleet, events: seq<Event>) {
    forall i :: 0 <= i < |events| ==> events[i].name in f.specs
  }

  function RunAll(f: Fleet, events: seq<Event>): (g: Fleet)
    requires f.Valid() && Known(f, events)
    ensures g.Valid() && g.specs == f.specs
  {
    if events == [] then f else
      var n := |events| - 1;
      Step(RunAll(f, events[..n]), events[n].name, events[n].action)
  }

  /** An event as one kubeconfig sees it: its own step, or the echo of another's. */
  function Seen(f: Fleet, e: Event, n: string): Action
    requires f.Valid() && e.name in f.specs && n in f.specs
  {
    if e.name == n then e.action else Echo(View(f, e.name), e.action, f.specs[n].username)
  }

  lemma EventProjects(f: Fleet, e: Event, n: string)
    requires f.Valid() && e.name in f.specs && n in f.specs
    ensures View(Step(f, e.name, e.action), n) == Apply(View(f, n), Seen(f, e, n))
  {
    if e.name == n {
      StepOfItself(f, n, e.action);
    } else {
      StepOfAnother(f, e.name, n, e.action);
    }
  }

  function Project(f: Fleet, events: seq<Event>, n: string): seq<Action>
    requires f.Valid() && Known(f, events) && n in f.specs
  {
    if events == [] then [] else
      var k := |events| - 1;
      Project(f, events[..k], n) + [Seen(RunAll(f, events[..k]), events[k], n)]
  }

  /** Any interleaving of any number of kubeconfigs is, for each of them, a run of its own protocol. */
  lemma {:induction false} FleetRunsProject(f: Fleet, events: seq<Event>, n: string)
    requires f.Valid() && Known(f, events) && n in f.specs
    ensures View(RunAll(f, events), n) == Run(View(f, n), Project(f, events, n))
  {
    if events != [] {
      var k := |events| - 1;
      var g, last := RunAll(f, events[..k]), events[k];
      FleetRunsProject(f, events[..k], n);
      EventProjects(g, last, n);
      RunAppend(View(f, n), Project(f, events[..k], n), Seen(g, last, n));
    }
  }

  ghost predicate AllInitial(f: Fleet)
    requires f.Valid()
  {
    forall n :: n in f.specs ==> Initial(View(f, n))
  }

  /** So the invariant holds of all kubeconfigs at once, in every reachable state of the fleet. */
  lemma InvariantLifts(f: Fleet, events: seq<Event>)
    requires f.Valid() && Known(f, events)
    requires AllInitial(f)
    ensures forall n :: n in f.specs ==> Inv(View(RunAll(f, events), n))
  {
    forall n | n in f.specs ensures Inv(View(RunAll(f, events), n)) {
      FleetRunsProject(f, events, n);
      InitialInv(View(f, n));
      RunKeepsInv(View(f, n), Project(f, events, n));
    }
  }

  /** And so do the main results, here the strongest: in any fleet, every kubeconfig that is reported
      finished gives access with a certificate that was signed for its own key in the name of its user. */
  lemma FinishedIsSoundInFleet(f: Fleet, events: seq<Event>, n: string)
    requires f.Valid() && Known(f, events) && n in f.specs && Initial(View(f, n))
    requires View(RunAll(f, events), n).world.kubeconfig.status.Is(KubeconfigFinished, True)
    ensures var w := View(RunAll(f, events), n).world; w.spec == f.specs[n] && GivesAccess(w)
  {
    FleetRunsProject(f, events, n);
    FinishedIsSound(View(f, n), Project(f, events, n));
  }

  // ----- whose binding it is

  /** Who brought the binding that the kubeconfig `n` finds under its name. */
  datatype Origin = Nobody | SomebodyElse(crb: ClusterRoleBinding) | Operator(name: string)

  function OriginOf(f: Fleet, events: seq<Event>, n: string): Origin
    requires f.Valid() && Known(f, events) && n in f.specs
  {
    if events == [] then
      match View(f, n).world.crb
      case None => Nobody
      case Some(crb) => SomebodyElse(crb)
    else
      var k := |events| - 1;
      var g, last := RunAll(f, events[..k]), events[k];
      if View(g, n).world.crb.Some? then OriginOf(f, events[..k], n)
      else if View(Step(g, last.name, last.action), n).world.crb.None? then Nobody
      else match ForeignBindingOf(last.action)
        case Some(crb) => SomebodyElse(crb)
        case None => Operator(last.name)
  }

  /** The binding as its origin says: of the operator's, each is made for a kubeconfig of this username and
      has that kubeconfig's role. */
  predicate IsFrom(f: Fleet, n: string, crb: Option<ClusterRoleBinding>, origin: Origin)
    requires n in f.specs
  {
    match origin
    case Nobody => crb.None?
    case SomebodyElse(other) => crb == Some(other)
    case Operator(m) =>
      && m in f.specs && f.specs[m].username == f.specs[n].username && BindingAccepted(m, f.specs[m])
      && crb == Some(NewClusterRoleBinding(f.specs[m]))
  }

  lemma AppearsFrom(f: Fleet, e: Event, n: string)
    requires f.Valid() && e.name in f.specs && n in f.specs
    requires View(f, n).world.crb.None? && View(Step(f, e.name, e.action), n).world.crb.Some?
    ensures IsFrom(f, n, View(Step(f, e.name, e.action), n).world.crb,
                   match ForeignBindingOf(e.action) case Some(crb) => SomebodyElse(crb) case None => Operator(e.name))
  {
    BindingStep(View(f, e.name), e.action);
    if e.name == n {
      StepOfItself(f, n, e.action);
    } else {
      StepShowsShared(f, e.name, n, e.action);
    }
  }

  lemma {:induction false} BindingIsFromItsOrigin(f: Fleet, events: seq<Event>, n: string)
    requires f.Valid() && Known(f, events) && n in f.specs
    ensures IsFrom(f, n, View(RunAll(f, events), n).world.crb, OriginOf(f, events, n))
  {
    if events != [] {
      var k := |events| - 1;
      var g, last := RunAll(f, events[..k]), events[k];
      BindingIsFromItsOrigin(f, events[..k], n);
      if View(g, n).world.crb.Some? {
        EventProjects(g, last, n);
        BindingStep(View(g, n), Seen(g, last, n));
      } else if View(Step(g, last.name, last.action), n).world.crb.Some? {
        AppearsFrom(g, last, n);
      }
    }
  }

  /** In any fleet, a finished kubeconfig has a binding. It grants the kubeconfig's own role exactly when
      the first to put a binding under the name of the user brought this role: nobody else with another
      one, and the operator not on behalf of another kubeconfig of the same username with another one. It
      names the user unless it came from somebody else who named another. */
  lemma FinishedHasBindingInFleet(f: Fleet, events: seq<Event>, n: string)
    requires f.Valid() && Known(f, events) && n in f.specs && Initial(View(f, n))
    requires View(RunAll(f, events), n).world.kubeconfig.status.Is(KubeconfigFinished, True)
    ensures var crb, origin, spec := View(RunAll(f, events), n).world.crb, OriginOf(f, events, n), f.specs[n];
      && crb.Some? && !origin.Nobody? && (origin.Operator? ==> origin.name in f.specs)
      && (origin.Operator? ==> GrantsRole(crb.value, f.specs[origin.name].roleRef.value))
      && (GrantsRole(crb.value, spec.roleRef.value) <==>
            match origin
            case SomebodyElse(other) => GrantsRole(other, spec.roleRef.value)
            case Operator(m) => SameRole(f.specs[m].roleRef.value, spec.roleRef.value))
      && (crb.value.subject == spec.username <==>
            origin.Operator? || origin.crb.subject == spec.username)
  {
    FleetRunsProject(f, events, n);
    InitialInv(View(f, n));
    RunKeepsInv(View(f, n), Project(f, events, n));
    BindingIsFromItsOrigin(f, events, n);
    OriginDecides(f, n, View(RunAll(f, events), n).world.crb, OriginOf(f, events, n));
  }

  lemma OriginDecides(f: Fleet, n: string, crb: Option<ClusterRoleBinding>, origin: Origin)
    requires n in f.specs && crb.Some? && IsFrom(f, n, crb, origin)
    ensures var spec := f.specs[n];
      && !origin.Nobody? && (origin.Operator? ==> origin.name in f.specs)
      && (origin.Operator? ==> GrantsRole(crb.value, f.specs[origin.name].roleRef.value))
      && (GrantsRole(crb.value, spec.roleRef.value) <==>
            match origin
            case SomebodyElse(other) => GrantsRole(other, spec.roleRef.value)
            case Operator(m) => SameRole(f.specs[m].roleRef.value, spec.roleRef.value))
      && (crb.value.subject == spec.username <==> origin.Operator? || origin.crb.subject == spec.username)
  {
    if origin.Operator? {
      NewBindingGrants(f.specs[origin.name], f.specs[n].roleRef.value);
    }
  }

  // ----- no key pair is shared

  /** The key pair `k` is in the stored secret, or in the copy the worker is about to write. */
  predicate Holds(s: System, k: nat) {
    (s.world.secret.Some? && IsKey(s.world.secret.value.tlsKey, k))
    || ((s.worker.GetCsr? || s.worker.WriteKeys? || s.worker.GetRootCa? || s.worker.WriteKubeconfig?)
        && IsKey(s.worker.secret.tlsKey, k))
  }

  /** Whoever puts a secret under a derived name does not put somebody's key into it. */
  predicate BringsNoKey(a: Action) {
    a.Outside? && a.action.PutSecret? && a.action.data.Some? ==> !a.action.data.value.tlsKey.KeyPem?
  }

  ghost predicate NoForeignKeys(events: seq<Event>) {
    forall i :: 0 <= i < |events| ==> BringsNoKey(events[i].action)
  }

  /** A key pair that a step brings in was generated by that step. */
  lemma NewKeysAreFresh(s: System, a: Action, k: nat)
    requires Holds(Apply(s, a), k) && BringsNoKey(a)
    ensures Holds(s, k) || s.world.keys <= k < Apply(s, a).world.keys
  {
    match a
    case Work(outcome) =>
    case Outside(o) =>
    case _ =>
  }

  ghost predicate KeysApart(f: Fleet)
    requires f.Valid()
  {
    && (forall n, k: nat {:trigger Holds(View(f, n), k)} :: n in f.specs && Holds(View(f, n), k) ==> k < f.keys)
    && (forall m, n, k: nat {:trigger Holds(View(f, m), k), Holds(View(f, n), k)} ::
          m in f.specs && n in f.specs && Holds(View(f, m), k) && Holds(View(f, n), k) ==> m == n)
  }

  lemma EchoHoldsNothingNew(f: Fleet, m: string, n: string, a: Action, k: nat)
    requires f.Valid() && m in f.specs && n in f.specs && m != n
    ensures Holds(View(Step(f, m, a), n), k) <==> Holds(View(f, n), k)
  {
    StepShowsShared(f, m, n, a);
  }

  lemma StepKeepsKeysApart(f: Fleet, n: string, a: Action)
    requires f.Valid() && n in f.specs && KeysApart(f) && BringsNoKey(a)
    ensures KeysApart(Step(f, n, a))
  {
    var g := Step(f, n, a);
    StepOfItself(f, n, a);
    CountersOnlyGrow(View(f, n), a);
    forall x, k: nat | x in f.specs && Holds(View(g, x), k)
      ensures Holds(View(f, x), k) || (x == n && f.keys <= k < g.keys)
    {
      if x == n {
        NewKeysAreFresh(View(f, n), a, k);
      } else {
        EchoHoldsNothingNew(f, n, x, a, k);
      }
    }
  }

  /** If no key pair is shared at the start, and nobody plants one, none ever is: two kubeconfigs never hold
      the same key, in use or not. */
  lemma {:induction false} KeysStayApart(f: Fleet, events: seq<Event>)
    requires f.Valid() && Known(f, events) && KeysApart(f)
    requires NoForeignKeys(events)
    ensures KeysApart(RunAll(f, events))
  {
    if events != [] {
      var k := |events| - 1;
      KeysStayApart(f, events[..k]);
      StepKeepsKeysApart(RunAll(f, events[..k]), events[k].name, events[k].action);
    }
  }

  /** No two kubeconfigs use the same key pair, and what is used has been generated. */
  ghost predicate UsesApart(f: Fleet)
    requires f.Valid()
  {
    && (forall n, k: nat {:trigger Uses(View(f, n), k)} :: n in f.specs && Uses(View(f, n), k) ==> k < f.keys)
    && (forall m, n, k: nat {:trigger Uses(View(f, m), k), Uses(View(f, n), k)} ::
          m in f.specs && n in f.specs && Uses(View(f, m), k) && Uses(View(f, n), k) ==> m == n)
  }

  lemma EchoUsesNothingNew(f: Fleet, m: string, n: string, a: Action, k: nat)
    requires f.Valid() && m in f.specs && n in f.specs && m != n
    ensures Uses(View(Step(f, m, a), n), k) <==> Uses(View(f, n), k)
  {
    StepShowsShared(f, m, n, a);
  }

  lemma StepKeepsUsesApart(f: Fleet, n: string, a: Action)
    requires f.Valid() && n in f.specs && UsesApart(f) && Inv(View(f, n))
    ensures UsesApart(Step(f, n, a))
  {
    var g := Step(f, n, a);
    StepOfItself(f, n, a);
    CountersOnlyGrow(View(f, n), a);
    forall x, k: nat | x in f.specs && Uses(View(g, x), k)
      ensures Uses(View(f, x), k) || (x == n && f.keys <= k < g.keys)
    {
      if x == n {
        UsedKeysAreFresh(View(f, n), a, k);
      } else {
        EchoUsesNothingNew(f, n, x, a, k);
      }
    }
  }

  lemma {:induction false} UsesStayApart(f: Fleet, events: seq<Event>)
    requires f.Valid() && Known(f, events) && AllInitial(f)
    ensures UsesApart(RunAll(f, events))
  {
    if events == [] {
      forall n, k: nat | n in f.specs ensures !Uses(View(f, n), k) {
        NothingIsUsedAtFirst(View(f, n), k);
      }
    } else {
      var k := |events| - 1;
      UsesStayApart(f, events[..k]);
      InvariantLifts(f, events[..k]);
      StepKeepsUsesApart(RunAll(f, events[..k]), events[k].name, events[k].action);
    }
  }

  predicate IsFinished(f: Fleet, n: string)
    requires f.Valid() && n in f.specs
  {
    View(f, n).world.kubeconfig.status.Is(KubeconfigFinished, True)
  }

  predicate SecretsDiffer(f: Fleet, m: string, n: string)
    requires f.Valid() && m in f.specs && n in f.specs
  {
    var v, w := View(f, m).world.secret, View(f, n).world.secret;
    v.Some? && w.Some? && v.value.tlsKey != w.value.tlsKey && v.value.tlsCrt != w.value.tlsCrt
  }

  lemma FinishedSecretsDiffer(g: Fleet, m: string, n: string)
    requires g.Valid() && m in g.specs && n in g.specs && m != n && UsesApart(g)
    requires Inv(View(g, m)) && IsFinished(g, m) && Inv(View(g, n)) && IsFinished(g, n)
    ensures SecretsDiffer(g, m, n)
  {
    FinishedUsesItsKey(View(g, m));
    FinishedUsesItsKey(View(g, n));
  }

  /** No two kubeconfigs are ever handed the same key or the same certificate, whatever keys are in their
      secrets at the start or are put there by others. */
  lemma FinishedKeysDiffer(f: Fleet, events: seq<Event>, m: string, n: string)
    requires f.Valid() && Known(f, events) && AllInitial(f)
    requires m in f.specs && n in f.specs && m != n
    ensures IsFinished(RunAll(f, events), m) && IsFinished(RunAll(f, events), n)
            ==> SecretsDiffer(RunAll(f, events), m, n)
  {
    InvariantLifts(f, events);
    UsesStayApart(f, events);
    if IsFinished(RunAll(f, events), m) && IsFinished(RunAll(f, events), n) {
      FinishedSecretsDiffer(RunAll(f, events), m, n);
    }
  }
}
