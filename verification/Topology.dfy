/**
  The finalizers that resources put on the topologies they use: who holds what over every run, also
  when the patch of a pass is lost.
  */
module TopologyProtocol {
  import opened Wrappers
  import opened Conditions
  import opened Api
  import opened Clusters
  import opened Passes
  import opened Reading
  import opened Facts
  import opened Safety
  import opened Watches
  import opened Runs
  import Pods

  /** The resource `k` holds the topology `t`. */
  predicate Holds(ts: Topologies, t: Key, k: Key) {
    TopologyFinalizer(k) in Finalizers(ts, t)
  }

  lemma FinalizersNameResources(a: Key, b: Key)
    ensures TopologyFinalizer(a) == TopologyFinalizer(b) <==> a.name == b.name
  {
    var prefix := "openstack.org/horizon-";
    if TopologyFinalizer(a) == TopologyFinalizer(b) {
      assert TopologyFinalizer(a)[|prefix|..] == a.name;
      assert TopologyFinalizer(b)[|prefix|..] == b.name;
    }
  }

  // ---------- one pass ----------

  /** What a pass does to the topologies, and which one its instance remembers. */
  datatype Handover = Untouched | Left | Held | Dropped

  function TopologiesAfter(cr: CR, ts: Topologies, h: Handover): Topologies {
    match h
    case Untouched => ts
    case Left => TopologiesLeft(cr, ts)
    case Held => TopologiesHeld(cr, ts)
    case Dropped =>
      if cr.status.lastAppliedTopology.None? then ts
      else Without(ts, cr.status.lastAppliedTopology.value, TopologyFinalizer(cr.key))
  }

  function LastAfter(cr: CR, h: Handover): Option<Key> {
    if h == Held then cr.TopologyRef() else cr.status.lastAppliedTopology
  }

  /** The topologies of the calls made: exactly the reference is acquired, and only when held. */
  function AcquiredBy(cr: CR, h: Handover): set<Key> {
    if h == Held && cr.TopologyRef().Some? then {cr.TopologyRef().value} else {}
  }

  function AcquiredIn(trace: seq<Action>): set<Key> {
    set a | a in trace && a.Acquired? :: a.topology
  }

  ghost predicate HandsOver(cr: CR, ts: Topologies, h: Handover, w: World) {
    && w.cl.topologies == TopologiesAfter(cr, ts, h)
    && w.cr.status.lastAppliedTopology == LastAfter(cr, h)
    && AcquiredIn(w.trace) == AcquiredBy(cr, h)
    && (h == Dropped ==> cr.deleting && !w.cr.finalizer)
    && (cr.finalizer && !w.cr.finalizer ==> h == Dropped)
    && (h == Held ==> cr.finalizer && !cr.deleting && TopologyUsableIn(cr, ts))
  }

  predicate TopologyUsableIn(cr: CR, ts: Topologies) {
    cr.TopologyRef().Some? ==> cr.TopologyRef().value in ts
  }

  lemma AcquiredAppend(a: seq<Action>, b: seq<Action>)
    ensures AcquiredIn(a + b) == AcquiredIn(a) + AcquiredIn(b)
  {
    assert forall x :: x in a + b <==> x in a || x in b;
  }

  lemma CallsAcquire(cr: CR)
    ensures AcquiredIn(TopologyCalls(cr)) == AcquiredBy(cr, Held)
  {
    AcquiredAppend(if Moved(cr) then [Released(cr.status.lastAppliedTopology.value)] else [],
                   match cr.TopologyRef() case None => [] case Some(t) => [Acquired(t)]);
  }

  lemma ReleaseAcquiresNothing(t: Key)
    ensures AcquiredIn([Released(t)]) == {}
  {
  }

  lemma OtherCallsAcquireNothing(spec: Pods.DeploymentSpec, cr: CR)
    ensures AcquiredIn([WroteDeployment(spec)]) == {}
    ensures AcquiredIn(CheckCalls(cr)) == {} && AcquiredIn([Verified(false)]) == {}
  {
  }

  lemma RolledHandsOver(lib: Lib, o: Oracle, g: World, m: MemcachedObject, w: World, stop: Stop)
    requires Continues(lib, o, g, m, w, stop) && AcquiredIn(g.trace) == {} && Order(stop.position) > 10
    requires g.cr.finalizer && !g.cr.deleting
    ensures HandsOver(g.cr, g.cl.topologies, Held, w)
  {
    hide DesiredSpec, GateDeployment, Verification, TopologiesHeld, MayDeploy, WrittenSpec, TopologyCalls, AcquiredIn;
    hide Unfinished, TopologiesLeft;
    var write := [WroteDeployment(WrittenSpec(lib, o, g, m))];
    OtherCallsAcquireNothing(WrittenSpec(lib, o, g, m), g.cr);
    ContinuesOnTheSame(lib, o, g, m, w, stop);
    CallsAcquire(g.cr);
    AcquiredAppend(g.trace, TopologyCalls(g.cr));
    AcquiredAppend(g.trace + TopologyCalls(g.cr), write);
    AcquiredAppend(g.trace + TopologyCalls(g.cr) + write, CheckCalls(g.cr));
    AcquiredAppend(g.trace + TopologyCalls(g.cr) + write, [Verified(false)]);
  }

  lemma UnfinishedHandsOver(lib: Lib, g: World, w: World) returns (h: Handover)
    requires Unfinished(lib, g, w) && AcquiredIn(g.trace) == {}
    requires g.cr.finalizer && w.cr.finalizer && !g.cr.deleting
    ensures HandsOver(g.cr, g.cl.topologies, h, w)
  {
    hide TopologiesHeld, TopologiesLeft, TopologyCalls, AcquiredIn;
    if w.cl.topologies == g.cl.topologies && w.trace == g.trace
       && w.cr.status.lastAppliedTopology == g.cr.status.lastAppliedTopology {
      h := Untouched;
    } else if Moved(g.cr) && w.cl.topologies == TopologiesLeft(g.cr, g.cl.topologies)
              && w.trace == g.trace + [Released(g.cr.status.lastAppliedTopology.value)]
              && w.cr.status.lastAppliedTopology == g.cr.status.lastAppliedTopology {
      ReleaseAcquiresNothing(g.cr.status.lastAppliedTopology.value);
      AcquiredAppend(g.trace, [Released(g.cr.status.lastAppliedTopology.value)]);
      h := Left;
    } else {
      CallsAcquire(g.cr);
      AcquiredAppend(g.trace, TopologyCalls(g.cr));
      h := Held;
    }
  }

  lemma RolloutHandsOver(lib: Lib, o: Oracle, g: World, m: MemcachedObject, w: World, stop: Stop) returns (h: Handover)
    requires Continues(lib, o, g, m, w, stop) && AcquiredIn(g.trace) == {}
    requires g.cr.finalizer && !g.cr.deleting
    ensures HandsOver(g.cr, g.cl.topologies, h, w)
  {
    hide HandsOver, Unfinished, Rolled, AcquiredIn, Checked, Verification, GateDeployment, TopologyUsable, MayDeploy;
    ContinuesOnTheSame(lib, o, g, m, w, stop);
    if Order(stop.position) > 10 {
      RolledHandsOver(lib, o, g, m, w, stop);
      h := Held;
    } else {
      h := UnfinishedHandsOver(lib, g, w);
    }
  }

  lemma NormalHandsOver(lib: Lib, o: Oracle, w: World) returns (h: Handover)
    requires w.trace == [] && w.cr.finalizer && !w.cr.deleting
    ensures HandsOver(w.cr, w.cl.topologies, h, Normal(lib, o, w).0)
  {
    hide Normal, Prepare, Continues, TopologiesHeld, TopologiesLeft, AllVars, HashRead, RbacInPlace;
    hide ConfigInPlace;
    hide SecretsAfter, Moved;
    NormalMeaning(lib, o, w);
    GateMeaning(lib, o, w);
    NormalOnTheSame(lib, o, w);
    var p := Prepare(lib, o, w);
    assert AcquiredIn(TraceAfter(o, w)) == {};
    if p.Halt? {
      h := Untouched;
    } else {
      h := RolloutHandsOver(lib, o, p.value.0, p.value.2, Normal(lib, o, w).0, Normal(lib, o, w).1);
    }
  }

  lemma DeleteHandsOver(o: Oracle, w: World) returns (h: Handover)
    requires w.trace == [] && w.cr.deleting
    ensures HandsOver(w.cr, w.cl.topologies, h, Delete(o, w).0)
  {
    h := if Delete(o, w).1.ctl == Done then Dropped else Untouched;
  }

  lemma HandsOverFromStart(cr: CR, cl: Cluster, h: Handover, w: World)
    requires HandsOver(Start(cr, cl).cr, cl.topologies, h, w)
    ensures HandsOver(cr, cl.topologies, h, w)
  {
    SameHandover(cr, Start(cr, cl).cr, cl.topologies, h);
    hide TopologiesAfter, LastAfter, AcquiredBy, AcquiredIn;
  }

  /** Every pass moves the finalizers of its resource in one of four ways. */
  lemma BodyHandsOver(lib: Lib, o: Oracle, cr: CR, cl: Cluster) returns (h: Handover)
    ensures HandsOver(cr, cl.topologies, h, Body(lib, o, cr, cl).0)
  {
    hide Normal, Delete, HandsOver;
    var w := Start(cr, cl);
    if StopsEarly(cr) {
      h := Untouched;
      EarlyHandsOver(lib, o, cr, cl);
    } else if cr.deleting {
      h := DeleteHandsOver(o, w);
      HandsOverFromStart(cr, cl, h, Delete(o, w).0);
    } else {
      h := NormalHandsOver(lib, o, w);
      HandsOverFromStart(cr, cl, h, Normal(lib, o, w).0);
    }
  }

  lemma EarlyHandsOver(lib: Lib, o: Oracle, cr: CR, cl: Cluster)
    requires StopsEarly(cr)
    ensures HandsOver(cr, cl.topologies, Untouched, Body(lib, o, cr, cl).0)
  {
  }

  lemma SameHandover(a: CR, b: CR, ts: Topologies, h: Handover)
    requires a.key == b.key && a.spec == b.spec && a.finalizer == b.finalizer && a.deleting == b.deleting
    requires a.status.lastAppliedTopology == b.status.lastAppliedTopology
    ensures TopologiesAfter(a, ts, h) == TopologiesAfter(b, ts, h)
    ensures LastAfter(a, h) == LastAfter(b, h) && AcquiredBy(a, h) == AcquiredBy(b, h)
    ensures TopologyUsableIn(a, ts) == TopologyUsableIn(b, ts)
  {
  }

  // ---------- who holds what after a pass ----------

  lemma WithoutHolds(ts: Topologies, t0: Key, k0: Key, t: Key, k: Key)
    ensures Holds(Without(ts, t0, TopologyFinalizer(k0)), t, k) <==> Holds(ts, t, k) && !(t == t0 && k.name == k0.name)
  {
    FinalizersNameResources(k0, k);
  }

  lemma WithHolds(ts: Topologies, t0: Key, k0: Key, t: Key, k: Key)
    ensures Holds(With(ts, t0, TopologyFinalizer(k0)), t, k)
       <==> Holds(ts, t, k) || (t == t0 && t0 in ts && k.name == k0.name)
  {
    FinalizersNameResources(k0, k);
  }

  /** A resource looks for topologies in its own namespace only. */
  predicate Local(cr: CR) {
    && (cr.TopologyRef().Some? ==> cr.TopologyRef().value.ns == cr.key.ns)
    && (cr.status.lastAppliedTopology.Some? ==> cr.status.lastAppliedTopology.value.ns == cr.key.ns)
  }

  /** Only the pass's own resource is affected, and it keeps hold of nothing but its reference. */
  lemma HandoverHolds(cr: CR, ts: Topologies, h: Handover, t: Key, k: Key)
    requires Local(cr) && t.ns == k.ns
    ensures var after := Holds(TopologiesAfter(cr, ts, h), t, k);
      && (k != cr.key ==> after == Holds(ts, t, k))
      && (k == cr.key && h == Held ==>
          (after <==> (cr.TopologyRef() == Some(t) && t in ts)
                      || (Holds(ts, t, k) && cr.status.lastAppliedTopology != Some(t))
                      || (Holds(ts, t, k) && cr.TopologyRef() == Some(t))))
      && (k == cr.key && h == Dropped ==> (after <==> Holds(ts, t, k) && cr.status.lastAppliedTopology != Some(t)))
      && (after && h != Held ==> Holds(ts, t, k))
      && (Holds(ts, t, k) && cr.status.lastAppliedTopology != Some(t) ==> after)
  {
    var last, ref := cr.status.lastAppliedTopology, cr.TopologyRef();
    if last.Some? {
      WithoutHolds(ts, last.value, cr.key, t, k);
    }
    if ref.Some? {
      WithHolds(TopologiesLeft(cr, ts), ref.value, cr.key, t, k);
      assert t in TopologiesLeft(cr, ts) <==> t in ts;
    }
    hide With, Without, Holds;
  }

  // ---------- runs ----------

  /** Whatever the resource `k` holds is its last applied topology, or is owed by a lost patch. */
  ghost predicate AccountedFor(s: System, k: Key) {
    forall t: Key | t.ns == k.ns && Holds(s.cl.topologies, t, k) ::
      t in Owed(s, k) || (k in s.cl.horizons && Remembers(s.cl.horizons[k], t))
  }

  predicate Remembers(cr: CR, t: Key) {
    cr.finalizer && cr.status.lastAppliedTopology == Some(t)
  }

  ghost predicate Accounted(s: System) {
    forall k :: AccountedFor(s, k)
  }

  lemma WellFormedNext(lib: Lib, s: System, e: Event)
    requires WellFormed(s.cl) && Possible(s, e)
    ensures WellFormed(Successor(lib, s, e).cl)
  {
    hide Woken, Ledger, Pass, TopologiesStep;
    if e.Reconciled? && e.key in s.cl.horizons {
      var cr := s.cl.horizons[e.key];
      PassFrame(lib, e.o, cr, s.cl);
      LastIsLocal(lib, e.o, cr, s.cl);
    }
  }

  lemma {:induction false} WellFormedOverRuns(lib: Lib, states: seq<System>, events: seq<Event>, i: nat)
    requires IsRun(lib, states, events) && i < |states| && WellFormed(states[0].cl)
    ensures WellFormed(states[i].cl)
  {
    hide WellFormed, Successor, Possible;
    if i > 0 {
      WellFormedOverRuns(lib, states, events, i - 1);
      WellFormedNext(lib, states[i - 1], events[i - 1]);
    }
  }

  lemma LastIsLocal(lib: Lib, o: Oracle, cr: CR, cl: Cluster)
    requires Local(cr)
    ensures Local(Pass(lib, o, cr, cl).cr)
  {
    hide Body, Epilogue, ConditionsAt, HandsOver;
    PassFrame(lib, o, cr, cl);
    var h := BodyHandsOver(lib, o, cr, cl);
    LastOf(lib, o, cr, cl, h);
  }

  lemma LastOf(lib: Lib, o: Oracle, cr: CR, cl: Cluster, h: Handover)
    requires HandsOver(cr, cl.topologies, h, Body(lib, o, cr, cl).0)
    ensures var out := Pass(lib, o, cr, cl);
      && out.cl.topologies == TopologiesAfter(cr, cl.topologies, h)
      && AcquiredIn(out.trace) == AcquiredBy(cr, h)
      && (PatchInstance in o.fail ==> out.cr == cr)
      && (PatchInstance !in o.fail ==> out.cr.status.lastAppliedTopology == LastAfter(cr, h))
      && (PatchInstance !in o.fail && cr.finalizer && !out.cr.finalizer ==> h == Dropped)
      && (PatchInstance !in o.fail && h == Dropped ==> cr.deleting && !out.cr.finalizer)
      && (h == Held ==> cr.finalizer && !cr.deleting && TopologyUsableIn(cr, cl.topologies))
  {
    hide Body, Epilogue, ConditionsAt, AcquiredIn, TopologiesAfter;
  }

  lemma OthersStored(lib: Lib, o: Oracle, s: System, key: Key, k: Key)
    requires WellFormed(s.cl) && k != key
    ensures Get(Successor(lib, s, Reconciled(key, o)).cl.horizons, k) == Get(s.cl.horizons, k)
  {
    hide Woken, Pass, Ledger;
    if key in s.cl.horizons {
      PassFrame(lib, o, s.cl.horizons[key], s.cl);
    }
  }

  lemma OthersOwed(lib: Lib, o: Oracle, s: System, key: Key, k: Key)
    requires k != key
    ensures Owed(Successor(lib, s, Reconciled(key, o)), k) == Owed(s, k)
  {
    hide Woken, Pass, Settle, Reconcile;
  }

  lemma OthersHold(lib: Lib, o: Oracle, s: System, key: Key, k: Key, t: Key)
    requires WellFormed(s.cl) && k != key && t.ns == k.ns
    ensures Holds(Successor(lib, s, Reconciled(key, o)).cl.topologies, t, k) == Holds(s.cl.topologies, t, k)
  {
    hide Woken, Pass, Holds, HandsOver, TopologiesAfter, Ledger;
    if key in s.cl.horizons {
      var cr := s.cl.horizons[key];
      var h := BodyHandsOver(lib, o, cr, s.cl);
      LastOf(lib, o, cr, s.cl, h);
      HandoverHolds(cr, s.cl.topologies, h, t, k);
    }
  }

  /** A pass of one resource leaves every other resource, and what it holds, alone. */
  lemma OthersUntouched(lib: Lib, o: Oracle, s: System, key: Key, k: Key, t: Key)
    requires WellFormed(s.cl) && k != key && t.ns == k.ns
    ensures var s' := Successor(lib, s, Reconciled(key, o));
      && Holds(s'.cl.topologies, t, k) == Holds(s.cl.topologies, t, k)
      && Get(s'.cl.horizons, k) == Get(s.cl.horizons, k)
      && Owed(s', k) == Owed(s, k)
  {
    hide Successor, WellFormed, Holds, Owed;
    OthersStored(lib, o, s, key, k);
    OthersOwed(lib, o, s, key, k);
    OthersHold(lib, o, s, key, k, t);
  }

  /** The pass of a resource keeps its own books. */
  lemma OwnAccount(lib: Lib, o: Oracle, s: System, key: Key)
    requires WellFormed(s.cl) && AccountedFor(s, key)
    ensures AccountedFor(Successor(lib, s, Reconciled(key, o)), key)
  {
    hide Woken, Pass, Holds, HandsOver, TopologiesAfter;
    var s' := Successor(lib, s, Reconciled(key, o));
    if key in s.cl.horizons && GetInstance !in o.fail {
      var cr := s.cl.horizons[key];
      var out := Pass(lib, o, cr, s.cl);
      PassFrame(lib, o, cr, s.cl);
      var h := BodyHandsOver(lib, o, cr, s.cl);
      LastOf(lib, o, cr, s.cl, h);
      forall t: Key | t.ns == key.ns && Holds(s'.cl.topologies, t, key)
        ensures t in Owed(s', key) || (key in s'.cl.horizons && Remembers(s'.cl.horizons[key], t))
      {
        HandoverHolds(cr, s.cl.topologies, h, t, key);
        OwnTopology(lib, o, s, key, h, t);
      }
    }
  }

  lemma OwnTopology(lib: Lib, o: Oracle, s: System, key: Key, h: Handover, t: Key)
    requires WellFormed(s.cl) && AccountedFor(s, key) && key in s.cl.horizons && GetInstance !in o.fail && t.ns == key.ns
    requires HandsOver(s.cl.horizons[key], s.cl.topologies, h, Body(lib, o, s.cl.horizons[key], s.cl).0)
    requires Holds(Successor(lib, s, Reconciled(key, o)).cl.topologies, t, key)
    ensures var s' := Successor(lib, s, Reconciled(key, o));
      t in Owed(s', key) || (key in s'.cl.horizons && Remembers(s'.cl.horizons[key], t))
  {
    hide Woken, Pass, Holds, HandsOver, TopologiesAfter, WellFormed;
    var cr := s.cl.horizons[key];
    var out := Pass(lib, o, cr, s.cl);
    assert cr.key == key && Local(cr) by { LocalCR(s.cl, key); }
    PassFrame(lib, o, cr, s.cl);
    LastOf(lib, o, cr, s.cl, h);
    HandoverHolds(cr, s.cl.topologies, h, t, key);
    assert Settle(Owed(s, key), out.trace, PatchInstance in o.fail)
        == if PatchInstance in o.fail then Owed(s, key) + AcquiredBy(cr, h) else Owed(s, key) - AcquiredBy(cr, h);
  }

  lemma LocalCR(cl: Cluster, k: Key)
    requires WellFormed(cl) && k in cl.horizons
    ensures cl.horizons[k].key == k && Local(cl.horizons[k])
  {
  }

  lemma EnvironmentAccount(lib: Lib, s: System, cl: Cluster, k: Key)
    requires EnvironmentStep(s.cl, cl) && AccountedFor(s, k)
    ensures AccountedFor(Successor(lib, s, Environment(cl)), k)
  {
    hide Woken;
    var s' := Successor(lib, s, Environment(cl));
    forall t: Key | t.ns == k.ns && Holds(s'.cl.topologies, t, k)
      ensures t in Owed(s', k) || (k in s'.cl.horizons && Remembers(s'.cl.horizons[k], t))
    {
      assert Holds(s.cl.topologies, t, k);
    }
  }

  lemma AccountedNext(lib: Lib, s: System, e: Event)
    requires WellFormed(s.cl) && Accounted(s) && Possible(s, e)
    ensures WellFormed(Successor(lib, s, e).cl) && Accounted(Successor(lib, s, e))
  {
    hide WellFormed, AccountedFor, Successor, EnvironmentStep;
    WellFormedNext(lib, s, e);
    forall k
      ensures AccountedFor(Successor(lib, s, e), k)
    {
      assert AccountedFor(s, k);
      match e
      case Environment(cl) => EnvironmentAccount(lib, s, cl, k);
      case Reconciled(key, o) =>
        if k == key {
          OwnAccount(lib, o, s, key);
        } else {
          OtherAccount(lib, o, s, key, k);
        }
    }
  }

  lemma OtherAccount(lib: Lib, o: Oracle, s: System, key: Key, k: Key)
    requires WellFormed(s.cl) && AccountedFor(s, k) && k != key
    ensures AccountedFor(Successor(lib, s, Reconciled(key, o)), k)
  {
    hide WellFormed, Successor, Holds;
    var s' := Successor(lib, s, Reconciled(key, o));
    forall t: Key | t.ns == k.ns && Holds(s'.cl.topologies, t, k)
      ensures t in Owed(s', k) || (k in s'.cl.horizons && Remembers(s'.cl.horizons[k], t))
    {
      OthersUntouched(lib, o, s, key, k, t);
    }
  }

  /** Over every run, with lost patches and all: what is held is remembered, or owed by a lost patch. */
  lemma {:induction false} AccountedOverRuns(lib: Lib, states: seq<System>, events: seq<Event>, i: nat)
    requires IsRun(lib, states, events) && i < |states|
    requires WellFormed(states[0].cl) && Accounted(states[0])
    ensures WellFormed(states[i].cl) && Accounted(states[i])
  {
    hide WellFormed, Accounted, Successor, Possible;
    if i > 0 {
      AccountedOverRuns(lib, states, events, i - 1);
      AccountedNext(lib, states[i - 1], events[i - 1]);
    }
  }

  ghost predicate NothingOwed(s: System) {
    forall k :: Owed(s, k) == {}
  }

  /** No patch is lost along the run. */
  ghost predicate PatchesSucceed(events: seq<Event>) {
    forall e | e in events && e.Reconciled? :: PatchInstance !in e.o.fail
  }

  lemma {:induction false} NothingOwedOverRuns(lib: Lib, states: seq<System>, events: seq<Event>, i: nat)
    requires IsRun(lib, states, events) && i < |states| && PatchesSucceed(events) && NothingOwed(states[0])
    ensures NothingOwed(states[i])
  {
    hide Woken, Pass, Reconcile, Possible;
    if i > 0 {
      NothingOwedOverRuns(lib, states, events, i - 1);
      var s, e := states[i - 1], events[i - 1];
      assert states[i] == Successor(lib, s, e);
      forall k
        ensures Owed(states[i], k) == {}
      {
        assert Owed(s, k) == {};
        assert e in events;
      }
    }
  }

  /**
    Finalizer conservation: as long as patches succeed, a resource holds at most its last applied
    topology, whichever references come and go, and a resource that is gone holds nothing.
    */
  lemma FinalizersAreConserved(lib: Lib, states: seq<System>, events: seq<Event>, i: nat, t: Key, k: Key)
    requires IsRun(lib, states, events) && i < |states| && PatchesSucceed(events)
    requires WellFormed(states[0].cl) && Accounted(states[0]) && NothingOwed(states[0])
    requires t.ns == k.ns && Holds(states[i].cl.topologies, t, k)
    ensures k in states[i].cl.horizons && states[i].cl.horizons[k].finalizer
    ensures states[i].cl.horizons[k].status.lastAppliedTopology == Some(t)
  {
    AccountedOverRuns(lib, states, events, i);
    NothingOwedOverRuns(lib, states, events, i);
    hide IsRun, Holds;
    assert AccountedFor(states[i], k) && Owed(states[i], k) == {};
  }

  // ---------- lost patches ----------

  /** The next successful pass that decides about the topology will record that the resource holds `t`. */
  predicate Recoverable(cr: CR, t: Key) {
    !cr.deleting && cr.TopologyRef() == Some(t)
  }

  /** The resource holds `t`, but its status does not say so: it was taken in a pass whose patch was lost. */
  predicate Unrecorded(cl: Cluster, t: Key, k: Key) {
    && t.ns == k.ns && Holds(cl.topologies, t, k)
    && (k in cl.horizons ==> cl.horizons[k].status.lastAppliedTopology != Some(t))
  }

  /** It holds `t` without a record, and no pass will make one. */
  predicate Forgotten(cl: Cluster, t: Key, k: Key) {
    Unrecorded(cl, t, k) && (k in cl.horizons ==> !Recoverable(cl.horizons[k], t))
  }

  /** How it comes to that: a pass whose patch is lost leaves a hold unrecorded unless it was recorded before. */
  lemma LostPatchIsUnrecorded(lib: Lib, o: Oracle, s: System, key: Key, t: Key)
    requires WellFormed(s.cl) && key in s.cl.horizons && GetInstance !in o.fail && PatchInstance in o.fail
    requires Acquired(t) in Pass(lib, o, s.cl.horizons[key], s.cl).trace
    ensures Unrecorded(Successor(lib, s, Reconciled(key, o)).cl, t, key)
       <==> s.cl.horizons[key].status.lastAppliedTopology != Some(t)
  {
    hide Woken, Pass, HandsOver, Ledger, TopologiesAfter, Holds;
    var cr := s.cl.horizons[key];
    PassFrame(lib, o, cr, s.cl);
    var h := BodyHandsOver(lib, o, cr, s.cl);
    LastOf(lib, o, cr, s.cl, h);
    assert t in AcquiredIn(Pass(lib, o, cr, s.cl).trace);
    HandoverHolds(cr, s.cl.topologies, h, t, key);
  }

  /** The pass gets as far as settling what the resource holds. */
  predicate Decides(lib: Lib, o: Oracle, cr: CR, cl: Cluster) {
    var stop := Body(lib, o, cr, cl).1;
    && PatchInstance !in o.fail && !StopsEarly(cr)
    && if cr.deleting then stop.ctl == Done else Order(stop.position) >= 10
  }

  lemma DecidedLast(lib: Lib, o: Oracle, cr: CR, cl: Cluster)
    requires Decides(lib, o, cr, cl)
    ensures Pass(lib, o, cr, cl).cr.status.lastAppliedTopology
         == if cr.deleting then cr.status.lastAppliedTopology else cr.TopologyRef()
  {
    hide Normal, Prepare, Continues, Epilogue, ConditionsAt, AllVars, HashRead, RbacInPlace, ConfigInPlace, Without;
    if !cr.deleting {
      var w := Start(cr, cl);
      NormalMeaning(lib, o, w);
      GateMeaning(lib, o, w);
      var (g, hash, m) := Prepare(lib, o, w).value;
      DecidedBehindGate(lib, o, g, m, Normal(lib, o, w).0, Normal(lib, o, w).1);
    }
  }

  /** Short of the decision the status remembers what it remembered. */
  lemma UndecidedLast(lib: Lib, o: Oracle, cr: CR, cl: Cluster)
    requires !Decides(lib, o, cr, cl)
    ensures Pass(lib, o, cr, cl).cr.status.lastAppliedTopology == cr.status.lastAppliedTopology
  {
    hide Normal, Epilogue, ConditionsAt, Without;
    if Works(cr) && PatchInstance !in o.fail {
      UndecidedNormal(lib, o, Start(cr, cl));
    }
  }

  lemma UndecidedNormal(lib: Lib, o: Oracle, w: World)
    requires Order(Normal(lib, o, w).1.position) < 10
    ensures Normal(lib, o, w).0.cr.status.lastAppliedTopology == w.cr.status.lastAppliedTopology
  {
    hide Normal, Prepare, Continues, AllVars, HashRead, RbacInPlace, ConfigInPlace;
    NormalMeaning(lib, o, w);
    GateMeaning(lib, o, w);
    if Prepare(lib, o, w).Next? {
      var (g, hash, m) := Prepare(lib, o, w).value;
      UndecidedBehindGate(lib, o, g, m, Normal(lib, o, w).0, Normal(lib, o, w).1);
    }
  }

  lemma UndecidedBehindGate(lib: Lib, o: Oracle, g: World, m: MemcachedObject, w: World, stop: Stop)
    requires Continues(lib, o, g, m, w, stop) && Order(stop.position) < 10
    ensures w.cr.status.lastAppliedTopology == g.cr.status.lastAppliedTopology
  {
    hide Unfinished;
  }

  lemma DecidedBehindGate(lib: Lib, o: Oracle, g: World, m: MemcachedObject, w: World, stop: Stop)
    requires Continues(lib, o, g, m, w, stop) && Order(stop.position) >= 10
    ensures w.cr.status.lastAppliedTopology == g.cr.TopologyRef()
  {
    hide DesiredSpec, GateDeployment, Verification, ClusterDeployed, TopologyCalls, MayDeploy, Unfinished;
  }

  /** What a pass of its own does to a hold that its status does not record: it never lets go of it. */
  lemma UnrecordedHold(lib: Lib, o: Oracle, s: System, key: Key, t: Key)
    requires WellFormed(s.cl) && key in s.cl.horizons && GetInstance !in o.fail && Unrecorded(s.cl, t, key)
    ensures var s', out := Successor(lib, s, Reconciled(key, o)), Pass(lib, o, s.cl.horizons[key], s.cl);
      && Holds(s'.cl.topologies, t, key)
      && (key in s'.cl.horizons ==> s'.cl.horizons[key] == out.cr)
      && (key !in s'.cl.horizons ==> s.cl.horizons[key].deleting)
  {
    hide Woken, Pass, Holds, HandsOver, TopologiesAfter, Ledger;
    var cr := s.cl.horizons[key];
    PassFrame(lib, o, cr, s.cl);
    var h := BodyHandsOver(lib, o, cr, s.cl);
    LastOf(lib, o, cr, s.cl, h);
    HandoverHolds(cr, s.cl.topologies, h, t, key);
  }

  /**
    Exactly when a lost hold is made up for: the next pass that decides about the topology records it
    if the resource is not being deleted and still refers to it, and forgets it otherwise.
    */
  lemma DecisionIff(lib: Lib, o: Oracle, s: System, key: Key, t: Key)
    requires WellFormed(s.cl) && key in s.cl.horizons && GetInstance !in o.fail && Unrecorded(s.cl, t, key)
    requires Decides(lib, o, s.cl.horizons[key], s.cl)
    ensures var s', recoverable := Successor(lib, s, Reconciled(key, o)), Recoverable(s.cl.horizons[key], t);
      && ((key in s'.cl.horizons && s'.cl.horizons[key].status.lastAppliedTopology == Some(t)) <==> recoverable)
      && (Forgotten(s'.cl, t, key) <==> !recoverable)
  {
    hide Successor, Pass, Decides, WellFormed, Holds;
    var cr := s.cl.horizons[key];
    UnrecordedHold(lib, o, s, key, t);
    DecidedLast(lib, o, cr, s.cl);
    PassFrame(lib, o, cr, s.cl);
  }

  /** The step is a pass of the resource that decides about the topology while it refers to it. */
  predicate Records(lib: Lib, s: System, e: Event, t: Key, k: Key) {
    && e.Reconciled? && e.key == k && k in s.cl.horizons && GetInstance !in e.o.fail
    && Decides(lib, e.o, s.cl.horizons[k], s.cl) && Recoverable(s.cl.horizons[k], t)
  }

  /** No step lets go of an unrecorded hold, and it stays unrecorded exactly until such a pass. */
  lemma UnrecordedNextIff(lib: Lib, s: System, e: Event, t: Key, k: Key)
    requires WellFormed(s.cl) && Possible(s, e) && Unrecorded(s.cl, t, k)
    ensures Holds(Successor(lib, s, e).cl.topologies, t, k)
    ensures Unrecorded(Successor(lib, s, e).cl, t, k) <==> !Records(lib, s, e, t, k)
  {
    hide Successor, Pass, Decides, WellFormed;
    match e
    case Environment(cl) => EnvironmentCluster(lib, s, cl);
    case Reconciled(key, o) =>
      hide Holds;
      if k != key {
        OthersHold(lib, o, s, key, k, t);
        OthersStored(lib, o, s, key, k);
      } else if key !in s.cl.horizons || GetInstance in o.fail {
        NothingHappens(lib, o, s, key);
      } else {
        UnrecordedHold(lib, o, s, key, t);
        if Decides(lib, o, s.cl.horizons[key], s.cl) {
          DecisionIff(lib, o, s, key, t);
        } else {
          UndecidedLast(lib, o, s.cl.horizons[key], s.cl);
        }
      }
  }

  /** Over a run: a hold stays without a record exactly as long as no pass decides while the resource refers to it. */
  lemma {:induction false} UnrecordedUntilIff(lib: Lib, states: seq<System>, events: seq<Event>, i: nat, j: nat, t: Key, k: Key)
    requires IsRun(lib, states, events) && i <= j < |states| && WellFormed(states[0].cl)
    requires Unrecorded(states[i].cl, t, k)
    ensures (forall m | i <= m <= j :: Unrecorded(states[m].cl, t, k))
       <==> (forall m | i <= m < j :: !Records(lib, states[m], events[m], t, k))
  {
    hide Unrecorded, Records, Successor, Possible, WellFormed;
    if i < j {
      UnrecordedUntilIff(lib, states, events, i, j - 1, t, k);
      if Unrecorded(states[j - 1].cl, t, k) {
        WellFormedOverRuns(lib, states, events, j - 1);
        UnrecordedNextIff(lib, states[j - 1], events[j - 1], t, k);
        assert states[j] == Successor(lib, states[j - 1], events[j - 1]);
      } else {
        var m :| i <= m < j - 1 && Records(lib, states[m], events[m], t, k);
        assert !Unrecorded(states[j - 1].cl, t, k) && Records(lib, states[m], events[m], t, k);
      }
    }
  }

  /** As long as the reference does not come back, to the resource or to one of its name, the hold is forgotten. */
  lemma ForgottenWhileAway(lib: Lib, states: seq<System>, events: seq<Event>, i: nat, j: nat, t: Key, k: Key)
    requires IsRun(lib, states, events) && i <= j < |states| && WellFormed(states[0].cl)
    requires Unrecorded(states[i].cl, t, k)
    requires forall m | i <= m <= j :: k in states[m].cl.horizons ==> !Recoverable(states[m].cl.horizons[k], t)
    ensures Forgotten(states[j].cl, t, k)
  {
    hide IsRun, Unrecorded, Decides, WellFormed;
    UnrecordedUntilIff(lib, states, events, i, j, t, k);
  }

  /** No pass of any resource releases a forgotten topology, or records it. */
  lemma ForgottenForGood(lib: Lib, o: Oracle, s: System, key: Key, t: Key, k: Key)
    requires WellFormed(s.cl) && Forgotten(s.cl, t, k)
    ensures Forgotten(Successor(lib, s, Reconciled(key, o)).cl, t, k)
  {
    hide Successor, Pass, Holds, HandsOver, TopologiesAfter, WellFormed;
    if k != key {
      OthersHold(lib, o, s, key, k, t);
      OthersStored(lib, o, s, key, k);
    } else if key in s.cl.horizons && GetInstance !in o.fail {
      var cr := s.cl.horizons[key];
      UnrecordedHold(lib, o, s, key, t);
      PassFrame(lib, o, cr, s.cl);
      var h := BodyHandsOver(lib, o, cr, s.cl);
      LastOf(lib, o, cr, s.cl, h);
    } else {
      NothingHappens(lib, o, s, key);
    }
  }

  lemma NothingHappens(lib: Lib, o: Oracle, s: System, key: Key)
    requires key !in s.cl.horizons || GetInstance in o.fail
    ensures Successor(lib, s, Reconciled(key, o)).cl == s.cl
  {
    hide Woken, Pass;
  }

  /** Whatever the resource holds its status records, or the next decision will. */
  ghost predicate KeptBy(cl: Cluster, k: Key) {
    forall t: Key | t.ns == k.ns && Holds(cl.topologies, t, k) ::
      && k in cl.horizons && cl.horizons[k].finalizer
      && (cl.horizons[k].status.lastAppliedTopology == Some(t) || Recoverable(cl.horizons[k], t))
  }

  ghost predicate NothingForgotten(cl: Cluster) {
    forall k :: KeptBy(cl, k)
  }

  /**
    The user neither moves the reference of a resource nor deletes it while it holds the topology
    without a record.
    */
  ghost predicate Disciplined(s: System, e: Event) {
    e.Environment? ==>
      forall t, k | Unrecorded(s.cl, t, k) :: k in e.cl.horizons && Recoverable(e.cl.horizons[k], t)
  }

  lemma KeptInEnvironment(lib: Lib, s: System, cl: Cluster, k: Key)
    requires EnvironmentStep(s.cl, cl) && Disciplined(s, Environment(cl)) && KeptBy(s.cl, k)
    ensures KeptBy(cl, k)
  {
    forall t: Key | t.ns == k.ns && Holds(cl.topologies, t, k)
      ensures k in cl.horizons && cl.horizons[k].finalizer
      ensures cl.horizons[k].status.lastAppliedTopology == Some(t) || Recoverable(cl.horizons[k], t)
    {
      assert Holds(s.cl.topologies, t, k);
      if s.cl.horizons[k].status.lastAppliedTopology != Some(t) {
        assert Unrecorded(s.cl, t, k);
      }
    }
  }

  lemma KeptByOthers(lib: Lib, o: Oracle, s: System, key: Key, k: Key)
    requires WellFormed(s.cl) && KeptBy(s.cl, k) && k != key
    ensures KeptBy(Successor(lib, s, Reconciled(key, o)).cl, k)
  {
    hide WellFormed, Successor, Holds;
    var cl := Successor(lib, s, Reconciled(key, o)).cl;
    OthersStored(lib, o, s, key, k);
    forall t: Key | t.ns == k.ns && Holds(cl.topologies, t, k)
      ensures k in cl.horizons && cl.horizons[k].finalizer
      ensures cl.horizons[k].status.lastAppliedTopology == Some(t) || Recoverable(cl.horizons[k], t)
    {
      OthersHold(lib, o, s, key, k, t);
    }
  }

  /** A resource's own pass keeps its promise, whether its patch arrives or not. */
  lemma KeptByItself(lib: Lib, o: Oracle, s: System, key: Key)
    requires WellFormed(s.cl) && KeptBy(s.cl, key) && key in s.cl.horizons && GetInstance !in o.fail
    ensures KeptBy(Successor(lib, s, Reconciled(key, o)).cl, key)
  {
    hide Woken, Pass, Holds, HandsOver, TopologiesAfter, Ledger, WellFormed;
    var cl, cr := Successor(lib, s, Reconciled(key, o)).cl, s.cl.horizons[key];
    LocalCR(s.cl, key);
    PassFrame(lib, o, cr, s.cl);
    var h := BodyHandsOver(lib, o, cr, s.cl);
    LastOf(lib, o, cr, s.cl, h);
    if cr.finalizer && !cr.deleting {
      FinalizerStays(lib, o, cr, s.cl);
    }
    forall t: Key | t.ns == key.ns && Holds(cl.topologies, t, key)
      ensures key in cl.horizons && cl.horizons[key].finalizer
      ensures cl.horizons[key].status.lastAppliedTopology == Some(t) || Recoverable(cl.horizons[key], t)
    {
      HandoverHolds(cr, s.cl.topologies, h, t, key);
    }
  }

  lemma FinalizerStays(lib: Lib, o: Oracle, cr: CR, cl: Cluster)
    requires cr.finalizer && !cr.deleting
    ensures Pass(lib, o, cr, cl).cr.finalizer
  {
    hide Normal, Report;
    if !Pass(lib, o, cr, cl).cr.finalizer {
      ReleaseComesFirst(lib, o, cr, cl);
      assert false;
    }
  }

  /** A step of the system forgets nothing exactly if it is disciplined. */
  lemma KeptNextIff(lib: Lib, s: System, e: Event)
    requires WellFormed(s.cl) && NothingForgotten(s.cl) && Possible(s, e)
    ensures NothingForgotten(Successor(lib, s, e).cl) <==> Disciplined(s, e)
  {
    hide WellFormed, KeptBy, Successor, EnvironmentStep, Disciplined;
    match e
    case Environment(cl) =>
      EnvironmentCluster(lib, s, cl);
      if Disciplined(s, e) {
        forall k
          ensures KeptBy(cl, k)
        {
          assert KeptBy(s.cl, k);
          KeptInEnvironment(lib, s, cl, k);
        }
      } else {
        var _, _ := LapseForgets(s, cl);
      }
    case Reconciled(key, o) =>
      PassesAreDisciplined(s, key, o);
      forall k
        ensures KeptBy(Successor(lib, s, e).cl, k)
      {
        assert KeptBy(s.cl, k);
        if k != key {
          KeptByOthers(lib, o, s, key, k);
        } else if key in s.cl.horizons && GetInstance !in o.fail {
          KeptByItself(lib, o, s, key);
        } else {
          NothingHappens(lib, o, s, key);
        }
      }
  }

  lemma EnvironmentCluster(lib: Lib, s: System, cl: Cluster)
    ensures Successor(lib, s, Environment(cl)).cl == cl
  {
  }

  lemma PassesAreDisciplined(s: System, key: Key, o: Oracle)
    ensures Disciplined(s, Reconciled(key, o))
  {
  }

  /** A user who moves the reference or deletes too early leaves a topology behind. */
  lemma LapseForgets(s: System, cl: Cluster) returns (t: Key, k: Key)
    requires EnvironmentStep(s.cl, cl) && NothingForgotten(s.cl) && !Disciplined(s, Environment(cl))
    ensures Forgotten(cl, t, k) && !NothingForgotten(cl)
  {
    t, k :| Unrecorded(s.cl, t, k) && !(k in cl.horizons && Recoverable(cl.horizons[k], t));
    assert KeptBy(s.cl, k) && Holds(cl.topologies, t, k);
    assert !KeptBy(cl, k);
  }

  /** As long as every step is disciplined, with any patches lost, nothing that is held is forgotten. */
  lemma {:induction false} DisciplinedOverRuns(lib: Lib, states: seq<System>, events: seq<Event>, i: nat)
    requires IsRun(lib, states, events) && i < |states|
    requires forall j | 0 <= j < i :: Disciplined(states[j], events[j])
    requires WellFormed(states[0].cl) && NothingForgotten(states[0].cl)
    ensures WellFormed(states[i].cl) && NothingForgotten(states[i].cl)
  {
    hide WellFormed, Successor, Possible, Disciplined, NothingForgotten;
    if i > 0 {
      DisciplinedOverRuns(lib, states, events, i - 1);
      WellFormedNext(lib, states[i - 1], events[i - 1]);
      KeptNextIff(lib, states[i - 1], events[i - 1]);
    }
  }

  /** And the first step that is not disciplined forgets a topology. */
  lemma FirstLapseForgets(lib: Lib, states: seq<System>, events: seq<Event>, i: nat) returns (t: Key, k: Key)
    requires IsRun(lib, states, events) && i < |events| && !Disciplined(states[i], events[i])
    requires forall j | 0 <= j < i :: Disciplined(states[j], events[j])
    requires WellFormed(states[0].cl) && NothingForgotten(states[0].cl)
    ensures Forgotten(states[i + 1].cl, t, k)
  {
    hide WellFormed, NothingForgotten, Successor, EnvironmentStep;
    DisciplinedOverRuns(lib, states, events, i);
    EnvironmentCluster(lib, states[i], events[i].cl);
    t, k := LapseForgets(states[i], events[i].cl);
  }
}
