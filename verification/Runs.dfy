/**
  Runs of the whole system: the users and other controllers change the cluster, watches fill the
  work queue, and the reconciler takes resources from it, in any order and with any calls failing.
  */
module Runs {
  import opened Wrappers
  import opened Conditions
  import opened Api
  import opened Clusters
  import opened Passes
  import opened Watches

  datatype Event =
    | Environment(cl: Cluster)
    | Reconciled(key: Key, o: Oracle)

  /**
    `delayed` holds the resources that come back by themselves after an error or a RequeueAfter.
    `owed` is a ledger of the topologies that a resource acquired in passes whose patch was lost.
    */
  datatype System = System(cl: Cluster, queue: set<Key>, delayed: set<Key>, owed: map<Key, set<Key>>)

  // ---------- what the environment may do ----------

  predicate Fresh(key: Key, cr: CR) {
    && cr.key == key && !cr.deleting && !cr.finalizer && Admitted(key, cr.spec)
    && cr.status == Status(map[], map[], "", 0, 0, "", None)
  }

  /** Users edit the specification and ask for deletion; only the reconciler writes the status. */
  predicate Edited(a: CR, b: CR) {
    && b.key == a.key && b.status == a.status && b.finalizer == a.finalizer
    && (a.deleting ==> b.deleting) && Lives(b)
    && a.generation <= b.generation && (a.spec == b.spec || a.generation < b.generation)
    && Admitted(b.key, b.spec)
  }

  ghost predicate ResourcesStep(a: map<Key, CR>, b: map<Key, CR>) {
    && (forall k | k in b && k !in a :: Fresh(k, b[k]))
    && (forall k | k in b && k in a :: Edited(a[k], b[k]))
    && (forall k | k in a && k !in b :: !a[k].finalizer)
  }

  /** Nobody else sets or drops a resource's finalizer; an object that has one cannot disappear. */
  ghost predicate TopologiesStep(a: Topologies, b: Topologies) {
    && (forall t, k: Key | t in b :: TopologyFinalizer(k) in b[t].finalizers ==> TopologyFinalizer(k) in Finalizers(a, t))
    && (forall t, k: Key | t in a :: TopologyFinalizer(k) in a[t].finalizers ==> TopologyFinalizer(k) in Finalizers(b, t))
  }

  ghost predicate EnvironmentStep(a: Cluster, b: Cluster) {
    ResourcesStep(a.horizons, b.horizons) && TopologiesStep(a.topologies, b.topologies)
  }

  // ---------- steps ----------

  function Owed(s: System, key: Key): set<Key> {
    Get(s.owed, key).GetOr({})
  }

  /** The ledger: a lost patch is owed what its pass acquired, a later patch settles that topology. */
  function Settle(owed: set<Key>, trace: seq<Action>, lost: bool): set<Key> {
    var acquired := set a | a in trace && a.Acquired? :: a.topology;
    if lost then owed + acquired else owed - acquired
  }

  function Ledger(lib: Lib, s: System, key: Key, o: Oracle): map<Key, set<Key>> {
    if GetInstance in o.fail || key !in s.cl.horizons then s.owed
    else
      s.owed[key := Settle(Owed(s, key), Pass(lib, o, s.cl.horizons[key], s.cl).trace, PatchInstance in o.fail)]
  }

  ghost predicate Possible(s: System, e: Event) {
    match e
    case Environment(cl) => EnvironmentStep(s.cl, cl)
    case Reconciled(key, o) => key in s.queue + s.delayed
  }

  ghost function Successor(lib: Lib, s: System, e: Event): System {
    match e
    case Environment(cl) => System(cl, s.queue + Woken(s.cl, cl), s.delayed, s.owed)
    case Reconciled(key, o) =>
      var (cl, ctl) := Reconcile(lib, o, key, s.cl);
      System(cl, s.queue - {key} + Woken(s.cl, cl),
            if ctl == Done then s.delayed - {key} else s.delayed + {key},
            Ledger(lib, s, key, o))
  }

  ghost predicate IsRun(lib: Lib, states: seq<System>, events: seq<Event>) {
    && |states| == |events| + 1
    && forall i | 0 <= i < |events| :: Possible(states[i], events[i]) && states[i + 1] == Successor(lib, states[i], events[i])
  }

  /** The names and namespaces that every resource keeps to. */
  ghost predicate WellFormed(cl: Cluster) {
    forall k | k in cl.horizons ::
      var cr := cl.horizons[k];
      && cr.key == k && Admitted(k, cr.spec)
      && (cr.status.lastAppliedTopology.Some? ==> cr.status.lastAppliedTopology.value.ns == k.ns)
  }
}
