/** What holds of every single pass, whatever its starting point and whichever calls fail. */
module Facts {
  import opened Wrappers
  import opened Conditions
  import opened Api
  import opened Clusters
  import opened Passes
  import opened Reading
  import Pods

  /** A pass that neither stops early nor finds the resource in deletion. */
  predicate Works(cr: CR) {
    !StopsEarly(cr) && !cr.deleting
  }

  /** The network verification of a finished pass. */
  function Verification(lib: Lib, cr: CR, cl: Cluster): (bool, string) {
    lib.verifyNetwork(cr.spec.networkAttachments, Get(cl.pods, cr.key).GetOr(""), cr.status.readyCount)
  }

  function Checked(lib: Lib, cr: CR, cl: Cluster): CR {
    if cr.spec.replicas == 0 then cr
    else cr.(status := cr.status.(networkAttachments := Verification(lib, cr, cl).1))
  }

  function CheckCalls(cr: CR): seq<Action> {
    if cr.spec.replicas == 0 then [] else [Verified(true)]
  }

  lemma CheckMeaning(lib: Lib, o: Oracle, w: World)
    ensures var s := CheckNetwork(lib, o, w);
      && (s.Next? ==>
          && s.value == World(Checked(lib, w.cr, w.cl), w.cl, w.trace + CheckCalls(w.cr))
          && (w.cr.spec.replicas > 0 ==> Verification(lib, w.cr, w.cl).0))
      && (s.Halt? ==>
          && s.stop.position == AtNetwork && s.stop.ctl.Failed? && w.cr.spec.replicas > 0
          && (s.world == w || s.world == World(Checked(lib, w.cr, w.cl), w.cl, w.trace + [Verified(false)])))
    ensures Smooth(o) && (w.cr.spec.replicas > 0 ==> Verification(lib, w.cr, w.cl).0) ==> CheckNetwork(lib, o, w).Next?
  {
    assert w.trace + [] == w.trace;
  }

  /** The hash that a pass computes from what it reads. */
  function HashRead(lib: Lib, o: Oracle, cr: CR, cl: Cluster): string
    requires AllVars(lib, cr, cl).Some?
  {
    lib.objectHash(HashedVars(lib, o, cr, cl))
  }

  lemma GateMeaning(lib: Lib, o: Oracle, w: World)
    ensures var s := Prepare(lib, o, w);
      && (s.Next? ==>
          && AtGate(lib, o, w, s.value.0)
          && MemcachedOf(w.cr, w.cl) == Some(s.value.2)
          && s.value.1 == HashRead(lib, o, w.cr, w.cl)
          && StoredHash(w.cr) == Some(s.value.1))
      && (s.Halt? ==>
          && Order(s.stop.position) <= 6
          && s.world.cl == w.cl.(owned := s.world.cl.owned, secrets := s.world.cl.secrets)
          && (|| (s.world.cl.secrets == w.cl.secrets && s.world.trace == w.trace)
              || (s.world.cl.secrets == SecretsAfter(o, w.cr, w.cl) && s.world.trace == TraceAfter(o, w))))
      && (s.Halt? && s.stop.ctl == Done ==>
          || (s.stop.position == AtTLS && Inputs(lib, o, w) == Halt(s.world, s.stop))
          || (&& s.stop == Stop(AtConfig, None, Done)
              && AtGate(lib, o, w, s.world.(cr := w.cr))
              && s.world.cr == WithHash(w.cr, HashRead(lib, o, w.cr, w.cl))
              && StoredHash(w.cr) != Some(HashRead(lib, o, w.cr, w.cl))))
      && (s.Halt? && s.stop.ctl != Done ==> s.world.cr == w.cr)
  {
    ReachingTheGate(lib, o, w);
    hide BeforeGate, AllVars, ConfigInPlace, RbacInPlace, SecretsAfter, TraceAfter, HashedVars, ConfigText;
    hide MemcachedOf;
    hide HasValidSecret, Inputs;
  }

  /** The Deployment stage as it is seen from the gate world `g`. */
  function GateDeployment(lib: Lib, o: Oracle, g: World, m: MemcachedObject): DeploymentObject {
    DeployedObject(lib, o.fail, g.cr, g.cl, StoredHash(g.cr).GetOr(""), m)
  }

  function WrittenSpec(lib: Lib, o: Oracle, g: World, m: MemcachedObject): Pods.DeploymentSpec {
    DesiredSpec(lib, o.fail, g.cr, g.cl, StoredHash(g.cr).GetOr(""), m)
  }

  /** The world with the Deployment written. */
  function Rolled(lib: Lib, o: Oracle, g: World, m: MemcachedObject): World
    requires lib.apiEndpoint(g.cr.key, g.cr.spec).Some?
  {
    var d := GateDeployment(lib, o, g, m);
    World(Deployed(lib, g.cr, d), ClusterDeployed(g.cr, g.cl, d),
          g.trace + TopologyCalls(g.cr) + [WroteDeployment(WrittenSpec(lib, o, g, m))])
  }

  /** How a pass behind the open gate `g` goes on. */
  ghost predicate Continues(lib: Lib, o: Oracle, g: World, m: MemcachedObject, w: World, stop: Stop) {
    if Order(stop.position) <= 10 then
      && Unfinished(lib, g, w) && 7 <= Order(stop.position) && stop.ctl != Done
      && w.cr.status.lastAppliedTopology
         == (if stop.position == AtDeployment then g.cr.TopologyRef() else g.cr.status.lastAppliedTopology)
    else
      && lib.apiEndpoint(g.cr.key, g.cr.spec).Some?
      && TopologyUsable(g.cr, g.cl) && MayDeploy(g.cr, g.cl)
      && var r := Rolled(lib, o, g, m);
      && w.cl == r.cl
      && (stop.position == AtEnd ==>
          && w.cr == Checked(lib, r.cr, r.cl) && w.trace == r.trace + CheckCalls(g.cr)
          && (g.cr.spec.replicas > 0 ==> Verification(lib, r.cr, r.cl).0)
          && stop == Stop(AtEnd, if GateDeployment(lib, o, g, m).IsReady() then None else Some(RunningDetail), Done))
      && (stop.position == AtNetwork ==>
          && stop.ctl.Failed? && g.cr.spec.replicas > 0
          && (|| (w.cr == r.cr && w.trace == r.trace)
              || (w.cr == Checked(lib, r.cr, r.cl) && w.trace == r.trace + [Verified(false)])))
  }

  lemma DeployRolls(lib: Lib, o: Oracle, g: World, hash: string, m: MemcachedObject)
    requires StoredHash(g.cr) == Some(hash) && Deploy(lib, o, g, hash, m).Next?
    ensures lib.apiEndpoint(g.cr.key, g.cr.spec).Some? && TopologyUsable(g.cr, g.cl) && MayDeploy(g.cr, g.cl)
    ensures Deploy(lib, o, g, hash, m).value == (Rolled(lib, o, g, m), GateDeployment(lib, o, g, m))
    ensures Rolled(lib, o, g, m).cr.spec == g.cr.spec
  {
    hide Deploy, ClusterDeployed, DesiredSpec, PutDeploymentObject, TopologyCalls, TopologyUsable, MayDeploy;
    DeployMeaning(lib, o, g, hash, m);
  }

  lemma RolloutMeaning(lib: Lib, o: Oracle, g: World, hash: string, m: MemcachedObject)
    requires StoredHash(g.cr) == Some(hash)
    ensures var (w, stop) := Rollout(lib, o, g, hash, m); Continues(lib, o, g, m, w, stop)
  {
    hide Deploy, CheckNetwork, Rolled, GateDeployment, Unfinished, TopologyUsable, MayDeploy, Checked;
    hide Verification;
    if Deploy(lib, o, g, hash, m).Next? {
      DeployRolls(lib, o, g, hash, m);
      CheckMeaning(lib, o, Rolled(lib, o, g, m));
    } else {
      DeployFails(lib, o, g, hash, m);
    }
  }

  /** Every pass over a live resource either halts before the gate or goes on behind it. */
  lemma NormalMeaning(lib: Lib, o: Oracle, w: World)
    ensures var p, (w', stop) := Prepare(lib, o, w), Normal(lib, o, w);
      && (p.Halt? ==> w' == p.world && stop == p.stop)
      && (p.Next? ==> Continues(lib, o, p.value.0, p.value.2, w', stop))
  {
    var p := Prepare(lib, o, w);
    if p.Next? {
      GateMeaning(lib, o, w);
      RolloutMeaning(lib, o, p.value.0, p.value.1, p.value.2);
      hide Prepare, Rollout, Continues;
    }
  }
}
