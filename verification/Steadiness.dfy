/**
  When a pass changes nothing: a description of the resource and the cluster, without reference to
  the stages of a pass, that a finished pass establishes and a further pass keeps.
  */
module Steadiness {
  import opened Wrappers
  import opened Conditions
  import opened Api
  import opened Clusters
  import opened Passes
  import opened Reading
  import opened Facts
  import opened Safety
  import Pods

  // ---------- the description ----------

  /** Everything a pass needs before its TLS inputs is there, and one of those is missing. */
  predicate WaitsForTLS(lib: Lib, cr: CR, cl: Cluster) {
    && RbacInPlace(cr, cl)
    && OpenStackVars(lib, cr, cl).Some? && MemcachedOf(cr, cl).Some?
    && TLSMissing(lib, cr, cl)
  }

  /** The files and the hash agree with what is read. */
  predicate Configured(lib: Lib, cr: CR, cl: Cluster) {
    && RbacInPlace(cr, cl)
    && AllVars(lib, cr, cl).Some?
    && ConfigInPlace(lib, cr, cl, ConfigText(lib, cr, cl, MemcachedOf(cr, cl).value).value)
    && HasValidSecret(cl.secrets, cr.key.ns)
    && StoredHash(cr) == Some(lib.objectHash(AllVars(lib, cr, cl).value))
  }

  /**
    The Deployment is the one that the resource describes to a pass that cannot make the calls in
    `fail`, and the status speaks of it.
    */
  predicate RolledOut(lib: Lib, fail: set<Call>, cr: CR, cl: Cluster)
    requires MemcachedOf(cr, cl).Some?
  {
    var k := DeploymentKey(cr.key.ns);
    && k in cl.deployments
    && var d := cl.deployments[k];
    && d.owner == Some(cr.key)
    && d.spec == DesiredSpec(lib, fail, cr, cl, StoredHash(cr).GetOr(""), MemcachedOf(cr, cl).value)
    && (d.generation == d.observedGeneration ==> cr.status.readyCount == d.readyReplicas)
  }

  predicate Served(lib: Lib, cr: CR, cl: Cluster) {
    && IsOwned(cl, ServiceKey(cr.key.ns), ServicePorts(cr.spec), cr.key)
    && lib.apiEndpoint(cr.key, cr.spec) == Some(cr.status.endpoint)
  }

  predicate Settles(cr: CR, cl: Cluster) {
    && cr.status.lastAppliedTopology == cr.TopologyRef()
    && (cr.TopologyRef().Some? ==>
        TopologyFinalizer(cr.key) in Finalizers(cl.topologies, cr.TopologyRef().value))
  }

  predicate NetworkVerified(lib: Lib, cr: CR, cl: Cluster) {
    cr.spec.replicas > 0 ==> Verification(lib, cr, cl) == (true, cr.status.networkAttachments)
  }

  predicate Complete(lib: Lib, fail: set<Call>, cr: CR, cl: Cluster) {
    Configured(lib, cr, cl) && Served(lib, cr, cl) && Settles(cr, cl) && RolledOut(lib, fail, cr, cl) && NetworkVerified(lib, cr, cl)
  }

  /** The operator has let go of a resource that somebody else's finalizer keeps in deletion. */
  predicate Departed(cr: CR, cl: Cluster) {
    && cr.deleting && !cr.finalizer && !IsNew(cr)
    && (cr.status.lastAppliedTopology.Some? ==>
        TopologyFinalizer(cr.key) !in Finalizers(cl.topologies, cr.status.lastAppliedTopology.value))
  }

  predicate Steady(lib: Lib, fail: set<Call>, cr: CR, cl: Cluster) {
    && cr.status.observedGeneration == cr.generation
    && (Departed(cr, cl) || (Works(cr) && (WaitsForTLS(lib, cr, cl) || Complete(lib, fail, cr, cl))))
  }

  /** Where a pass over a steady resource stops. */
  function SteadyStop(lib: Lib, cr: CR, cl: Cluster): Stop {
    if cr.deleting then Stop(AtStart, None, Done)
    else if WaitsForTLS(lib, cr, cl) then Stop(AtTLS, Some(TLSMissingDetail(cr, cl)), Done)
    else
      var d := Get(cl.deployments, DeploymentKey(cr.key.ns));
      Stop(AtEnd, if d.Some? && d.value.IsReady() then None else Some(RunningDetail), Done)
  }

  // ---------- a further pass keeps it ----------

  lemma PutInPlace(o: Oracle, cl: Cluster, self: Key, call: Call, k: OwnedKey, content: Content)
    requires Smooth(o) && !call.GetNAD? && call != PatchInstance && IsOwned(cl, k, content, self)
    ensures PutOwned(o, cl, self, call, k, content) == Stored(cl)
  {
    assert cl.owned[k := Owned(content, Some(self))] == cl.owned;
  }

  lemma RbacStays(o: Oracle, w: World)
    requires Smooth(o) && RbacInPlace(w.cr, w.cl)
    ensures Rbac(o, w) == Next(w)
  {
    hide PutOwned, IsOwned;
    PutInPlace(o, w.cl, w.cr.key, PutServiceAccount, RbacKey(w.cr, ServiceAccountKind), Rules);
    PutInPlace(o, w.cl, w.cr.key, PutRole, RbacKey(w.cr, RoleKind), Rules);
    PutInPlace(o, w.cl, w.cr.key, PutRoleBinding, RbacKey(w.cr, RoleBindingKind), Rules);
  }

  lemma ConfigStays(lib: Lib, o: Oracle, w: World, m: MemcachedObject, vars: Vars)
    requires Smooth(o) && ConfigText(lib, w.cr, w.cl, m).Some?
    requires ConfigInPlace(lib, w.cr, w.cl, ConfigText(lib, w.cr, w.cl, m).value)
    ensures ConfigMaps(lib, o, w, m, vars)
         == Next((w, ConfigVars(lib, w.cr, ConfigText(lib, w.cr, w.cl, m).value, vars)))
  {
    hide PutOwned, IsOwned, ConfigText;
    var text := ConfigText(lib, w.cr, w.cl, m).value;
    PutInPlace(o, w.cl, w.cr.key, PutConfigData, ConfigMapKey(w.cr, ConfigDataName(w.cr)), Text(text));
    PutInPlace(o, w.cl, w.cr.key, PutScripts, ConfigMapKey(w.cr, ScriptsName(w.cr)), Text(lib.scripts));
  }

  lemma GateStays(lib: Lib, o: Oracle, w: World)
    requires Smooth(o) && Configured(lib, w.cr, w.cl)
    ensures Prepare(lib, o, w) == Next((w, StoredHash(w.cr).value, MemcachedOf(w.cr, w.cl).value))
  {
    hide Rbac, Inputs, ConfigMaps, RbacInPlace, ConfigInPlace, ConfigText, InputVars, MemcachedOf;
    RbacStays(o, w);
    InputsComplete(lib, o, w) by { InputsThere(lib, w.cr, w.cl); }
    InputsThere(lib, w.cr, w.cl);
    InputsMeaning(lib, o, w);
    ConfigStays(lib, o, w, MemcachedOf(w.cr, w.cl).value, InputVars(lib, w.cr, w.cl).value);
  }

  lemma InputsThere(lib: Lib, cr: CR, cl: Cluster)
    requires AllVars(lib, cr, cl).Some?
    ensures InputVars(lib, cr, cl).Some? && OpenStackVars(lib, cr, cl).Some? && MemcachedOf(cr, cl).Some?
    ensures ConfigText(lib, cr, cl, MemcachedOf(cr, cl).value).Some?
    ensures !TLSMissing(lib, cr, cl)
  {
  }

  lemma ServiceStays(lib: Lib, o: Oracle, w: World)
    requires Smooth(o) && Served(lib, w.cr, w.cl)
    ensures ServiceInit(lib, o, w) == Next(w)
  {
    hide PutOwned;
    PutInPlace(o, w.cl, w.cr.key, PutService, ServiceKey(w.cr.key.ns), ServicePorts(w.cr.spec));
    assert w.cr.(status := w.cr.status.(endpoint := w.cr.status.endpoint)) == w.cr;
  }

  lemma TopologyStays(o: Oracle, w: World)
    requires Smooth(o) && Settles(w.cr, w.cl)
    ensures EnsureTopology(o, w) == Next((w.(trace := w.trace + TopologyCalls(w.cr)), TopologySpec(w.cr, w.cl)))
  {
    TopologyMeaning(o, w);
    match w.cr.TopologyRef()
    case None =>
    case Some(t) =>
      var f := TopologyFinalizer(w.cr.key);
      assert Finalizers(w.cl.topologies, t) + {f} == Finalizers(w.cl.topologies, t);
      assert With(w.cl.topologies, t, f) == w.cl.topologies;
  }

  lemma DeploymentStays(o: Oracle, w: World, spec: Pods.DeploymentSpec, d: DeploymentObject)
    requires Smooth(o) && Get(w.cl.deployments, DeploymentKey(w.cr.key.ns)) == Some(d)
    requires d.owner == Some(w.cr.key) && d.spec == spec
    requires d.generation == d.observedGeneration ==> w.cr.status.readyCount == d.readyReplicas
    ensures WriteDeployment(o, w, spec) == Next((w.(trace := w.trace + [WroteDeployment(spec)]), d))
  {
    assert PutDeploymentObject(Some(d), w.cr.key, spec) == d;
    assert w.cl.deployments[DeploymentKey(w.cr.key.ns) := d] == w.cl.deployments;
    hide PutDeploymentObject;
  }

  lemma CheckStays(lib: Lib, o: Oracle, w: World)
    requires Smooth(o) && NetworkVerified(lib, w.cr, w.cl)
    ensures CheckNetwork(lib, o, w) == Next(w.(trace := w.trace + CheckCalls(w.cr)))
  {
    CheckMeaning(lib, o, w);
    assert Checked(lib, w.cr, w.cl) == w.cr;
  }

  lemma DescribeStays(lib: Lib, o: Oracle, w: World, hash: string, m: MemcachedObject)
    requires Smooth(o) && Served(lib, w.cr, w.cl) && Settles(w.cr, w.cl)
    ensures Describe(lib, o, w, hash, m)
         == Next((w.(trace := w.trace + TopologyCalls(w.cr)), DesiredSpec(lib, o.fail, w.cr, w.cl, hash, m)))
  {
    ServicesMeaning(o, w);
    ServiceStays(lib, o, w);
    TopologyStays(o, w);
    hide EnabledServices, ServiceInit, EnsureTopology, FindNADs, TopologyCalls, Served, Settles;
    hide Pods.BuildDeployment;
  }

  lemma RolloutStays(lib: Lib, o: Oracle, w: World, hash: string, m: MemcachedObject)
    requires Smooth(o) && Complete(lib, o.fail, w.cr, w.cl) && MemcachedOf(w.cr, w.cl) == Some(m) && StoredHash(w.cr) == Some(hash)
    ensures var (w', stop) := Rollout(lib, o, w, hash, m);
      w'.cr == w.cr && w'.cl == w.cl
      && stop.position == AtEnd && stop.ctl == Done
      && stop.failure == if w.cl.deployments[DeploymentKey(w.cr.key.ns)].IsReady() then None else Some(RunningDetail)
  {
    hide Describe, WriteDeployment, CheckNetwork, DesiredSpec, TopologyCalls, Configured, Served, Settles;
    hide NetworkVerified;
    DescribeStays(lib, o, w, hash, m);
    var spec := DesiredSpec(lib, o.fail, w.cr, w.cl, hash, m);
    var w1 := w.(trace := w.trace + TopologyCalls(w.cr));
    DeploymentStays(o, w1, spec, w.cl.deployments[DeploymentKey(w.cr.key.ns)]);
    VerifiedIn(lib, w, w1.(trace := w1.trace + [WroteDeployment(spec)]));
    CheckStays(lib, o, w1.(trace := w1.trace + [WroteDeployment(spec)]));
  }

  lemma VerifiedIn(lib: Lib, w: World, w': World)
    requires NetworkVerified(lib, w.cr, w.cl) && w'.cr == w.cr && w'.cl == w.cl
    ensures NetworkVerified(lib, w'.cr, w'.cl)
  {
  }

  /** A smooth pass over a steady resource changes neither the resource nor the cluster. */
  lemma SteadyIsKept(lib: Lib, o: Oracle, cr: CR, cl: Cluster)
    requires Smooth(o) && Steady(lib, o.fail, cr, cl)
    ensures var (w, stop) := Body(lib, o, cr, cl); w.cr == cr && w.cl == cl && stop == SteadyStop(lib, cr, cl)
  {
    hide Prepare, Rollout, Inputs, RbacInPlace, TLSMissing, OpenStackVars, MemcachedOf, Configured, Served;
    hide Settles, RolledOut, NetworkVerified;
    hide Departed, Delete;
    var w := Start(cr, cl);
    assert w.cr == cr;
    if Departed(cr, cl) {
      DepartedStays(o, w);
    } else if WaitsForTLS(lib, cr, cl) {
      WaitStays(lib, o, w);
    } else {
      assert Complete(lib, o.fail, cr, cl);
      CompleteStays(lib, o, w);
    }
  }

  lemma DepartedStays(o: Oracle, w: World)
    requires Smooth(o) && Departed(w.cr, w.cl)
    ensures var (w', stop) := Delete(o, w);
      w'.cr == w.cr && w'.cl == w.cl && stop == Stop(AtStart, None, Done) && !StopsEarly(w.cr) && w.cr.deleting
  {
    var last := w.cr.status.lastAppliedTopology;
    if last.Some? {
      var f := TopologyFinalizer(w.cr.key);
      assert Finalizers(w.cl.topologies, last.value) - {f} == Finalizers(w.cl.topologies, last.value);
      assert Without(w.cl.topologies, last.value, f) == w.cl.topologies;
    }
    assert w.cr.(finalizer := false) == w.cr;
  }

  lemma WaitStays(lib: Lib, o: Oracle, w: World)
    requires Smooth(o) && WaitsForTLS(lib, w.cr, w.cl)
    ensures Prepare(lib, o, w) == Halt(w, Stop(AtTLS, Some(TLSMissingDetail(w.cr, w.cl)), Done))
  {
    hide Rbac, Inputs, OpenStackVars, MemcachedOf, TLSMissing, RbacInPlace;
    RbacStays(o, w);
    InputsComplete(lib, o, w);
    InputsMeaning(lib, o, w);
  }

  lemma CompleteStays(lib: Lib, o: Oracle, w: World)
    requires Smooth(o) && Complete(lib, o.fail, w.cr, w.cl)
    ensures MemcachedOf(w.cr, w.cl).Some? && !WaitsForTLS(lib, w.cr, w.cl)
    ensures var (w', stop) := Normal(lib, o, w);
      w'.cr == w.cr && w'.cl == w.cl
      && DeploymentKey(w.cr.key.ns) in w.cl.deployments
      && stop == Stop(AtEnd, if w.cl.deployments[DeploymentKey(w.cr.key.ns)].IsReady() then None else Some(RunningDetail), Done)
  {
    hide Prepare, Rollout, MemcachedOf, TLSMissing, AllVars, RbacInPlace, OpenStackVars, ConfigInPlace;
    GateStays(lib, o, w);
    InputsThere(lib, w.cr, w.cl);
    RolloutStays(lib, o, w, StoredHash(w.cr).value, MemcachedOf(w.cr, w.cl).value);
  }

  // ---------- a finished pass establishes it ----------

  /** The cluster as it reads behind the secret stage of a pass. */
  function Secured(o: Oracle, cr: CR, cl: Cluster): Cluster {
    cl.(secrets := SecretsAfter(o, cr, cl))
  }

  /** The next reading finds the variables that the pass hashed. */
  predicate Rereads(lib: Lib, o: Oracle, cr: CR, cl: Cluster) {
    AllVars(lib, cr, cl).Some? ==> AllVars(lib, cr, Secured(o, cr, cl)) == Some(HashedVars(lib, o, cr, cl))
  }

  lemma ValidRereads(lib: Lib, o: Oracle, cr: CR, cl: Cluster)
    requires HasValidSecret(cl.secrets, cr.key.ns)
    ensures Rereads(lib, o, cr, cl)
  {
    hide AllVars, HasValidSecret;
    assert Secured(o, cr, cl) == cl;
  }

  lemma StartRereads(lib: Lib, o: Oracle, cr: CR, cl: Cluster)
    ensures Rereads(lib, o, Start(cr, cl).cr, cl) == Rereads(lib, o, cr, cl)
  {
    hide AllVars, HasValidSecret;
    var w := Start(cr, cl);
    SourcesDecide(lib, w.cr, cl, cr, cl);
    NewSecretIsValid(o, cr, cl);
    SourcesDecide(lib, w.cr, Secured(o, w.cr, cl), cr, Secured(o, cr, cl));
  }

  lemma RolledConfigured(lib: Lib, g: World, w: World, d: DeploymentObject)
    requires Configured(lib, g.cr, g.cl)
    requires w.cl == ClusterDeployed(g.cr, g.cl, d)
    requires w.cr.key == g.cr.key && w.cr.spec == g.cr.spec
    requires w.cr.status.hash == g.cr.status.hash && w.cr.status.endpoint == g.cr.status.endpoint
    ensures Configured(lib, w.cr, w.cl)
    ensures MemcachedOf(w.cr, w.cl) == MemcachedOf(g.cr, g.cl)
  {
    hide TopologiesHeld, AllVars, MemcachedOf, ConfigText;
    InputsThere(lib, g.cr, g.cl);
    SourcesDecide(lib, g.cr, g.cl, w.cr, w.cl);
  }

  lemma RolledSettles(g: World, w: World, d: DeploymentObject)
    requires TopologyUsable(g.cr, g.cl)
    requires w.cl == ClusterDeployed(g.cr, g.cl, d)
    requires w.cr.key == g.cr.key && w.cr.spec == g.cr.spec && w.cr.status.lastAppliedTopology == g.cr.TopologyRef()
    ensures Settles(w.cr, w.cl)
    ensures TopologySpec(w.cr, w.cl) == TopologySpec(g.cr, g.cl)
  {
  }

  lemma SameDescription(lib: Lib, fail: set<Call>, a: CR, b: CR, acl: Cluster, bcl: Cluster, hash: string, m: MemcachedObject)
    requires a.key == b.key && a.spec == b.spec && TopologySpec(a, acl) == TopologySpec(b, bcl)
    requires acl.nads == bcl.nads && acl.keystoneServices == bcl.keystoneServices
    ensures DesiredSpec(lib, fail, a, acl, hash, m) == DesiredSpec(lib, fail, b, bcl, hash, m)
  {
    hide TopologySpec, FindNADs, Pods.BuildDeployment;
  }

  lemma RolledDeployment(lib: Lib, o: Oracle, g: World, w: World, m: MemcachedObject)
    requires TopologyUsable(g.cr, g.cl) && lib.apiEndpoint(g.cr.key, g.cr.spec).Some?
    requires w.cl == Rolled(lib, o, g, m).cl && w.cr == Checked(lib, Rolled(lib, o, g, m).cr, w.cl)
    requires MemcachedOf(w.cr, w.cl) == Some(m)
    ensures RolledOut(lib, o.fail, w.cr, w.cl)
  {
    hide TopologySpec, DesiredSpec, MemcachedOf, Verification, TopologyCalls, TopologyUsable, TopologiesHeld;
    RolledSettles(g, w, GateDeployment(lib, o, g, m));
    SameDescription(lib, o.fail, g.cr, w.cr, g.cl, w.cl, StoredHash(g.cr).GetOr(""), m);
  }

  lemma RolledNetwork(lib: Lib, g: World, r: World, w: World)
    requires w.cl == r.cl && w.cr == Checked(lib, r.cr, r.cl) && w.cr.spec == g.cr.spec
    requires g.cr.spec.replicas > 0 ==> Verification(lib, r.cr, r.cl).0
    ensures NetworkVerified(lib, w.cr, w.cl)
  {
  }

  /**
    A pass that runs to its end leaves a complete resource if the variables that it hashed are those
    of the next reading, and its endpoint is the one that it found.
    */
  lemma FinishedIsComplete(lib: Lib, o: Oracle, cr: CR, cl: Cluster)
    requires Works(cr) && Rereads(lib, o, cr, cl)
    requires Body(lib, o, cr, cl).1.position == AtEnd
    requires Body(lib, o, cr, cl).0.cr.status.endpoint == cr.status.endpoint
    ensures var (w, stop) := Body(lib, o, cr, cl);
      Complete(lib, o.fail, w.cr, w.cl) && stop == SteadyStop(lib, w.cr, w.cl)
  {
    hide Prepare, Normal, Continues, Configured, RolledOut, Settles, MemcachedOf, TLSMissing, Rereads;
    var w := Start(cr, cl);
    StartRereads(lib, o, cr, cl);
    NormalMeaning(lib, o, w);
    GateMeaning(lib, o, w);
    var (g, hash, m) := Prepare(lib, o, w).value;
    GateConfigured(lib, o, w);
    var (w', stop) := Normal(lib, o, w);
    NormalOnTheSame(lib, o, w);
    EndComplete(lib, o, g, m, w', stop);
  }

  lemma GateConfigured(lib: Lib, o: Oracle, w: World)
    requires Prepare(lib, o, w).Next? && Rereads(lib, o, w.cr, w.cl)
    ensures var (g, hash, m) := Prepare(lib, o, w).value;
      Configured(lib, g.cr, g.cl) && MemcachedOf(g.cr, g.cl) == Some(m) && g.cr == w.cr
  {
    hide Prepare, AllVars, MemcachedOf, ConfigText, RbacInPlace, ConfigInPlace, HasValidSecret, HashedVars, SecretsAfter;
    GateMeaning(lib, o, w);
    NewSecretIsValid(o, w.cr, w.cl);
    SourcesDecide(lib, w.cr, Secured(o, w.cr, w.cl), w.cr, Prepare(lib, o, w).value.0.cl);
    TextKeeps(lib, w.cr, w.cl, Prepare(lib, o, w).value.0.cl);
  }

  /** Memcached and the rendered text do not depend on secrets. */
  lemma TextKeeps(lib: Lib, cr: CR, a: Cluster, b: Cluster)
    requires b.memcacheds == a.memcacheds && b.keystones == a.keystones
    ensures MemcachedOf(cr, a) == MemcachedOf(cr, b)
    ensures forall m :: ConfigText(lib, cr, a, m) == ConfigText(lib, cr, b, m)
  {
  }

  lemma RolledServed(lib: Lib, o: Oracle, g: World, w: World, m: MemcachedObject)
    requires lib.apiEndpoint(g.cr.key, g.cr.spec).Some?
    requires w.cl == Rolled(lib, o, g, m).cl && w.cr == Checked(lib, Rolled(lib, o, g, m).cr, w.cl)
    ensures Served(lib, w.cr, w.cl)
    ensures w.cr.key == g.cr.key && w.cr.spec == g.cr.spec && w.cr.status.hash == g.cr.status.hash
    ensures w.cr.status.lastAppliedTopology == g.cr.TopologyRef()
    ensures Get(w.cl.deployments, DeploymentKey(w.cr.key.ns)) == Some(GateDeployment(lib, o, g, m))
  {
    hide GateDeployment, ClusterPlaced, TopologyCalls, Verification, WrittenSpec;
    ServiceIsWritten(g.cr, g.cl);
  }

  lemma ServiceIsWritten(cr: CR, cl: Cluster)
    ensures IsOwned(ClusterPlaced(cr, cl), ServiceKey(cr.key.ns), ServicePorts(cr.spec), cr.key)
  {
    hide TopologiesHeld;
  }

  lemma EndComplete(lib: Lib, o: Oracle, g: World, m: MemcachedObject, w: World, stop: Stop)
    requires Continues(lib, o, g, m, w, stop) && stop.position == AtEnd
    requires Configured(lib, g.cr, g.cl) && MemcachedOf(g.cr, g.cl) == Some(m)
    requires w.cr.status.endpoint == g.cr.status.endpoint && !w.cr.deleting
    ensures Complete(lib, o.fail, w.cr, w.cl) && stop == SteadyStop(lib, w.cr, w.cl)
  {
    hide Configured, RolledOut, Settles, NetworkVerified, WaitsForTLS, MemcachedOf, TopologyUsable, MayDeploy;
    hide Verification;
    hide DesiredSpec, TopologyCalls, ClusterPlaced, Served, Checked, Deployed, GateDeployment;
    var d := GateDeployment(lib, o, g, m);
    RolledServed(lib, o, g, w, m);
    RolledConfigured(lib, g, w, d);
    RolledSettles(g, w, d);
    RolledDeployment(lib, o, g, w, m);
    RolledNetwork(lib, g, Rolled(lib, o, g, m), w);
    ConfiguredIsNoWait(lib, w.cr, w.cl);
  }

  lemma ConfiguredIsNoWait(lib: Lib, cr: CR, cl: Cluster)
    requires Configured(lib, cr, cl)
    ensures !WaitsForTLS(lib, cr, cl)
  {
    InputsThere(lib, cr, cl);
  }
}
