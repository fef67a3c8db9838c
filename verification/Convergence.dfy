/**
  Where repeated passes lead when every call succeeds and nobody else interferes: six passes at most
  reach a state that further passes keep, and that state is the same from every starting point.
  */
module Convergence {
  import opened Wrappers
  import opened Conditions
  import opened Api
  import opened Clusters
  import opened Passes
  import opened Reading
  import opened Facts
  import opened Safety
  import opened Steadiness
  import opened TopologyProtocol
  import Volumes
  import Pods

  // ---------- the part of the state that settles ----------

  datatype Core = Core(
    initialised: bool,
    finalizer: bool,
    secret: Option<Secret>,
    hash: Option<string>,
    endpoint: string,
    lastTopology: Option<Key>,
    deployment: Option<Pods.DeploymentSpec>)

  function SpecIn(cl: Cluster, ns: string): Option<Pods.DeploymentSpec> {
    match Get(cl.deployments, DeploymentKey(ns))
    case None => None
    case Some(d) => Some(d.spec)
  }

  function CoreOf(cr: CR, cl: Cluster): Core {
    Core(!IsNew(cr), cr.finalizer, Get(cl.secrets, HorizonSecretKey(cr.key.ns)), StoredHash(cr),
         cr.status.endpoint, cr.status.lastAppliedTopology, SpecIn(cl, cr.key.ns))
  }

  // ---------- one calm pass, seen from its ends ----------

  /** The hash gate is reached. */
  predicate Unblocked(lib: Lib, cr: CR, cl: Cluster) {
    MayPrepare(cr, cl) && AllVars(lib, cr, cl).Some?
  }

  predicate Serviceable(lib: Lib, cr: CR, cl: Cluster) {
    MayWrite(cl, ServiceKey(cr.key.ns), cr.key) && lib.apiEndpoint(cr.key, cr.spec).Some?
  }

  function EndpointNext(lib: Lib, cr: CR, cl: Cluster): string {
    if Serviceable(lib, cr, cl) then lib.apiEndpoint(cr.key, cr.spec).value else cr.status.endpoint
  }

  function LastNext(lib: Lib, cr: CR, cl: Cluster): Option<Key> {
    if Serviceable(lib, cr, cl) && TopologyUsable(cr, cl) then cr.TopologyRef() else cr.status.lastAppliedTopology
  }

  function SpecNext(lib: Lib, cr: CR, cl: Cluster): Option<Pods.DeploymentSpec>
    requires MemcachedOf(cr, cl).Some?
  {
    if Serviceable(lib, cr, cl) && TopologyUsable(cr, cl) && MayDeploy(cr, cl)
    then Some(DesiredSpec(lib, {}, cr, cl, StoredHash(cr).GetOr(""), MemcachedOf(cr, cl).value))
    else SpecIn(cl, cr.key.ns)
  }

  lemma CalmDescribe(lib: Lib, o: Oracle, g: World, hash: string, m: MemcachedObject)
    requires Calm(o)
    ensures var s := Describe(lib, o, g, hash, m);
      if Serviceable(lib, g.cr, g.cl) && TopologyUsable(g.cr, g.cl) then
        s == Next((World(Placed(lib, g.cr), ClusterPlaced(g.cr, g.cl), g.trace + TopologyCalls(g.cr)),
                   DesiredSpec(lib, {}, g.cr, g.cl, hash, m)))
      else
        && s.Halt?
        && s.world.cr == g.cr.(status := g.cr.status.(endpoint := EndpointNext(lib, g.cr, g.cl)))
        && s.world.cl == g.cl.(owned := s.world.cl.owned, topologies := s.world.cl.topologies)
  {
    hide EnabledServices, ServiceInit, EnsureTopology, FindNADs, Pods.BuildDeployment, Desired;
    hide TopologiesHeld, TopologyCalls, TopologySpec, ServicesOf, Without, MayWrite;
    ServicesMeaning(o, g);
    ServiceMeaning(lib, o, g);
    if ServiceInit(lib, o, g).Next? {
      TopologyMeaning(o, ServiceInit(lib, o, g).value);
    }
    if Describe(lib, o, g, hash, m).Next? {
      DescribeMeaning(lib, o, g, hash, m);
    }
  }

  lemma CalmDeploy(lib: Lib, o: Oracle, g: World, hash: string, m: MemcachedObject)
    requires Calm(o) && StoredHash(g.cr) == Some(hash) && MemcachedOf(g.cr, g.cl) == Some(m)
    ensures var s := Deploy(lib, o, g, hash, m);
      var w := if s.Next? then s.value.0 else s.world;
      && w.cl.secrets == g.cl.secrets && w.cr.status.hash == g.cr.status.hash
      && w.cr.status.endpoint == EndpointNext(lib, g.cr, g.cl)
      && w.cr.status.lastAppliedTopology == LastNext(lib, g.cr, g.cl)
      && SpecIn(w.cl, g.cr.key.ns) == SpecNext(lib, g.cr, g.cl)
  {
    hide Describe, WriteDeployment, DesiredSpec, MemcachedOf, TopologyUsable, MayDeploy, TopologiesHeld;
    hide TopologyCalls, MayWrite;
    CalmDescribe(lib, o, g, hash, m);
    if Describe(lib, o, g, hash, m).Next? {
      var (w1, spec) := Describe(lib, o, g, hash, m).value;
      DeploymentMeaning(o, w1, spec);
      assert MayDeploy(w1.cr, w1.cl) == MayDeploy(g.cr, g.cl) by { SameDeployments(g.cr, w1.cr, g.cl, w1.cl); }
    }
  }

  lemma SameDeployments(a: CR, b: CR, acl: Cluster, bcl: Cluster)
    requires a.key == b.key && acl.deployments == bcl.deployments
    ensures MayDeploy(a, acl) == MayDeploy(b, bcl)
  {
  }

  /** What a calm pass behind the open gate does to the state that settles. */
  lemma CalmRollout(lib: Lib, o: Oracle, g: World, hash: string, m: MemcachedObject)
    requires Calm(o) && StoredHash(g.cr) == Some(hash) && MemcachedOf(g.cr, g.cl) == Some(m)
    ensures var w := Rollout(lib, o, g, hash, m).0;
      && w.cl.secrets == g.cl.secrets && w.cr.status.hash == g.cr.status.hash
      && w.cr.status.endpoint == EndpointNext(lib, g.cr, g.cl)
      && w.cr.status.lastAppliedTopology == LastNext(lib, g.cr, g.cl)
      && SpecIn(w.cl, g.cr.key.ns) == SpecNext(lib, g.cr, g.cl)
  {
    hide Deploy, EndpointNext, LastNext, SpecNext, MemcachedOf, Verification;
    CalmDeploy(lib, o, g, hash, m);
    var s := Deploy(lib, o, g, hash, m);
    if s.Next? {
      CheckMeaning(lib, o, s.value.0);
    }
  }

  /** A pass that reaches the gate was allowed to write everything in front of it. */
  lemma GateMeansMayPrepare(lib: Lib, o: Oracle, w: World)
    requires BeforeGate(lib, o, w).Next?
    ensures MayPrepare(w.cr, w.cl)
  {
    hide Inputs, ConfigMaps, HorizonSecret, Rbac, MayWriteRbac, HasValidSecret;
    InputsMeaning(lib, o, w);
    RbacMeaning(o, w);
    var (w1, v1, m) := Inputs(lib, o, w).value;
    ConfigMeaning(lib, o, w1, m, v1);
    var (w2, v2) := ConfigMaps(lib, o, w1, m, v1).value;
    SecretNeedsWriting(lib, o, w2, v2);
  }

  lemma SecretNeedsWriting(lib: Lib, o: Oracle, w: World, vars: Vars)
    requires HorizonSecret(lib, o, w, vars).Next?
    ensures HasValidSecret(w.cl.secrets, w.cr.key.ns) || MayWriteSecret(w.cr, w.cl)
  {
  }

  lemma CalmGate(lib: Lib, o: Oracle, w: World)
    requires Calm(o)
    ensures BeforeGate(lib, o, w).Next? <==> Unblocked(lib, w.cr, w.cl)
  {
    hide BeforeGate, AllVars, MayPrepare, RbacInPlace, ConfigInPlace, HashedVars, MemcachedOf, SecretsAfter;
    hide TraceAfter, ConfigText;
    if Unblocked(lib, w.cr, w.cl) {
      GateIsReached(lib, o, w);
    }
    if BeforeGate(lib, o, w).Next? {
      ReachingTheGate(lib, o, w);
      GateMeansMayPrepare(lib, o, w);
    }
  }

  /** One calm pass over the state that settles, stated without its stages. */
  function CoreNext(lib: Lib, o: Oracle, cr: CR, cl: Cluster): Core {
    var core := CoreOf(cr, cl);
    if StopsEarly(cr) then core.(initialised := true, finalizer := true)
    else if !Unblocked(lib, cr, cl) then core
    else
      var secret := Get(SecretsAfter(o, cr, cl), HorizonSecretKey(cr.key.ns));
      var hash := HashRead(lib, o, cr, cl);
      if StoredHash(cr) != Some(hash) then core.(secret := secret, hash := Some(hash))
      else core.(secret := secret, endpoint := EndpointNext(lib, cr, cl), lastTopology := LastNext(lib, cr, cl),
                 deployment := SpecNext(lib, cr, cl))
  }

  lemma AtGateReads(lib: Lib, o: Oracle, w: World, g: World, m: MemcachedObject)
    requires AtGate(lib, o, w, g) && MemcachedOf(w.cr, w.cl) == Some(m)
    ensures MemcachedOf(g.cr, g.cl) == Some(m)
    ensures EndpointNext(lib, g.cr, g.cl) == EndpointNext(lib, w.cr, w.cl)
    ensures LastNext(lib, g.cr, g.cl) == LastNext(lib, w.cr, w.cl)
    ensures SpecNext(lib, g.cr, g.cl) == SpecNext(lib, w.cr, w.cl)
  {
    hide AllVars, RbacInPlace, ConfigInPlace, SecretsAfter, TraceAfter, ConfigText, DesiredSpec;
    SameDescription(lib, {}, g.cr, w.cr, g.cl, w.cl, StoredHash(w.cr).GetOr(""), m);
  }

  lemma CalmNormal(lib: Lib, o: Oracle, w: World)
    requires Calm(o) && Works(w.cr)
    ensures var w' := Normal(lib, o, w).0; CoreOf(w'.cr, w'.cl) == CoreNext(lib, o, w.cr, w.cl)
  {
    hide BeforeGate, Rollout, AllVars, HashedVars, SecretsAfter, TraceAfter, ConfigText, RbacInPlace;
    hide ConfigInPlace, Unblocked;
    hide EndpointNext, LastNext, SpecNext, MemcachedOf;
    CalmGate(lib, o, w);
    ReachingTheGate(lib, o, w);
    NormalOnTheSame(lib, o, w);
    if Prepare(lib, o, w).Next? {
      var (g, hash, m) := Prepare(lib, o, w).value;
      AtGateReads(lib, o, w, g, m);
      CalmRollout(lib, o, g, hash, m);
    }
  }

  lemma StartCore(lib: Lib, o: Oracle, cr: CR, cl: Cluster)
    requires Works(cr)
    ensures CoreNext(lib, o, Start(cr, cl).cr, cl) == CoreNext(lib, o, cr, cl)
  {
    hide AllVars, MemcachedOf, ConfigText, DesiredSpec, HasValidSecret, MayWrite, MayDeploy, TopologyUsable;
    hide TopologySpec;
    var w := Start(cr, cl);
    StartReads(lib, cr, cl);
    StartWrites(lib, o, cr, cl);
    if AllVars(lib, cr, cl).Some? {
      InputsThere(lib, cr, cl);
      SameDescription(lib, {}, w.cr, cr, cl, cl, StoredHash(cr).GetOr(""), MemcachedOf(cr, cl).value);
    }
  }

  lemma StartWrites(lib: Lib, o: Oracle, cr: CR, cl: Cluster)
    ensures var w := Start(cr, cl);
      && MayPrepare(w.cr, cl) == MayPrepare(cr, cl) && SecretsAfter(o, w.cr, cl) == SecretsAfter(o, cr, cl)
      && MayDeploy(w.cr, cl) == MayDeploy(cr, cl) && TopologyUsable(w.cr, cl) == TopologyUsable(cr, cl)
      && TopologySpec(w.cr, cl) == TopologySpec(cr, cl)
  {
  }

  /** A calm pass over a resource that is not being deleted takes one step of `CoreNext`. */
  lemma CalmPass(lib: Lib, o: Oracle, cr: CR, cl: Cluster)
    requires Calm(o) && !cr.deleting
    ensures var out := Pass(lib, o, cr, cl); CoreOf(out.cr, out.cl) == CoreNext(lib, o, cr, cl)
  {
    hide Normal, ConditionsAt, Epilogue, CoreNext, AllVars;
    var (w, stop) := Body(lib, o, cr, cl);
    ReportIsNotEmpty(lib, o, w.cr, stop, cr.status.conditions);
    if Works(cr) {
      CalmNormal(lib, o, Start(cr, cl));
      StartCore(lib, o, cr, cl);
      NormalOnTheSame(lib, o, Start(cr, cl));
    } else {
      EarlyCore(lib, o, cr, cl);
    }
  }

  lemma EarlyCore(lib: Lib, o: Oracle, cr: CR, cl: Cluster)
    requires StopsEarly(cr)
    ensures CoreNext(lib, o, cr, cl) == CoreOf(cr, cl).(initialised := true, finalizer := true)
  {
  }

  // ---------- the environment ----------

  predicate MaySecure(cr: CR, cl: Cluster) {
    HasValidSecret(cl.secrets, cr.key.ns) || MayWriteSecret(cr, cl)
  }

  ghost predicate SameSpecs(a: Topologies, b: Topologies) {
    a.Keys == b.Keys && forall t | t in a :: b[t].spec == a[t].spec
  }

  ghost predicate SamePermissions(self: Key, a: Cluster, b: Cluster) {
    forall k :: MayWrite(a, k, self) == MayWrite(b, k, self)
  }

  /** The same specification, and the same of everything that passes over the resource do not make. */
  ghost predicate SameEnvironment(a: CR, acl: Cluster, b: CR, bcl: Cluster) {
    && b.key == a.key && b.spec == a.spec && b.deleting == a.deleting
    && bcl.memcacheds == acl.memcacheds && bcl.keystones == acl.keystones
    && bcl.keystoneServices == acl.keystoneServices && bcl.nads == acl.nads
    && (forall k | k != HorizonSecretKey(a.key.ns) :: Get(bcl.secrets, k) == Get(acl.secrets, k))
    && MaySecure(b, bcl) == MaySecure(a, acl)
    && SameSpecs(acl.topologies, bcl.topologies)
    && SamePermissions(a.key, acl, bcl)
    && MayDeploy(b, bcl) == MayDeploy(a, acl)
  }

  lemma EnsureOwnedPermits(o: Oracle, w: World, call: Call, k: OwnedKey, content: Content, p: Position)
    ensures var s := EnsureOwned(o, w, call, k, content, p);
      s.Next? ==> SamePermissions(w.cr.key, w.cl, s.value.cl)
  {
  }

  lemma RbacPermits(o: Oracle, w: World)
    ensures var s := Rbac(o, w);
      SamePermissions(w.cr.key, w.cl, if s.Next? then s.value.cl else s.world.cl)
  {
    hide EnsureOwned;
    EnsureOwnedPermits(o, w, PutServiceAccount, RbacKey(w.cr, ServiceAccountKind), Rules, AtServiceAccount);
    var s1 := EnsureOwned(o, w, PutServiceAccount, RbacKey(w.cr, ServiceAccountKind), Rules, AtServiceAccount);
    if s1.Next? {
      EnsureOwnedPermits(o, s1.value, PutRole, RbacKey(w.cr, RoleKind), Rules, AtRole);
      var s2 := EnsureOwned(o, s1.value, PutRole, RbacKey(w.cr, RoleKind), Rules, AtRole);
      if s2.Next? {
        EnsureOwnedPermits(o, s2.value, PutRoleBinding, RbacKey(w.cr, RoleBindingKind), Rules, AtRoleBinding);
      }
    }
  }

  lemma InputsPermit(lib: Lib, o: Oracle, w: World)
    ensures var s := Inputs(lib, o, w);
      SamePermissions(w.cr.key, w.cl, if s.Next? then s.value.0.cl else s.world.cl)
  {
    hide Rbac, SamePermissions;
    RbacPermits(o, w);
    assert SamePermissions(w.cr.key, w.cl, w.cl) by { Permitted(w.cr.key, w.cl); }
  }

  lemma Permitted(self: Key, cl: Cluster)
    ensures SamePermissions(self, cl, cl)
  {
  }

  lemma ConfigPermits(lib: Lib, o: Oracle, w: World, m: MemcachedObject, vars: Vars)
    ensures var s := ConfigMaps(lib, o, w, m, vars);
      SamePermissions(w.cr.key, w.cl, if s.Next? then s.value.0.cl else s.world.cl)
  {
    hide ConfigText;
  }

  lemma GatePermits(lib: Lib, o: Oracle, w: World)
    ensures var s := Prepare(lib, o, w);
      SamePermissions(w.cr.key, w.cl, if s.Next? then s.value.0.cl else s.world.cl)
  {
    hide Inputs, ConfigMaps, HorizonSecret, SamePermissions, ConfigInPlace, ConfigText, SecretsAfter, TraceAfter, HasValidSecret;
    InputsPermit(lib, o, w);
    var s := Inputs(lib, o, w);
    if s.Next? {
      var (w1, v1, m) := s.value;
      assert w1.cr == w.cr by { InputsMeaning(lib, o, w); RbacMeaning(o, w); }
      ConfigPermits(lib, o, w1, m, v1);
      var c := ConfigMaps(lib, o, w1, m, v1);
      PermitTransitive(w.cr.key, w.cl, w1.cl, if c.Next? then c.value.0.cl else c.world.cl);
      if c.Next? {
        var (w2, v2) := c.value;
        assert w2.cr == w.cr by { ConfigMeaning(lib, o, w1, m, v1); }
        SecretStage(lib, o, w2, v2);
        var h := HorizonSecret(lib, o, w2, v2);
        SameOwnedPermits(w.cr.key, w2.cl, if h.Next? then h.value.0.cl else h.world.cl);
        PermitTransitive(w.cr.key, w.cl, w2.cl, if h.Next? then h.value.0.cl else h.world.cl);
      }
    }
  }

  lemma PermitTransitive(self: Key, a: Cluster, b: Cluster, c: Cluster)
    requires SamePermissions(self, a, b) && SamePermissions(self, b, c)
    ensures SamePermissions(self, a, c)
  {
    hide MayWrite;
  }

  lemma SameOwnedPermits(self: Key, a: Cluster, b: Cluster)
    requires a.owned == b.owned
    ensures SamePermissions(self, a, b)
  {
  }

  // ---------- a pass keeps the environment ----------

  lemma DescribePermits(lib: Lib, o: Oracle, w: World, hash: string, m: MemcachedObject)
    ensures var s := Deploy(lib, o, w, hash, m);
      SamePermissions(w.cr.key, w.cl, if s.Next? then s.value.0.cl else s.world.cl)
  {
    hide EnabledServices, ServiceInit, EnsureTopology, Attachments, WriteDeployment, Desired;
    ServicesMeaning(o, w);
    ServicePermits(lib, o, w);
    var s := ServiceInit(lib, o, w);
    ServiceMeaning(lib, o, w);
    if s.Next? {
      AttachmentsKeep(lib, o, s.value);
      TopologyMeaning(o, s.value);
    }
    if Describe(lib, o, w, hash, m).Next? {
      var (w1, spec) := Describe(lib, o, w, hash, m).value;
      DeploymentMeaning(o, w1, spec);
    }
  }

  lemma AttachmentsKeep(lib: Lib, o: Oracle, w: World)
    ensures Attachments(lib, o, w).Halt? ==> Attachments(lib, o, w).world == w
  {
    hide FindNADs;
  }

  lemma ServicePermits(lib: Lib, o: Oracle, w: World)
    ensures var s := ServiceInit(lib, o, w);
      SamePermissions(w.cr.key, w.cl, if s.Next? then s.value.cl else s.world.cl)
  {
  }

  lemma RolloutPermits(lib: Lib, o: Oracle, w: World, hash: string, m: MemcachedObject)
    ensures SamePermissions(w.cr.key, w.cl, Rollout(lib, o, w, hash, m).0.cl)
  {
    hide Deploy, CheckNetwork, Verification, Checked;
    DescribePermits(lib, o, w, hash, m);
    var s := Deploy(lib, o, w, hash, m);
    if s.Next? {
      CheckMeaning(lib, o, s.value.0);
    }
  }

  lemma NormalPermits(lib: Lib, o: Oracle, w: World)
    ensures SamePermissions(w.cr.key, w.cl, Normal(lib, o, w).0.cl)
  {
    hide Prepare, Rollout;
    GatePermits(lib, o, w);
    if Prepare(lib, o, w).Next? {
      var (g, hash, m) := Prepare(lib, o, w).value;
      assert g.cr == w.cr by { GateMeaning(lib, o, w); }
      RolloutPermits(lib, o, g, hash, m);
    }
  }

  lemma NormalMayDeploy(lib: Lib, o: Oracle, w: World)
    ensures MayDeploy(w.cr, Normal(lib, o, w).0.cl) == MayDeploy(w.cr, w.cl)
  {
    hide Normal, Prepare, Continues, HashRead, AllVars, RbacInPlace, ConfigInPlace;
    NormalMeaning(lib, o, w);
    GateMeaning(lib, o, w);
    if Prepare(lib, o, w).Next? {
      var (g, hash, m) := Prepare(lib, o, w).value;
      ContinuesMayDeploy(lib, o, g, m, Normal(lib, o, w).0, Normal(lib, o, w).1);
    }
  }

  lemma ContinuesMayDeploy(lib: Lib, o: Oracle, g: World, m: MemcachedObject, w: World, stop: Stop)
    requires Continues(lib, o, g, m, w, stop)
    ensures MayDeploy(g.cr, w.cl) == MayDeploy(g.cr, g.cl)
  {
    hide DesiredSpec, Verification, TopologiesHeld, TopologiesLeft, TopologyCalls, Checked, Deployed;
  }

  lemma HandoverKeepsSpecs(cr: CR, ts: Topologies, h: Handover)
    ensures SameSpecs(ts, TopologiesAfter(cr, ts, h))
  {
  }

  lemma PreparedSecret(cr: CR, cl: Cluster)
    requires MayPrepare(cr, cl)
    ensures MaySecure(cr, cl)
  {
  }

  lemma IdleSecrets(lib: Lib, o: Oracle, cr: CR, cl: Cluster)
    requires !Works(cr)
    ensures Pass(lib, o, cr, cl).cl.secrets == cl.secrets
  {
    hide Normal, Report, Delete;
    DeleteSecrets(o, Start(cr, cl));
  }

  /** The secret is written only by a resource that may write it. */
  lemma SecretChange(lib: Lib, o: Oracle, cr: CR, cl: Cluster)
    requires Pass(lib, o, cr, cl).cl.secrets != cl.secrets
    ensures MaySecure(cr, cl)
  {
    hide Normal, Delete, BeforeGate, SecretsAfter, TraceAfter, Report, MayPrepare, MaySecure;
    if Works(cr) {
      NormalSecrets(lib, o, Start(cr, cl));
      GateMeansMayPrepare(lib, o, Start(cr, cl));
      StartWrites(lib, o, cr, cl);
      PreparedSecret(cr, cl);
    } else {
      IdleSecrets(lib, o, cr, cl);
    }
  }

  lemma SecretsKept(lib: Lib, o: Oracle, cr: CR, cl: Cluster)
    ensures var out := Pass(lib, o, cr, cl);
      && (forall k | k != HorizonSecretKey(cr.key.ns) :: Get(out.cl.secrets, k) == Get(cl.secrets, k))
      && MaySecure(cr, out.cl) == MaySecure(cr, cl)
  {
    hide Pass, BeforeGate;
    SecretIsStable(lib, o, cr, cl);
    if Pass(lib, o, cr, cl).cl.secrets != cl.secrets {
      SecretChange(lib, o, cr, cl);
    }
  }

  /** No pass, calm or not, changes the environment of its own resource. */
  lemma PassKeepsEnvironment(lib: Lib, o: Oracle, cr: CR, cl: Cluster)
    requires !cr.deleting
    ensures var out := Pass(lib, o, cr, cl); SameEnvironment(cr, cl, out.cr, out.cl)
  {
    hide Body, Pass, MayDeploy, SamePermissions, SameSpecs, HandsOver, TopologiesAfter, HasValidSecret;
    PassFrame(lib, o, cr, cl);
    SecretsKept(lib, o, cr, cl);
    var h := BodyHandsOver(lib, o, cr, cl);
    LastOf(lib, o, cr, cl, h);
    HandoverKeepsSpecs(cr, cl.topologies, h);
    PassPermits(lib, o, cr, cl);
  }

  lemma PassPermits(lib: Lib, o: Oracle, cr: CR, cl: Cluster)
    requires !cr.deleting
    ensures var out := Pass(lib, o, cr, cl);
      SamePermissions(cr.key, cl, out.cl) && MayDeploy(out.cr, out.cl) == MayDeploy(cr, cl)
  {
    hide Normal, SamePermissions, Report;
    PassFrame(lib, o, cr, cl);
    if Works(cr) {
      NormalPermits(lib, o, Start(cr, cl));
      NormalMayDeploy(lib, o, Start(cr, cl));
    } else {
      Permitted(cr.key, cl);
    }
  }

  // ---------- what the environment determines ----------

  lemma EnvironmentDetermines(lib: Lib, a: CR, acl: Cluster, b: CR, bcl: Cluster)
    requires SameEnvironment(a, acl, b, bcl)
    ensures MemcachedOf(a, acl) == MemcachedOf(b, bcl)
    ensures MayPrepare(a, acl) == MayPrepare(b, bcl) && MayDeploy(a, acl) == MayDeploy(b, bcl)
    ensures Serviceable(lib, a, acl) == Serviceable(lib, b, bcl) && TopologyUsable(a, acl) == TopologyUsable(b, bcl)
    ensures TopologySpec(a, acl) == TopologySpec(b, bcl) && a.TopologyRef() == b.TopologyRef()
  {
    hide MayDeploy;
    assert RbacKey(a, RoleKind) == RbacKey(b, RoleKind);
  }

  /** None of the input secrets is the Horizon secret itself. */
  predicate SeparateSecrets(spec: Spec) {
    Volumes.SERVICE_NAME !in {spec.secret, spec.tls.caBundleSecretName, spec.tls.secretName.GetOr("")}
  }

  /** In every role in which the specification uses the Horizon secret as an input, two of them count the same. */
  predicate SameRoles(lib: Lib, spec: Spec, x: Option<Secret>, y: Option<Secret>) {
    || SeparateSecrets(spec)
    || (&& x.Some? == y.Some?
        && (x.Some? ==>
            && (spec.secret == Volumes.SERVICE_NAME ==> lib.secretHash(x.value.data) == lib.secretHash(y.value.data))
            && (spec.tls.caBundleSecretName == Volumes.SERVICE_NAME ==> lib.caHash(x.value.data) == lib.caHash(y.value.data))
            && (spec.tls.secretName.GetOr("") == Volumes.SERVICE_NAME ==>
                lib.certHash(x.value.data) == lib.certHash(y.value.data))))
  }

  function HorizonSecretOf(cr: CR, cl: Cluster): Option<Secret> {
    Get(cl.secrets, HorizonSecretKey(cr.key.ns))
  }

  lemma RolesDecide(lib: Lib, a: CR, acl: Cluster, b: CR, bcl: Cluster)
    requires b.key == a.key && b.spec == a.spec
    requires forall n | n != Volumes.SERVICE_NAME :: SecretOf(a, acl, n) == SecretOf(b, bcl, n)
    requires SameRoles(lib, a.spec, SecretOf(a, acl, Volumes.SERVICE_NAME), SecretOf(b, bcl, Volumes.SERVICE_NAME))
    ensures OpenStackVars(lib, a, acl) == OpenStackVars(lib, b, bcl)
    ensures CAVars(lib, a, acl) == CAVars(lib, b, bcl) && CertVars(lib, a, acl) == CertVars(lib, b, bcl)
  {
    hide SecretOf;
  }

  lemma InputsAgree(lib: Lib, a: CR, acl: Cluster, b: CR, bcl: Cluster)
    requires SameEnvironment(a, acl, b, bcl) && a.status.endpoint == b.status.endpoint
    requires SameRoles(lib, a.spec, HorizonSecretOf(a, acl), HorizonSecretOf(b, bcl))
    ensures AllVars(lib, a, acl) == AllVars(lib, b, bcl)
  {
    hide OpenStackVars, CAVars, CertVars, MemcachedOf, MayPrepare, MayDeploy, SamePermissions, SameRoles;
    EnvironmentDetermines(lib, a, acl, b, bcl);
    RolesDecide(lib, a, acl, b, bcl);
  }

  // ---------- the measure ----------

  predicate HashStale(lib: Lib, cr: CR, cl: Cluster)
    requires AllVars(lib, cr, cl).Some?
  {
    StoredHash(cr) != Some(lib.objectHash(AllVars(lib, cr, cl).value))
  }

  predicate Behind(lib: Lib, cr: CR, cl: Cluster) {
    || LastNext(lib, cr, cl) != cr.status.lastAppliedTopology
    || (MemcachedOf(cr, cl).Some? && SpecNext(lib, cr, cl) != SpecIn(cl, cr.key.ns))
  }

  /** How far a resource is from settling; a blocked resource has settled where it is. */
  function Distance(lib: Lib, cr: CR, cl: Cluster): nat {
    if StopsEarly(cr) then 6
    else if !Unblocked(lib, cr, cl) then 0
    else if !HasValidSecret(cl.secrets, cr.key.ns) then 5
    else if EndpointNext(lib, cr, cl) != cr.status.endpoint then (if HashStale(lib, cr, cl) then 4 else 3)
    else if HashStale(lib, cr, cl) then 2
    else if Behind(lib, cr, cl) then 1
    else 0
  }

  lemma PlaceAgrees(lib: Lib, a: CR, acl: Cluster, b: CR, bcl: Cluster)
    requires SameEnvironment(a, acl, b, bcl)
    ensures b.status.endpoint == a.status.endpoint || b.status.endpoint == EndpointNext(lib, a, acl)
        ==> EndpointNext(lib, b, bcl) == EndpointNext(lib, a, acl)
    ensures (|| b.status.lastAppliedTopology == a.status.lastAppliedTopology
             || b.status.lastAppliedTopology == LastNext(lib, a, acl))
        ==> LastNext(lib, b, bcl) == LastNext(lib, a, acl)
  {
    hide SameEnvironment, Serviceable, TopologyUsable, MayPrepare, MayDeploy, MemcachedOf;
    EnvironmentDetermines(lib, a, acl, b, bcl);
    assert a.key == b.key && a.spec == b.spec by { SameUser(a, acl, b, bcl); }
  }

  lemma SameUser(a: CR, acl: Cluster, b: CR, bcl: Cluster)
    requires SameEnvironment(a, acl, b, bcl)
    ensures a.key == b.key && a.spec == b.spec && a.deleting == b.deleting
    ensures acl.nads == bcl.nads && acl.keystoneServices == bcl.keystoneServices
  {
  }

  lemma SpecAgrees(lib: Lib, a: CR, acl: Cluster, b: CR, bcl: Cluster)
    requires SameEnvironment(a, acl, b, bcl) && MemcachedOf(a, acl).Some? && StoredHash(a) == StoredHash(b)
    ensures MemcachedOf(b, bcl).Some?
    ensures SpecIn(bcl, b.key.ns) == SpecIn(acl, a.key.ns) || SpecIn(bcl, b.key.ns) == SpecNext(lib, a, acl)
        ==> SpecNext(lib, b, bcl) == SpecNext(lib, a, acl)
  {
    hide SameEnvironment, Serviceable, TopologyUsable, MayPrepare, MayDeploy, MemcachedOf, DesiredSpec;
    EnvironmentDetermines(lib, a, acl, b, bcl);
    SameUser(a, acl, b, bcl);
    SameDescription(lib, {}, a, b, acl, bcl, StoredHash(a).GetOr(""), MemcachedOf(a, acl).value);
  }

  /** The steps behind the creation of the secret. */
  lemma NearerBehind(lib: Lib, o: Oracle, a: CR, acl: Cluster, b: CR, bcl: Cluster)
    requires SameEnvironment(a, acl, b, bcl) && !StopsEarly(a) && !StopsEarly(b) && Unblocked(lib, a, acl)
    requires HasValidSecret(acl.secrets, a.key.ns) && HasValidSecret(bcl.secrets, b.key.ns)
    requires CoreOf(b, bcl) == CoreNext(lib, o, a, acl) && CoreOf(a, acl).secret == CoreOf(b, bcl).secret
    ensures var d := Distance(lib, a, acl);
      && (d > 0 ==> Distance(lib, b, bcl) < d)
      && (d == 0 ==> Distance(lib, b, bcl) == 0 && CoreOf(b, bcl) == CoreOf(a, acl))
  {
    hide AllVars, MemcachedOf, SpecNext, LastNext, EndpointNext, HasValidSecret, SameEnvironment;
    hide SecretsAfter, MayPrepare, SpecIn;
    InputsThere(lib, a, acl);
    PlaceAgrees(lib, a, acl, b, bcl);
    if HashStale(lib, a, acl) || EndpointNext(lib, a, acl) == a.status.endpoint {
      StaysUnblocked(lib, a, acl, b, bcl);
    }
    if !HashStale(lib, a, acl) {
      SpecAgrees(lib, a, acl, b, bcl);
    }
  }

  /** A calm pass comes nearer, or has nothing left to settle. */
  lemma PassComesNearer(lib: Lib, o: Oracle, cr: CR, cl: Cluster)
    requires Calm(o) && !cr.deleting
    ensures var out, d := Pass(lib, o, cr, cl), Distance(lib, cr, cl);
      && (d > 0 ==> Distance(lib, out.cr, out.cl) < d)
      && (d == 0 ==> Distance(lib, out.cr, out.cl) == 0 && CoreOf(out.cr, out.cl) == CoreOf(cr, cl))
  {
    hide Pass, Unblocked, AllVars, MemcachedOf, SpecNext, LastNext, EndpointNext, HasValidSecret;
    hide SameEnvironment, SecretsAfter;
    CalmPass(lib, o, cr, cl);
    PassKeepsEnvironment(lib, o, cr, cl);
    var out := Pass(lib, o, cr, cl);
    SameUser(cr, cl, out.cr, out.cl);
    if StopsEarly(cr) {
    } else if !Unblocked(lib, cr, cl) {
      StaysUnblocked(lib, cr, cl, out.cr, out.cl);
    } else if !HasValidSecret(cl.secrets, cr.key.ns) {
      NewSecretIsValid(o, cr, cl);
      SameSecret(cr, SecretsAfter(o, cr, cl), out.cl.secrets);
    } else {
      NewSecretIsValid(o, cr, cl);
      SameSecret(cr, cl.secrets, out.cl.secrets);
      NearerBehind(lib, o, cr, cl, out.cr, out.cl);
    }
  }

  lemma SameSecret(cr: CR, a: map<Key, Secret>, b: map<Key, Secret>)
    requires Get(a, HorizonSecretKey(cr.key.ns)) == Get(b, HorizonSecretKey(cr.key.ns))
    ensures HasValidSecret(a, cr.key.ns) == HasValidSecret(b, cr.key.ns)
  {
  }

  lemma StaysUnblocked(lib: Lib, a: CR, acl: Cluster, b: CR, bcl: Cluster)
    requires SameEnvironment(a, acl, b, bcl) && CoreOf(a, acl).endpoint == CoreOf(b, bcl).endpoint
    requires CoreOf(a, acl).secret == CoreOf(b, bcl).secret
    ensures Unblocked(lib, a, acl) == Unblocked(lib, b, bcl) && AllVars(lib, a, acl) == AllVars(lib, b, bcl)
  {
    hide AllVars, MayPrepare, SameEnvironment;
    SameUser(a, acl, b, bcl);
    EnvironmentDetermines(lib, a, acl, b, bcl);
    InputsAgree(lib, a, acl, b, bcl);
  }

  // ---------- six passes ----------

  /** The resource and the cluster after a sequence of passes. */
  function After(lib: Lib, os: seq<Oracle>, cr: CR, cl: Cluster): (CR, Cluster) {
    if os == [] then (cr, cl)
    else
      var out := Pass(lib, os[0], cr, cl);
      After(lib, os[1..], out.cr, out.cl)
  }

  ghost predicate AllCalm(os: seq<Oracle>) {
    forall o | o in os :: Calm(o)
  }

  lemma {:induction false} AfterAppend(lib: Lib, os: seq<Oracle>, more: seq<Oracle>, cr: CR, cl: Cluster)
    ensures After(lib, os + more, cr, cl) == After(lib, more, After(lib, os, cr, cl).0, After(lib, os, cr, cl).1)
  {
    hide Pass;
    if os == [] {
      assert os + more == more;
    } else {
      var out := Pass(lib, os[0], cr, cl);
      AfterAppend(lib, os[1..], more, out.cr, out.cl);
      assert (os + more)[1..] == os[1..] + more;
    }
  }

  /** A run of calm passes that is long enough settles, and a settled resource stays as it is. */
  lemma {:induction false} RunsSettle(lib: Lib, os: seq<Oracle>, cr: CR, cl: Cluster)
    requires AllCalm(os) && !cr.deleting && Distance(lib, cr, cl) <= |os|
    ensures var (cr', cl') := After(lib, os, cr, cl);
      && Distance(lib, cr', cl') == 0 && !cr'.deleting
      && (Distance(lib, cr, cl) == 0 ==> CoreOf(cr', cl') == CoreOf(cr, cl))
  {
    hide Pass, Distance;
    if os != [] {
      var out := Pass(lib, os[0], cr, cl);
      PassComesNearer(lib, os[0], cr, cl);
      PassFrame(lib, os[0], cr, cl);
      RunsSettle(lib, os[1..], out.cr, out.cl);
    }
  }

  /**
    From any persisted state of a resource that is not being deleted, six calm passes reach a state
    whose finalizer, secret, input hash, endpoint, topology and Deployment no further pass changes.
    */
  lemma SixPassesSuffice(lib: Lib, os: seq<Oracle>, more: seq<Oracle>, cr: CR, cl: Cluster)
    requires |os| == 6 && AllCalm(os) && AllCalm(more) && !cr.deleting
    ensures var (cr', cl'), (cr'', cl'') := After(lib, os, cr, cl), After(lib, os + more, cr, cl);
      CoreOf(cr'', cl'') == CoreOf(cr', cl')
  {
    hide After, CoreOf;
    RunsSettle(lib, os, cr, cl);
    var (cr', cl') := After(lib, os, cr, cl);
    RunsSettle(lib, more, cr', cl');
    AfterAppend(lib, os, more, cr, cl);
  }

  lemma EnvironmentReflexive(cr: CR, cl: Cluster)
    ensures SameEnvironment(cr, cl, cr, cl)
  {
  }

  lemma EnvironmentTransitive(a: CR, acl: Cluster, b: CR, bcl: Cluster, c: CR, ccl: Cluster)
    requires SameEnvironment(a, acl, b, bcl) && SameEnvironment(b, bcl, c, ccl)
    ensures SameEnvironment(a, acl, c, ccl)
  {
    hide MayWrite, MaySecure, MayDeploy;
  }

  lemma EnvironmentSymmetric(a: CR, acl: Cluster, b: CR, bcl: Cluster)
    requires SameEnvironment(a, acl, b, bcl)
    ensures SameEnvironment(b, bcl, a, acl)
  {
    hide MayWrite, MaySecure, MayDeploy;
  }

  lemma {:induction false} RunsKeepTheEnvironment(lib: Lib, os: seq<Oracle>, cr: CR, cl: Cluster)
    requires !cr.deleting
    ensures SameEnvironment(cr, cl, After(lib, os, cr, cl).0, After(lib, os, cr, cl).1)
  {
    hide Pass, SameEnvironment;
    if os == [] {
      EnvironmentReflexive(cr, cl);
    } else {
      var out := Pass(lib, os[0], cr, cl);
      PassFrame(lib, os[0], cr, cl);
      PassKeepsEnvironment(lib, os[0], cr, cl);
      RunsKeepTheEnvironment(lib, os[1..], out.cr, out.cl);
      EnvironmentTransitive(cr, cl, out.cr, out.cl, After(lib, os, cr, cl).0, After(lib, os, cr, cl).1);
    }
  }
}
