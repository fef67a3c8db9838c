/** Concrete clusters and runs that show which promises the reconciler does not keep, and why. */
module Examples {
  import opened Wrappers
  import opened Conditions
  import opened Api
  import opened Clusters
  import opened Passes
  import opened Reading
  import opened Facts
  import opened Safety
  import opened Steadiness
  import opened Quiet
  import opened Watches
  import opened Runs
  import opened TopologyProtocol
  import opened Wakeups
  import opened Convergence
  import opened Changes
  import opened Confluence
  import opened Checklist
  import opened Outcomes
  import Volumes
  import Pods

  // ---------- a small cluster ----------

  const SELF := Key("ns", "horizon")

  const SPEC := Spec("", None, map[], "", "", None, TLS(None, ""), 0, "passwords", "memcached", [], ["net"], None)

  const CACHE := MemcachedObject(true, "", false, Pods.MTLS("", []))

  const HOME := "http://dashboard"

  const MINE := Some(SELF)

  /** A library that renders the endpoint into the configuration and cannot parse "%". */
  function LIB(): Lib {
    Lib(d => Get(d, SECRET_KEY_FIELD).GetOr(""), d => None, d => None, t => t,
        m => Get(m, Volumes.SERVICE_NAME).GetOr("") + Get(m, "horizon-config-data").GetOr(""),
        (p: TemplateParameters, c) => p.horizonEndpoint, "scripts",
        u => if u == "%" then None else Some(Url("http", "dashboard")),
        (k: Key, s: Spec) => Some(s.serviceEndpointURL.GetOr(HOME)),
        nads => if nads == [] then map[] else map["networks" := "net"],
        (n, p, r) => (true, ""), (v, s) => [v], cs => InitDetail)
  }

  function Secrets(key: Secret): map<Key, Secret> {
    map[Key("ns", "passwords") := Secret(map[], None), HorizonSecretKey("ns") := key]
  }

  function Objects(key: Secret, deployments: map<Key, DeploymentObject>): Cluster {
    Cluster(
      map[], Secrets(key),
      map[Key("ns", "memcached") := CACHE],
      map["ns" := Some("http://keystone")],
      {},
      map[Key("ns", "net") := "config"],
      map[],
      map[OwnedKey(ServiceAccountKind, Key("ns", "horizon-horizon")) := Owned(Rules, MINE),
          OwnedKey(RoleKind, Key("ns", "horizon-horizon")) := Owned(Rules, MINE),
          OwnedKey(RoleBindingKind, Key("ns", "horizon-horizon")) := Owned(Rules, MINE),
          OwnedKey(ConfigMapKind, Key("ns", "horizon-config-data")) := Owned(Text(HOME), MINE),
          OwnedKey(ConfigMapKind, Key("ns", "horizon-scripts")) := Owned(Text("scripts"), MINE),
          ServiceKey("ns") := Owned(Ports(Pods.HORIZON_SVC_PORT, Pods.HORIZON_PORT), MINE)],
      deployments,
      map[])
  }

  const KEY := Secret(map[SECRET_KEY_FIELD := "key"], MINE)

  /** A Horizon secret without a key. */
  const BLANK := Secret(map[], None)

  function Instance(spec: Spec, conditions: Conditions): CR {
    CR(SELF, 1, false, true, false, spec, Status(conditions, map[INPUT_HASH_NAME := HOME], HOME, 0, 1, "", None))
  }

  /** A specification that reads its inputs as `SPEC` does. */
  predicate Plain(spec: Spec) {
    spec.memcachedInstance == "memcached" && spec.tls.secretName.None? && spec.replicas == 0
  }

  lemma WhatIsThere(key: Secret, d: map<Key, DeploymentObject>)
    ensures var cl := Objects(key, d);
      && cl.secrets == Secrets(key)
      && Get(cl.secrets, Key("ns", "passwords")) == Some(Secret(map[], None))
      && Get(cl.secrets, HorizonSecretKey("ns")) == Some(key)
      && Get(cl.memcacheds, Key("ns", "memcached")) == Some(CACHE)
      && Get(cl.keystones, "ns") == Some(Some("http://keystone"))
      && cl.nads == map[Key("ns", "net") := "config"]
      && cl.deployments == d && cl.keystoneServices == {} && cl.topologies == map[] && cl.horizons == map[]
  {
    assert "passwords"[0] != "horizon"[0];
  }

  lemma WhatIsNamed(cr: CR)
    requires cr.key == SELF
    ensures RbacResourceName(cr.key) == "horizon-horizon"
    ensures ConfigDataName(cr) == "horizon-config-data" && ScriptsName(cr) == "horizon-scripts"
    ensures |"horizon-config-data"| == 19 && |"horizon-scripts"| == 15
  {
  }

  lemma WhatIsOwned(key: Secret, d: map<Key, DeploymentObject>, cr: CR)
    requires cr.key == SELF && Plain(cr.spec)
    ensures RbacInPlace(cr, Objects(key, d)) && ConfigInPlace(LIB(), cr, Objects(key, d), HOME)
    ensures IsOwned(Objects(key, d), ServiceKey("ns"), ServicePorts(cr.spec), SELF)
  {
    WhatIsNamed(cr);
    hide LIB, RbacResourceName, ConfigDataName, ScriptsName;
    assert LIB().scripts == "scripts" by { WhatIsCalled(); }
  }

  lemma WhatIsCalled()
    ensures LIB().scripts == "scripts" && LIB().apiEndpoint(SELF, SELFISH) == Some(HOME)
    ensures LIB().parseUrl(HOME).Some? && LIB().parseUrl("%").None?
  {
    assert HOME[0] != "%"[0];
  }

  lemma WhatIsRead(key: Secret, d: map<Key, DeploymentObject>, cr: CR)
    requires cr.key == SELF && Plain(cr.spec) && cr.spec.secret == "passwords" && cr.status.endpoint != "%"
    requires cr.spec.tls.caBundleSecretName == ""
    ensures MemcachedOf(cr, Objects(key, d)) == Some(CACHE)
    ensures ConfigText(LIB(), cr, Objects(key, d), CACHE) == Some(cr.status.endpoint)
    ensures AllVars(LIB(), cr, Objects(key, d)).Some?
    ensures LIB().objectHash(AllVars(LIB(), cr, Objects(key, d)).value) == cr.status.endpoint
  {
    hide Objects;
    WhatIsThere(key, d);
    WhatIsNamed(cr);
    hide ConfigDataName, ScriptsName;
    var vars := AllVars(LIB(), cr, Objects(key, d)).value;
    assert |"passwords"| == 9 && |Volumes.SERVICE_NAME| == 7;
    assert Volumes.SERVICE_NAME !in vars && vars["horizon-config-data"] == cr.status.endpoint;
  }

  /** The Deployment that a pass writes when the calls in `fail` do not succeed. */
  function Deploys(fail: set<Call>, cr: CR): map<Key, DeploymentObject> {
    var spec := DesiredSpec(LIB(), fail, cr, Objects(KEY, map[]), HOME, CACHE);
    map[DeploymentKey("ns") := DeploymentObject(spec, MINE, 1, 1, 0, 0)]
  }

  lemma WhatIsReplicated(fail: set<Call>, cr: CR)
    requires Plain(cr.spec)
    ensures Deploys(fail, cr)[DeploymentKey("ns")].IsReady()
  {
    hide Objects, Pods.PodVolumes, Pods.PodMounts, Pods.EnvVars, Annotations, ServicesOf, TopologySpec;
  }

  lemma WhatIsReferred(cr: CR, cl: Cluster)
    requires cr.spec.topologyRef == None
    ensures TopologySpec(cr, cl) == None
  {
  }

  lemma WhatIsWritten(fail: set<Call>, key: Secret, cr: CR, d: map<Key, DeploymentObject>)
    requires cr.spec.topologyRef == None
    ensures DesiredSpec(LIB(), fail, cr, Objects(key, d), HOME, CACHE)
         == DesiredSpec(LIB(), fail, cr, Objects(KEY, map[]), HOME, CACHE)
  {
    hide Objects, DesiredSpec, TopologySpec;
    WhatIsThere(key, d);
    WhatIsThere(KEY, map[]);
    WhatIsReferred(cr, Objects(key, d));
    WhatIsReferred(cr, Objects(KEY, map[]));
    SameDescription(LIB(), fail, cr, cr, Objects(key, d), Objects(KEY, map[]), HOME, CACHE);
  }

  /** With the Deployment of such a pass in it the cluster is steady for such passes. */
  lemma DeployedIsComplete(fail: set<Call>, key: Secret, cr: CR, conditions: Conditions)
    requires cr == Instance(SPEC, conditions) && conditions != map[] && ValidHorizonSecret(key)
    ensures Complete(LIB(), fail, cr, Objects(key, Deploys(fail, cr)))
    ensures Steady(LIB(), fail, cr, Objects(key, Deploys(fail, cr)))
    ensures SteadyStop(LIB(), cr, Objects(key, Deploys(fail, cr))) == EndStop
  {
    hide DesiredSpec, Objects, RbacInPlace, ConfigInPlace, MemcachedOf, AllVars, ConfigText, WaitsForTLS, TopologySpec;
    hide DeploymentObject.IsReady;
    var d := Deploys(fail, cr);
    WhatIsThere(key, d);
    WhatIsOwned(key, d, cr);
    WhatIsRead(key, d, cr);
    WhatIsWritten(fail, key, cr, d);
    WhatIsReplicated(fail, cr);
    NotWaiting(LIB(), cr, Objects(key, d));
  }

  /** The conditions with which a pass over the instance ends that stops there. */
  function StopConditions(spec: Spec, o: Oracle, stop: Stop): Conditions {
    Epilogue(LIB(), o, ConditionsAt(o, Instance(spec, map[]), stop), map[])
  }

  function EndConditions(spec: Spec, o: Oracle): Conditions {
    StopConditions(spec, o, EndStop)
  }

  lemma StopConditionsConclude(spec: Spec, o: Oracle, stop: Stop)
    requires o.stray == map[]
    ensures var cr := Instance(spec, StopConditions(spec, o, stop));
      && cr.status.conditions == Epilogue(LIB(), o, ConditionsAt(o, cr, stop), map[])
      && cr.status.conditions != map[] && Concluded(LIB(), cr, stop)
      && forall o2: Oracle | o2.stray == map[] :: KeepsStray(o2, cr, stop)
  {
    hide ConditionsAt, Epilogue, KeepsStray;
    var a, b := Instance(spec, map[]), Instance(spec, StopConditions(spec, o, stop));
    ReportIsNotEmpty(LIB(), o, a, stop, map[]);
    SameConditionsAt(o, a, b, stop);
    NothingStray(LIB(), o, b, stop, map[]);
  }

  lemma EndConditionsRepeat(o: Oracle)
    requires o.stray == map[]
    ensures EndConditions(SPEC, o) != map[]
    ensures var cr := Instance(SPEC, EndConditions(SPEC, o));
      Report(LIB(), o, cr, EndStop, EndConditions(SPEC, o)) == cr && Concluded(LIB(), cr, EndStop)
  {
    hide ConditionsAt, Epilogue;
    var cr := Instance(SPEC, EndConditions(SPEC, o));
    StopConditionsConclude(SPEC, o, EndStop);
    SameConditions(LIB(), o, o, cr, EndStop, map[]);
    EndIsReadyIff(LIB(), o, cr, map[]);
  }

  /** Where `Init` leaves nothing, nothing is left of what it does not list. */
  lemma NothingStray(lib: Lib, o: Oracle, cr: CR, stop: Stop, saved: Conditions)
    requires o.stray == map[] && cr.status.conditions == Epilogue(lib, o, ConditionsAt(o, cr, stop), saved)
    ensures forall o2: Oracle | o2.stray == map[] :: KeepsStray(o2, cr, stop)
  {
    hide ConditionsAt, Epilogue, IsPassed;
    forall t | !Listed(t) && !Decided(cr, stop, t)
      ensures t !in cr.status.conditions
    {
      LookupAt(o, cr, stop, t);
      EpilogueAt(lib, o, ConditionsAt(o, cr, stop), saved, t);
    }
  }

  // ---------- an attachment that could not be read ----------

  /**
    A swallowed wakeup: the attachment exists, but the pass that the watch triggered could not read
    it. The pass ends without an error and without a change, so nothing brings the resource back,
    although its pods lack the attachment and a calm pass would have something to do.
    */
  lemma SwallowedWakeup(o: Oracle, o2: Oracle)
    requires o.fail == {GetNAD("net")} && o.wait == {} && o.stray == map[] && Calm(o2)
    ensures var cr := Instance(SPEC, EndConditions(SPEC, o));
      var cl := Objects(KEY, Deploys(o.fail, cr));
      && Unnoticed(LIB(), o, cr, cl) && Pass(LIB(), o, cr, cl).cl == cl
      && (!IsQuiet(LIB(), o2, cr, cl) || Pass(LIB(), o2, cr, cl).ctl != Done)
  {
    hide Body, Objects, Deploys, EndConditions, Steady, Complete, Wakes, Report, LIB, Concluded;
    var cr := Instance(SPEC, EndConditions(SPEC, o));
    var cl := Objects(KEY, Deploys(o.fail, cr));
    EndConditionsRepeat(o);
    DeployedIsComplete(o.fail, KEY, cr, EndConditions(SPEC, o));
    SteadyIsKept(LIB(), o, cr, cl);
    SameClusterWakesNobody(cr, cl);
    AttachmentsDiffer(o, cr);
    UnnoticedIsSteadyIff(LIB(), o, cr, cl);
    UnsteadyIsNotQuiet(LIB(), o2, cr, cl);
  }

  lemma AttachmentsDiffer(o: Oracle, cr: CR)
    requires o.fail == {GetNAD("net")} && cr.key == SELF && cr.spec == SPEC
    ensures !AttachmentsAgree(LIB(), o, cr, Objects(KEY, Deploys(o.fail, cr)))
  {
    hide Objects, Deploys;
    var cl := Objects(KEY, Deploys(o.fail, cr));
    WhatIsThere(KEY, Deploys(o.fail, cr));
    assert ["net"][..0] == [];
    assert FindNADs({}, cl.nads, "ns", []) == AllFound([]);
    assert FindNADs({}, cl.nads, "ns", ["net"]) == AllFound(["config"]);
    assert FindNADs(o.fail, cl.nads, "ns", []) == AllFound([]);
    assert FindNADs(o.fail, cl.nads, "ns", ["net"]) == Unreadable;
    assert "networks" in LIB().networksAnnotation(["config"]);
  }

  /**
    A Ready resource that is not quiet, although its secret is valid and its endpoint the stored one:
    the pass that found it Ready could not read the attachment.
    */
  lemma UnreadReady(o1: Oracle, o2: Oracle, conditions: Conditions)
    requires o1.fail == {GetNAD("net")} && o1.wait == {} && o1.stray == map[] && Calm(o2) && conditions != map[]
    ensures var cr := Instance(SPEC, conditions);
      var cl := Objects(KEY, Deploys(o1.fail, cr));
      var out := Pass(LIB(), o1, cr, cl);
      && Is(out.cr.status.conditions, Ready, IsTrue) && out.ctl == Done
      && HasValidSecret(cl.secrets, "ns") && LIB().apiEndpoint(cr.key, cr.spec) == Some(cr.status.endpoint)
      && !IsQuiet(LIB(), o2, out.cr, out.cl)
  {
    hide Body, Objects, Deploys, Steady, Configured, RolledOut, Settles, NetworkVerified, SteadyStop, ConditionsAt, Epilogue;
    hide AttachmentsAgree, IsQuiet, HasValidSecret, LIB;
    var cr := Instance(SPEC, conditions);
    var cl := Objects(KEY, Deploys(o1.fail, cr));
    DeployedIsComplete(o1.fail, KEY, cr, conditions);
    CompleteHasSecret(LIB(), o1.fail, cr, cl);
    SteadyIsKept(LIB(), o1, cr, cl);
    EndIsReadyIff(LIB(), o1, cr, conditions);
    AttachmentsDiffer(o1, cr);
    if IsQuiet(LIB(), o2, Pass(LIB(), o1, cr, cl).cr, Pass(LIB(), o1, cr, cl).cl) {
      QuietMeansAgree(LIB(), o1, o2, cr, cl);
      assert false;
    }
  }

  lemma CompleteHasSecret(lib: Lib, fail: set<Call>, cr: CR, cl: Cluster)
    requires Complete(lib, fail, cr, cl)
    ensures HasValidSecret(cl.secrets, cr.key.ns) && lib.apiEndpoint(cr.key, cr.spec) == Some(cr.status.endpoint)
  {
  }

  // ---------- a resource that waits and is never at rest ----------

  /** A specification whose CA bundle nobody has created. */
  const WAITING := SPEC.(tls := TLS(None, "bundle"))

  const WaitStop := Stop(AtTLS, Some(Detail(ErrorReason, Warning, WaitingMessage("bundle"))), Done)

  lemma WaitingIsSettled(o: Oracle)
    requires o.stray == map[]
    ensures var cr := Instance(WAITING, StopConditions(WAITING, o, WaitStop));
      var cl := Objects(KEY, map[]);
      Settled(LIB(), cr, cl) && SteadyStop(LIB(), cr, cl) == WaitStop
  {
    hide Objects, StopConditions, Concluded, LIB, WaitsForTLS, Complete, TLSMissingDetail;
    StopConditionsConclude(WAITING, o, WaitStop);
    BundleIsMissing(Instance(WAITING, StopConditions(WAITING, o, WaitStop)));
  }

  lemma BundleIsMissing(cr: CR)
    requires cr.key == SELF && cr.spec == WAITING
    ensures WaitsForTLS(LIB(), cr, Objects(KEY, map[]))
    ensures Some(TLSMissingDetail(cr, Objects(KEY, map[]))) == WaitStop.failure
  {
    hide Objects, LIB, RbacInPlace, ConfigInPlace;
    WhatIsThere(KEY, map[]);
    WhatIsOwned(KEY, map[], cr);
    assert "bundle"[0] != "passwords"[0] && "bundle"[0] != "horizon"[0];
    assert SecretOf(cr, Objects(KEY, map[]), "bundle").None?;
  }

  lemma WaitingIsNotReady(o: Oracle)
    ensures var cs := StopConditions(WAITING, o, WaitStop);
      Ready in cs && cs[Ready].state != IsTrue && cs[Ready].time == o.now
  {
    hide ConditionsAt, Epilogue, MirrorState, RestoreLastTransitionTimes;
    var cr := Instance(WAITING, map[]);
    ReadyAt(o, cr, WaitStop);
    MirrorsNoTruth(o, cr, WaitStop, map[]);
    EpilogueKeepsStates(LIB(), o, ConditionsAt(o, cr, WaitStop), map[], Ready);
  }

  /**
    A restless wait: nothing is left to do before somebody creates the bundle, but every pass at a new
    time stores a new time of Ready, and that change puts the resource back on the queue.
    */
  lemma RestlessWait(o1: Oracle, o2: Oracle)
    requires o1.stray == o2.stray == map[] && Calm(o2) && o1.now != o2.now
    ensures var cr := Instance(WAITING, StopConditions(WAITING, o1, WaitStop));
      var cl := WithInstance(Objects(KEY, map[]), cr);
      var s := System(cl, {SELF}, {}, map[]);
      && Settled(LIB(), cr, cl) && !IsQuiet(LIB(), o2, cr, cl) && Pass(LIB(), o2, cr, cl).cl == cl
      && SELF in Successor(LIB(), s, Reconciled(SELF, o2)).queue
  {
    hide Objects, StopConditions, Settled, LIB, Pass, IsQuiet, SteadyStop, KeepsStray, Successor;
    var cr := Instance(WAITING, StopConditions(WAITING, o1, WaitStop));
    var cl := WithInstance(Objects(KEY, map[]), cr);
    WaitingIsSettled(o1);
    WaitingIsNotReady(o1);
    SettledAnywhere(LIB(), cr, Objects(KEY, map[]), cl);
    SettledIsQuietIff(LIB(), o2, cr, cl);
    SettledStaysSettled(LIB(), o2, cr, cl);
    ComesBackIff(LIB(), System(cl, {SELF}, {}, map[]), SELF, o2);
  }

  // ---------- a Horizon secret that the resource does not own ----------

  /** A valid key that somebody created beforehand; a pass uses it and leaves it without an owner. */
  const FOUND := Secret(map[SECRET_KEY_FIELD := "key"], None)

  function WithInstance(cl: Cluster, cr: CR): Cluster {
    cl.(horizons := map[SELF := cr])
  }

  function WithoutKey(cl: Cluster): Cluster {
    cl.(secrets := cl.secrets - {HorizonSecretKey("ns")})
  }

  lemma LosingItWakesNobody(cr: CR, d: map<Key, DeploymentObject>)
    requires cr.key == SELF && cr.spec == SPEC
    ensures var a := WithInstance(Objects(FOUND, d), cr); !Wakes(cr, a, WithoutKey(a))
  {
    hide Objects, Wakes;
    WhatIsThere(FOUND, d);
    assert "passwords"[0] != "horizon"[0];
    SecretLossWakesIff(cr, WithInstance(Objects(FOUND, d), cr), HorizonSecretKey("ns"));
  }

  lemma LossStep(cr: CR, d: map<Key, DeploymentObject>)
    requires cr.key == SELF && cr.spec == SPEC && Lives(cr) && cr.status.lastAppliedTopology == None
    ensures var a := WithInstance(Objects(FOUND, d), cr);
      && WellFormed(a) && AllLive(a) && EnvironmentStep(a, WithoutKey(a)) && SELF !in Woken(a, WithoutKey(a))
  {
    hide Objects, Wakes;
    WhatIsThere(FOUND, d);
    LosingItWakesNobody(cr, d);
  }

  /**
    A missed loss: the resource is settled with a key that somebody else created. The key is deleted,
    no watch tells, and the resource stays idle although its pods refer to a secret that is gone.
    */
  lemma MissedLoss(o: Oracle)
    requires o.stray == map[]
    ensures var cr := Instance(SPEC, EndConditions(SPEC, o));
      var a := WithInstance(Objects(FOUND, Deploys({}, cr)), cr);
      var s, e := System(a, {}, {}, map[]), Environment(WithoutKey(a));
      && WellFormed(a) && AllLive(a) && Possible(s, e) && Attended(LIB(), s, SELF)
      && Misses(LIB(), s, e, SELF) && !Attended(LIB(), Successor(LIB(), s, e), SELF)
  {
    hide Objects, Deploys, EndConditions, LIB, Complete, Steady, SteadyStop, Concluded, Report;
    hide EnvironmentStep, WellFormed, AllLive, Woken;
    var cr := Instance(SPEC, EndConditions(SPEC, o));
    var d := Deploys({}, cr);
    var a := WithInstance(Objects(FOUND, d), cr);
    EndConditionsRepeat(o);
    DeployedIsComplete({}, FOUND, cr, EndConditions(SPEC, o));
    HorizonsAreNotRead(LIB(), cr, Objects(FOUND, d), a);
    LossStep(cr, d);
    var s, e := System(a, {}, {}, map[]), Environment(WithoutKey(a));
    AttendedNextIff(LIB(), s, e, SELF);
  }

  // ---------- a lost patch and a deletion ----------

  const REFERRING := SPEC.(topologyRef := Some(TopoRef("spread", "")))

  const SPREAD := Key("ns", "spread")

  /** The cluster with the topology in it, which nobody holds yet. */
  function Offered(d: map<Key, DeploymentObject>): Cluster {
    Objects(KEY, d).(topologies := map[SPREAD := TopologyObject("zones", {})])
  }

  /** A smooth pass over a configured and served resource takes the topology, whether its patch arrives or not. */
  lemma TakesTopology(lib: Lib, o: Oracle, cr: CR, cl: Cluster, t: Key)
    requires Smooth(o) && Works(cr) && Start(cr, cl).cr == cr && Configured(lib, cr, cl) && Served(lib, cr, cl)
    requires BuildAnnotation !in o.fail && cr.TopologyRef() == Some(t) && t in cl.topologies
    ensures Acquired(t) in Pass(lib, o, cr, cl).trace
  {
    hide Prepare, Rollout, Configured, Served, MemcachedOf, Report;
    var w := Start(cr, cl);
    GateStays(lib, o, w);
    var (g, hash, m) := Prepare(lib, o, w).value;
    TakenInRollout(lib, o, w, hash, m, t);
  }

  lemma TakenInRollout(lib: Lib, o: Oracle, w: World, hash: string, m: MemcachedObject, t: Key)
    requires Smooth(o) && Served(lib, w.cr, w.cl) && BuildAnnotation !in o.fail
    requires w.cr.TopologyRef() == Some(t) && t in w.cl.topologies
    ensures Acquired(t) in Rollout(lib, o, w, hash, m).0.trace
  {
    hide Describe, WriteDeployment, CheckNetwork, DesiredSpec, ClusterPlaced, Served, Verification;
    TakenInDescription(lib, o, w, hash, m, t);
    DescribeMeaning(lib, o, w, hash, m);
    var (w1, spec) := Describe(lib, o, w, hash, m).value;
    DeploymentMeaning(o, w1, spec);
    if WriteDeployment(o, w1, spec).Next? {
      CheckMeaning(lib, o, WriteDeployment(o, w1, spec).value.0);
    }
  }

  lemma TakenInDescription(lib: Lib, o: Oracle, w: World, hash: string, m: MemcachedObject, t: Key)
    requires Smooth(o) && Served(lib, w.cr, w.cl) && BuildAnnotation !in o.fail
    requires w.cr.TopologyRef() == Some(t) && t in w.cl.topologies
    ensures Describe(lib, o, w, hash, m).Next?
  {
    hide EnabledServices, ServiceInit, EnsureTopology, FindNADs, Served, TopologyCalls, TopologiesHeld;
    ServicesMeaning(o, w);
    ServiceStays(lib, o, w);
    TopologyMeaning(o, w);
  }

  lemma OfferedIsServed(cr: CR, d: map<Key, DeploymentObject>)
    requires cr.key == SELF && cr.spec == REFERRING && cr.status.endpoint == HOME && StoredHash(cr) == Some(HOME)
    ensures Configured(LIB(), cr, Offered(d)) && Served(LIB(), cr, Offered(d))
  {
    hide Objects, RbacInPlace, ConfigInPlace, MemcachedOf, AllVars, ConfigText;
    WhatIsThere(KEY, d);
    WhatIsOwned(KEY, d, cr);
    WhatIsRead(KEY, d, cr);
    SourcesDecide(LIB(), cr, Objects(KEY, d), cr, Offered(d));
    SameFilesThere(cr, Objects(KEY, d), Offered(d));
  }

  lemma SameFilesThere(cr: CR, a: Cluster, b: Cluster)
    requires a.owned == b.owned
    ensures RbacInPlace(cr, a) == RbacInPlace(cr, b)
    ensures forall text :: ConfigInPlace(LIB(), cr, a, text) == ConfigInPlace(LIB(), cr, b, text)
  {
    hide LIB;
  }

  /** The states of the run: offered, taken in a pass whose patch is lost, to be deleted, deleted. */
  ghost function TakenState(o: Oracle, cr: CR): System {
    Successor(LIB(), System(WithInstance(Offered(map[]), cr), {SELF}, {}, map[]), Reconciled(SELF, o))
  }

  ghost function ToBeDeleted(s: System, cr: CR): Cluster {
    s.cl.(horizons := map[SELF := cr.(deleting := true)])
  }

  lemma LostPatchTakes(o: Oracle, cr: CR, conditions: Conditions)
    requires o.fail == {PatchInstance} && o.wait == {} && cr == Instance(REFERRING, conditions) && conditions != map[]
    ensures var s := TakenState(o, cr);
      && Unrecorded(s.cl, SPREAD, SELF) && s.cl.horizons == map[SELF := cr] && SELF in s.queue + s.delayed
  {
    hide Objects, LIB, Pass, Woken, Ledger, Configured, Served;
    var cl := WithInstance(Offered(map[]), cr);
    WhatIsThere(KEY, map[]);
    OfferedIsServed(cr, map[]);
    ServedAnyway(cr, Offered(map[]), cl);
    TakesTopology(LIB(), o, cr, cl, SPREAD);
    LostPatchIsUnrecorded(LIB(), o, System(cl, {SELF}, {}, map[]), SELF, SPREAD);
    LostPatchFails(LIB(), o, cr, cl);
    LostPatchKeeps(LIB(), o, cr, cl);
  }

  lemma LostPatchKeeps(lib: Lib, o: Oracle, cr: CR, cl: Cluster)
    requires PatchInstance in o.fail
    ensures Pass(lib, o, cr, cl).cr == cr && Pass(lib, o, cr, cl).cl.horizons == cl.horizons
  {
    hide Body;
    PassFrame(lib, o, cr, cl);
  }

  lemma ServedAnyway(cr: CR, a: Cluster, b: Cluster)
    requires b == a.(horizons := b.horizons)
    ensures Configured(LIB(), cr, a) ==> Configured(LIB(), cr, b)
    ensures Served(LIB(), cr, a) ==> Served(LIB(), cr, b)
  {
    hide LIB, AllVars, MemcachedOf, ConfigText;
    SourcesDecide(LIB(), cr, a, cr, b);
    if Configured(LIB(), cr, a) {
      InputsThere(LIB(), cr, a);
    }
  }

  /**
    An orphaned topology: a pass takes the topology, its patch is lost, the user deletes the resource
    without touching the reference, and one calm pass lets the resource go with the topology still held.
    */
  lemma OrphanedTopology(o1: Oracle, o2: Oracle, conditions: Conditions)
    requires o1.fail == {PatchInstance} && o1.wait == {} && Calm(o2) && conditions != map[]
    ensures var cr := Instance(REFERRING, conditions);
      var s0 := System(WithInstance(Offered(map[]), cr), {SELF}, {}, map[]);
      var s1 := TakenState(o1, cr);
      var e2, e3 := Environment(ToBeDeleted(s1, cr)), Reconciled(SELF, o2);
      var s2 := Successor(LIB(), s1, e2);
      var s3 := Successor(LIB(), s2, e3);
      && IsRun(LIB(), [s0, s1, s2, s3], [Reconciled(SELF, o1), e2, e3]) && !Disciplined(s1, e2)
      && SELF !in s3.cl.horizons && SELF !in s3.delayed && Holds(s3.cl.topologies, SPREAD, SELF)
  {
    hide Objects, LIB, Woken, Ledger, Holds, Normal, Offered, Report;
    var cr := Instance(REFERRING, conditions);
    var s0 := System(WithInstance(Offered(map[]), cr), {SELF}, {}, map[]);
    var s1 := TakenState(o1, cr);
    LostPatchTakes(o1, cr, conditions);
    var e2, e3 := Environment(ToBeDeleted(s1, cr)), Reconciled(SELF, o2);
    var s2 := Successor(LIB(), s1, e2);
    var s3 := Successor(LIB(), s2, e3);
    DeletionStep(s1, cr);
    assert Forgotten(s2.cl, SPREAD, SELF);
    ForgottenForGood(LIB(), o2, s2, SELF, SPREAD, SELF);
    GoneAfterwards(o2, s2, cr.(deleting := true));
  }

  lemma DeletionStep(s: System, cr: CR)
    requires s.cl.horizons == map[SELF := cr] && cr.key == SELF && cr.spec == REFERRING && cr.finalizer && !cr.deleting
    requires cr.status.lastAppliedTopology == None
    ensures EnvironmentStep(s.cl, ToBeDeleted(s, cr)) && WellFormed(ToBeDeleted(s, cr))
  {
  }

  lemma GoneAfterwards(o: Oracle, s: System, cr: CR)
    requires Calm(o) && s.cl.horizons == map[SELF := cr] && cr.key == SELF && cr.deleting && !cr.keptByOthers && !IsNew(cr)
    ensures var s' := Successor(LIB(), s, Reconciled(SELF, o)); SELF !in s'.cl.horizons && SELF !in s'.delayed
  {
    hide LIB, Woken, Ledger, Normal, Epilogue, ConditionsAt;
  }

  // ---------- an endpoint that cannot be parsed ----------

  function Overridden(url: string): Spec {
    SPEC.(serviceEndpointURL := Some(url))
  }

  lemma WhatIsUsable(cr: CR)
    requires cr.key == SELF && Plain(cr.spec) && cr.spec.secret == "passwords" && cr.spec.topologyRef == None
    requires cr.spec.serviceEndpointURL != Some("%") && cr.spec.tls.caBundleSecretName == ""
    ensures Usable(LIB(), cr, Objects(KEY, map[]))
    ensures Unblocked(LIB(), cr, Objects(KEY, map[])) <==> cr.status.endpoint != "%"
  {
    hide Objects;
    var e := LIB().apiEndpoint(cr.key, cr.spec).value;
    WhatIsThere(KEY, map[]);
    WhatIsPermitted(KEY, map[], cr);
    assert HOME[0] != "%"[0];
    WhatIsRead(KEY, map[], WithEndpoint(cr, e));
    EndpointDecides(LIB(), cr, Objects(KEY, map[]), e);
  }

  lemma WhatIsPermitted(key: Secret, d: map<Key, DeploymentObject>, cr: CR)
    requires cr.key == SELF && Plain(cr.spec)
    ensures Controllable(key.owner, SELF) ==> MayPrepare(cr, Objects(key, d))
    ensures MayWrite(Objects(key, d), ServiceKey("ns"), SELF)
  {
    WhatIsNamed(cr);
    hide RbacResourceName, ConfigDataName, ScriptsName;
  }

  /** The user takes the override back. */
  function Corrected(cr: CR): CR {
    cr.(spec := SPEC, generation := cr.generation + 1)
  }

  lemma CorrectedEnvironment(a: CR, acl: Cluster, b: CR, bcl: Cluster, spec: Spec)
    requires SameEnvironment(a, acl, b, bcl)
    ensures SameEnvironment(a.(spec := spec), acl, b.(spec := spec, generation := b.generation + 1), bcl)
  {
    hide SamePermissions, SameSpecs;
  }

  /** A pass stores the endpoint that the user has overridden with something that cannot be parsed. */
  lemma StoresOverride(o: Oracle, conditions: Conditions)
    requires Calm(o) && conditions != map[]
    ensures var cr := Instance(Overridden("%"), conditions);
      var out := Pass(LIB(), o, cr, Objects(KEY, map[]));
      && out.cr.status.endpoint == "%" && out.cl.secrets == Objects(KEY, map[]).secrets
      && SameEnvironment(cr, Objects(KEY, map[]), out.cr, out.cl)
  {
    hide Pass, Objects, SpecNext, LastNext, SameEnvironment, AllVars;
    var cr := Instance(Overridden("%"), conditions);
    var cl := Objects(KEY, map[]);
    WhatIsThere(KEY, map[]);
    WhatIsPermitted(KEY, map[], cr);
    assert HOME[0] != "%"[0];
    WhatIsRead(KEY, map[], cr);
    CalmPass(LIB(), o, cr, cl);
    SecretIsStable(LIB(), o, cr, cl);
    PassKeepsEnvironment(LIB(), o, cr, cl);
  }

  lemma CorrectionIsUsable(o: Oracle, conditions: Conditions)
    requires Calm(o) && conditions != map[]
    ensures var bad := Pass(LIB(), o, Instance(Overridden("%"), conditions), Objects(KEY, map[]));
      var good := Corrected(bad.cr);
      && Edited(bad.cr, good) && Usable(LIB(), good, bad.cl) && good.status.endpoint == "%" && !good.deleting
  {
    hide Pass, Objects, Usable, SameEnvironment, LIB;
    var start := Instance(Overridden("%"), conditions);
    var bad := Pass(LIB(), o, start, Objects(KEY, map[]));
    StoresOverride(o, conditions);
    PassFrame(LIB(), o, start, Objects(KEY, map[]));
    CorrectedEnvironment(start, Objects(KEY, map[]), bad.cr, bad.cl, SPEC);
    WhatIsUsable(start.(spec := SPEC));
    UsableThere(LIB(), start.(spec := SPEC), Objects(KEY, map[]), Corrected(bad.cr), bad.cl);
  }

  /**
    A stuck endpoint, from a run of the system whose library returns an override that it cannot parse: a
    pass stores that override, the user corrects the specification, and from then on every pass, calm or not, stops in front of the gate, so that calm
    passes never reach the goal of the corrected specification.
    */
  lemma StuckEndpoint(o: Oracle, conditions: Conditions, os: seq<Oracle>, o2: Oracle)
    requires Calm(o) && AllCalm(os) && conditions != map[]
    ensures var bad := Pass(LIB(), o, Instance(Overridden("%"), conditions), Objects(KEY, map[]));
      var good := Corrected(bad.cr);
      var (cr, cl) := After(LIB(), os, good, bad.cl);
      && Edited(bad.cr, good) && Usable(LIB(), good, bad.cl)
      && Order(Body(LIB(), o2, cr, cl).1.position) <= 6
      && (|os| == 6 ==> Usable(LIB(), cr, cl) && !Reached(GoalOf(LIB(), cr, cl), CoreOf(cr, cl)))
  {
    hide Pass, Objects, Usable, SameEnvironment, After, Body, Reached, GoalOf, LIB, CoreOf, Edited, Corrected, Instance;
    var bad := Pass(LIB(), o, Instance(Overridden("%"), conditions), Objects(KEY, map[]));
    var good := Corrected(bad.cr);
    CorrectionIsUsable(o, conditions);
    WhatIsCalled();
    RunsKeepUsable(LIB(), os, good, bad.cl);
    var (cr, cl) := After(LIB(), os, good, bad.cl);
    StopsBeforeGate(LIB(), o2, cr, cl);
    if |os| == 6 {
      GoalIsReachedIff(LIB(), os, good, bad.cl);
    }
  }

  lemma StopsBeforeGate(lib: Lib, o: Oracle, cr: CR, cl: Cluster)
    requires lib.parseUrl(cr.status.endpoint).None?
    ensures Order(Body(lib, o, cr, cl).1.position) <= 6
  {
    hide BeforeGate, Rollout;
    var w := Start(cr, cl);
    ReachingTheGate(lib, o, w);
    assert AllVars(lib, w.cr, w.cl).None?;
  }

  // ---------- a Ready pass that is not the last ----------

  lemma SameButOverride(cr: CR, fail: set<Call>, d: map<Key, DeploymentObject>)
    requires d == Deploys(fail, cr) && cr.key == SELF && cr.spec.topologyRef == None
    ensures DeploymentKey("ns") in d && d[DeploymentKey("ns")].spec == DesiredSpec(LIB(), fail, cr, Objects(KEY, d), HOME, CACHE)
  {
    hide Objects, DesiredSpec;
    WhatIsWritten(fail, KEY, cr, d);
  }

  /**
    A restless resource: the user overrides the endpoint, the next pass renders from the old one, finds
    hash and Deployment in place, stores the new endpoint and calls the resource Ready. The pass that
    follows renders from the new endpoint and stores another hash.
    */
  lemma RestlessReady(o1: Oracle, o2: Oracle, conditions: Conditions)
    requires Calm(o1) && Calm(o2) && o1.stray == map[] && conditions != map[]
    ensures var cr := Instance(Overridden("http://new"), conditions);
      var out := Pass(LIB(), o1, cr, Objects(KEY, Deploys({}, cr)));
      && Is(out.cr.status.conditions, Ready, IsTrue)
      && StoredHash(Pass(LIB(), o2, out.cr, out.cl).cr) != StoredHash(out.cr)
      && !IsQuiet(LIB(), o2, out.cr, out.cl)
  {
    hide Pass, Body, Objects, Deploys, DesiredSpec, SameEnvironment, Epilogue, ConditionsAt, LIB, HasValidSecret;
    var cr := Instance(Overridden("http://new"), conditions);
    var cl := Objects(KEY, Deploys({}, cr));
    RestlessStart(o1, cr, conditions);
    RestlessNext(o1, o2, cr, conditions);
  }

  lemma RestlessFacts(cr: CR, conditions: Conditions)
    requires cr == Instance(Overridden("http://new"), conditions)
    ensures var cl := Objects(KEY, Deploys({}, cr));
      && Unblocked(LIB(), cr, cl) && HasValidSecret(cl.secrets, "ns")
      && AllVars(LIB(), cr, cl).Some? && !HashStale(LIB(), cr, cl)
      && MemcachedOf(cr, cl) == Some(CACHE) && Serviceable(LIB(), cr, cl) && TopologyUsable(cr, cl) && MayDeploy(cr, cl)
      && WrittenDeployment(LIB(), cr, cl).IsReady() && EndpointNext(LIB(), cr, cl) == "http://new"
  {
    hide Objects, DesiredSpec, AllVars, MemcachedOf, DeploymentObject.IsReady;
    var d := Deploys({}, cr);
    assert HOME[0] != "%"[0];
    WhatIsThere(KEY, d);
    WhatIsPermitted(KEY, d, cr);
    WhatIsRead(KEY, d, cr);
    SameButOverride(cr, {}, d);
    WhatIsReplicated({}, cr);
    assert PutDeploymentObject(Some(d[DeploymentKey("ns")]), SELF, d[DeploymentKey("ns")].spec) == d[DeploymentKey("ns")];
  }

  lemma RestlessStart(o: Oracle, cr: CR, conditions: Conditions)
    requires Calm(o) && o.stray == map[] && conditions != map[] && cr == Instance(Overridden("http://new"), conditions)
    ensures Is(Pass(LIB(), o, cr, Objects(KEY, Deploys({}, cr))).cr.status.conditions, Ready, IsTrue)
  {
    hide Body, Objects, Deploys, Epilogue, ConditionsAt, LIB, HasValidSecret, Unblocked, HashStale, Serviceable, TopologyUsable;
    hide MayDeploy, WrittenDeployment, DeploymentObject.IsReady, EndpointNext, MemcachedOf;
    var cl := Objects(KEY, Deploys({}, cr));
    RestlessFacts(cr, conditions);
    RunsThrough(LIB(), o, cr, cl);
    EndIsReadyIff(LIB(), o, Body(LIB(), o, cr, cl).0.cr, cr.status.conditions);
  }

  lemma RestlessNext(o1: Oracle, o2: Oracle, cr: CR, conditions: Conditions)
    requires Calm(o1) && Calm(o2) && conditions != map[] && cr == Instance(Overridden("http://new"), conditions)
    ensures var out := Pass(LIB(), o1, cr, Objects(KEY, Deploys({}, cr)));
      StoredHash(Pass(LIB(), o2, out.cr, out.cl).cr) != StoredHash(out.cr)
  {
    hide Pass, Objects, Deploys, SameEnvironment, HasValidSecret, Serviceable, TopologyUsable, MayPrepare, AllVars;
    hide MayDeploy, WrittenDeployment, DeploymentObject.IsReady, EndpointNext, MemcachedOf, SpecNext, LastNext, SameRoles;
    var d := Deploys({}, cr);
    var cl := Objects(KEY, d);
    RestlessFacts(cr, conditions);
    CalmPass(LIB(), o1, cr, cl);
    var out := Pass(LIB(), o1, cr, cl);
    PassKeepsEnvironment(LIB(), o1, cr, cl);
    SecretIsStable(LIB(), o1, cr, cl);
    PassFrame(LIB(), o1, cr, cl);
    EnvironmentDetermines(LIB(), cr, cl, out.cr, out.cl);
    EndpointIsStatus(cr, cl, out.cr, out.cl, "http://new");
    SameSecretSameRoles(LIB(), cr, cl, out.cr, out.cl);
    InputsAgree(LIB(), WithEndpoint(cr, "http://new"), cl, WithEndpoint(out.cr, "http://new"), out.cl);
    assert WithEndpoint(out.cr, "http://new") == out.cr;
    WhatIsRead(KEY, d, WithEndpoint(cr, "http://new"));
    assert HOME[7] == 'd' && "http://new"[7] == 'n';
    CalmPass(LIB(), o2, out.cr, out.cl);
  }

  // ---------- six passes are needed ----------

  /** A resource as its user has just created it. */
  const NEW := CR(SELF, 1, false, false, false, SPEC, Status(map[], map[], "", 0, 0, "", None))

  /** The hash that the pods of the Deployment carry. */
  function PodHash(cl: Cluster): Option<string> {
    match SpecIn(cl, "ns")
    case None => None
    case Some(spec) => Get(spec.horizonContainer.env, "CONFIG_HASH")
  }

  /** What a resource that starts as `NEW` over a blank secret has come to after `n` passes. */
  ghost predicate Grown(n: nat, cr: CR, cl: Cluster) {
    && SameEnvironment(NEW, Objects(BLANK, map[]), cr, cl)
    && (n == 0 ==> cr == NEW && cl == Objects(BLANK, map[]))
    && (n > 0 ==> Works(cr) && HasValidSecret(cl.secrets, "ns") == (n > 1))
    && cr.status.endpoint == (if n < 4 then "" else HOME)
    && (n == 1 ==> StoredHash(cr) == None)
    && (n == 2 ==> StoredHash(cr).Some? && StoredHash(cr) != Some(""))
    && (n == 3 || n == 4 ==> StoredHash(cr) == Some(""))
    && (n == 5 ==> StoredHash(cr) == Some(HOME))
    && (n == 4 || n == 5 ==> PodHash(cl) == Some(""))
    && (n == 6 ==> PodHash(cl) == Some(HOME))
  }

  /** What such a resource reads, whatever its passes have made of the cluster. */
  lemma GrownReads(cr: CR, cl: Cluster)
    requires SameEnvironment(NEW, Objects(BLANK, map[]), cr, cl) && cr.status.endpoint != "%"
    ensures Unblocked(LIB(), cr, cl) && MemcachedOf(cr, cl) == Some(CACHE) && cr.key == SELF && cr.spec == SPEC && !cr.deleting
    ensures AllVars(LIB(), cr, cl).Some? && LIB().objectHash(AllVars(LIB(), cr, cl).value) == cr.status.endpoint
    ensures EndpointNext(LIB(), cr, cl) == HOME && Serviceable(LIB(), cr, cl) && TopologyUsable(cr, cl) && MayDeploy(cr, cl)
  {
    hide Objects, AllVars, MemcachedOf, SameEnvironment, MayPrepare, SameRoles, HorizonSecretOf;
    var cl0, start := Objects(BLANK, map[]), WithEndpoint(NEW, cr.status.endpoint);
    WhatIsThere(BLANK, map[]);
    WhatIsPermitted(BLANK, map[], start);
    WhatIsRead(BLANK, map[], start);
    SameUser(NEW, cl0, cr, cl);
    EndpointIsStatus(NEW, cl0, cr, cl, cr.status.endpoint);
    assert WithEndpoint(cr, cr.status.endpoint) == cr;
    EnvironmentDetermines(LIB(), start, cl0, cr, cl);
    Separate(LIB(), HorizonSecretOf(start, cl0), HorizonSecretOf(cr, cl));
    InputsAgree(LIB(), start, cl0, cr, cl);
  }

  lemma Separate(lib: Lib, x: Option<Secret>, y: Option<Secret>)
    ensures SameRoles(lib, SPEC, x, y)
  {
    assert |"passwords"| != |Volumes.SERVICE_NAME|;
  }

  lemma FreshHash(o: Oracle, cr: CR, cl: Cluster)
    requires AllVars(LIB(), cr, cl).Some? && !HasValidSecret(cl.secrets, cr.key.ns)
    ensures HashRead(LIB(), o, cr, cl) != ""
  {
    hide AllVars, HasValidSecret;
    assert HashedVars(LIB(), o, cr, cl)[Volumes.SERVICE_NAME] == o.newKey;
    assert |HashRead(LIB(), o, cr, cl)| >= |o.newKey|;
  }

  /** One pass of the resource on its way. */
  lemma Grows(n: nat, o: Oracle, cr: CR, cl: Cluster)
    requires n < 6 && Calm(o) && Grown(n, cr, cl)
    ensures Grown(n + 1, Pass(LIB(), o, cr, cl).cr, Pass(LIB(), o, cr, cl).cl)
  {
    hide Pass, Objects, AllVars, SameEnvironment, HasValidSecret, EndpointNext, LastNext, DesiredSpec, Unblocked, SecretsAfter;
    hide LIB, TopologyUsable, MayDeploy, Serviceable, MemcachedOf;
    var out := Pass(LIB(), o, cr, cl);
    assert HOME[0] != "%"[0] && "%"[0] == '%';
    GrownReads(cr, cl);
    CalmPass(LIB(), o, cr, cl);
    PassKeepsEnvironment(LIB(), o, cr, cl);
    EnvironmentTransitive(NEW, Objects(BLANK, map[]), cr, cl, out.cr, out.cl);
    SameUser(cr, cl, out.cr, out.cl);
    NewSecretIsValid(o, cr, cl);
    if n == 0 {
      BlankIsInvalid(LIB(), o, cr, cl);
    } else {
      SameSecret(cr, SecretsAfter(o, cr, cl), out.cl.secrets);
      if n == 1 {
        FreshHash(o, cr, cl);
      }
      HashInSpec(LIB(), {}, cr, cl, StoredHash(cr).GetOr(""), CACHE);
    }
  }

  lemma BlankIsInvalid(lib: Lib, o: Oracle, cr: CR, cl: Cluster)
    requires cr == NEW && cl == Objects(BLANK, map[])
    ensures Pass(lib, o, cr, cl).cl.secrets == cl.secrets && !HasValidSecret(cl.secrets, "ns")
  {
    hide Objects;
    WhatIsThere(BLANK, map[]);
    IdleSecrets(lib, o, cr, cl);
  }

  lemma {:induction false} GrowsOverRuns(os: seq<Oracle>, n: nat, cr: CR, cl: Cluster)
    requires n + |os| <= 6 && AllCalm(os) && Grown(n, cr, cl)
    ensures Grown(n + |os|, After(LIB(), os, cr, cl).0, After(LIB(), os, cr, cl).1)
  {
    hide Pass, Grown, LIB;
    if os != [] {
      var out := Pass(LIB(), os[0], cr, cl);
      Grows(n, os[0], cr, cl);
      GrowsOverRuns(os[1..], n + 1, out.cr, out.cl);
    }
  }

  /**
    Five passes do not suffice: a new resource takes them to add its finalizer, create its key, hash
    without the new key, store its endpoint and hash the configuration with that endpoint; the
    Deployment gets that hash only in the sixth.
    */
  lemma FivePassesDoNotSuffice(os: seq<Oracle>)
    requires |os| == 6 && AllCalm(os)
    ensures var cl := Objects(BLANK, map[]);
      var (cr5, cl5), (cr6, cl6) := After(LIB(), os[..5], NEW, cl), After(LIB(), os, NEW, cl);
      CoreOf(cr5, cl5) != CoreOf(cr6, cl6)
  {
    hide After, Objects, LIB;
    EnvironmentReflexive(NEW, Objects(BLANK, map[]));
    GrowsOverRuns(os[..5], 0, NEW, Objects(BLANK, map[]));
    GrowsOverRuns(os, 0, NEW, Objects(BLANK, map[]));
  }

  // ---------- a key that decides the hash ----------

  /** The OpenStack secret is the Horizon secret itself, and has no key yet. */
  const SELFISH := SPEC.(secret := "horizon")

  lemma SelfishRead(key: Secret, d: map<Key, DeploymentObject>, cr: CR)
    requires cr.key == SELF && cr.spec == SELFISH && cr.status.endpoint != "%"
    ensures AllVars(LIB(), cr, Objects(key, d)).Some? && MemcachedOf(cr, Objects(key, d)).Some?
    ensures LIB().objectHash(AllVars(LIB(), cr, Objects(key, d)).value) == LIB().secretHash(key.data) + cr.status.endpoint
  {
    hide Objects;
    WhatIsThere(key, d);
    WhatIsNamed(cr);
    hide ConfigDataName, ScriptsName;
    assert |Volumes.SERVICE_NAME| == 7;
  }

  lemma SelfishIsUsable(cr: CR)
    requires cr.key == SELF && cr.spec == SELFISH && cr.status.endpoint == HOME
    ensures Usable(LIB(), cr, Objects(BLANK, map[])) && Unblocked(LIB(), cr, Objects(BLANK, map[]))
    ensures !HasValidSecret(Objects(BLANK, map[]).secrets, "ns")
  {
    hide Objects, AllVars;
    assert HOME[0] != "%"[0];
    WhatIsThere(BLANK, map[]);
    WhatIsPermitted(BLANK, map[], cr);
    SelfishRead(BLANK, map[], cr);
    assert WithEndpoint(cr, HOME) == cr;
  }

  lemma SelfishKeyServes(os: seq<Oracle>, cr: CR, cl: Cluster)
    requires cr.spec == SELFISH
    ensures HasKey(LIB(), os, cr, cl)
  {
    hide LIB;
  }

  lemma SelfishEnd(os: seq<Oracle>, cr: CR)
    requires |os| == 6 && AllCalm(os) && cr.key == SELF && cr.spec == SELFISH && cr.status.endpoint == HOME && Works(cr)
    ensures var (cr', cl') := After(LIB(), os, cr, Objects(BLANK, map[]));
      CoreOf(cr', cl').hash == Some(os[0].newKey + HOME)
  {
    hide After, Objects, AllVars, SameEnvironment, Unblocked, HasValidSecret, MemcachedOf, MayPrepare, Serviceable;
    hide TopologyUsable, MayDeploy, DesiredSpec, SameRoles, LIB, Usable, GoalOf, KeyServes;
    var cl := Objects(BLANK, map[]);
    WhatIsCalled();
    assert HasKey(LIB(), os, cr, cl) by { SelfishKeyServes(os, cr, cl); }
    SelfishIsUsable(cr);
    GoalIsReachedIff(LIB(), os, cr, cl);
    FirstKeyStays(LIB(), os, cr, cl);
    RunsKeepUsable(LIB(), os, cr, cl);
    var (cr', cl') := After(LIB(), os, cr, cl);
    SameUser(cr, cl, cr', cl');
    GoalHash(LIB(), cr', cl', HOME);
    SelfishGoal(os[0].newKey, cr, cl', cr');
  }

  lemma GoalHash(lib: Lib, cr: CR, cl: Cluster, endpoint: string)
    requires Usable(lib, cr, cl) && lib.apiEndpoint(cr.key, cr.spec) == Some(endpoint)
    ensures AllVars(lib, WithEndpoint(cr, endpoint), cl).Some?
    ensures GoalOf(lib, cr, cl).hash == lib.objectHash(AllVars(lib, WithEndpoint(cr, endpoint), cl).value)
  {
    hide AllVars, DesiredSpec;
  }

  /** Whatever else a run has made of the cluster, the variables are those of the new key. */
  lemma SelfishGoal(key: Password, cr: CR, cl': Cluster, cr': CR)
    requires cr.key == SELF && cr.spec == SELFISH
    requires SameEnvironment(cr, Objects(BLANK, map[]), cr', cl')
    requires HorizonSecretOf(cr', cl') == Some(Secret(KeyData(key), MINE))
    ensures AllVars(LIB(), WithEndpoint(cr', HOME), cl').Some?
    ensures LIB().objectHash(AllVars(LIB(), WithEndpoint(cr', HOME), cl').value) == key + HOME
  {
    hide Objects, AllVars, SamePermissions, SameSpecs, MaySecure, MayDeploy;
    var mine := Secret(KeyData(key), MINE);
    var there := Objects(mine, map[]);
    WhatIsThere(BLANK, map[]);
    WhatIsThere(mine, map[]);
    assert HOME[0] != "%"[0];
    SelfishRead(mine, map[], WithEndpoint(cr', HOME));
    forall k
      ensures Get(cl'.secrets, k) == Get(there.secrets, k)
    {
    }
    SameSecrets(cl'.secrets, there.secrets);
    SourcesAreThere(mine, cl');
    SourcesDecide(LIB(), WithEndpoint(cr', HOME), cl', WithEndpoint(cr', HOME), there);
  }

  lemma SourcesAreThere(key: Secret, cl: Cluster)
    requires cl.memcacheds == Objects(BLANK, map[]).memcacheds && cl.keystones == Objects(BLANK, map[]).keystones
    ensures cl.memcacheds == Objects(key, map[]).memcacheds && cl.keystones == Objects(key, map[]).keystones
  {
  }

  lemma SameSecrets(a: map<Key, Secret>, b: map<Key, Secret>)
    requires forall k :: Get(a, k) == Get(b, k)
    ensures a == b
  {
    forall k
      ensures k in a <==> k in b
      ensures k in a ==> a[k] == b[k]
    {
      assert Get(a, k) == Get(b, k);
    }
  }

  /**
    The end is not always independent of the random key: where the specification names the Horizon
    secret as the OpenStack secret, two runs from one and the same state end with different hashes.
    */
  lemma KeyDecides(os1: seq<Oracle>, os2: seq<Oracle>, conditions: Conditions)
    requires |os1| == |os2| == 6 && AllCalm(os1) && AllCalm(os2) && conditions != map[]
    requires os1[0].newKey != os2[0].newKey
    ensures var cr := Instance(SELFISH, conditions);
      var (a, acl), (b, bcl) := After(LIB(), os1, cr, Objects(BLANK, map[])), After(LIB(), os2, cr, Objects(BLANK, map[]));
      CoreOf(a, acl).hash != CoreOf(b, bcl).hash
  {
    hide After, Objects, CoreOf;
    var cr := Instance(SELFISH, conditions);
    SelfishEnd(os1, cr);
    SelfishEnd(os2, cr);
    var x, y := os1[0].newKey, os2[0].newKey;
    assert (x + HOME)[..|x|] == x && (y + HOME)[..|y|] == y;
  }

  // ---------- a key that does not serve ----------

  /** The user has put the CA bundle into the Horizon secret, which has no key yet. */
  const BUNDLED := SPEC.(tls := TLS(None, "horizon"))
  const BUNDLE := Secret(map["tls-ca-bundle.pem" := "certificates"], None)

  /** A library that looks for the bundle under its field. */
  function PEM(): Lib {
    LIB().(caHash := d => Get(d, "tls-ca-bundle.pem"))
  }

  lemma BundledIsUsable(cr: CR)
    requires cr.key == SELF && cr.spec == BUNDLED
    ensures Usable(PEM(), cr, Objects(BUNDLE, map[]))
    ensures !HasValidSecret(Objects(BUNDLE, map[]).secrets, "ns")
  {
    hide Objects;
    assert "tls-ca-bundle.pem"[0] != SECRET_KEY_FIELD[0];
    assert HOME[0] != "%"[0];
    WhatIsThere(BUNDLE, map[]);
    WhatIsPermitted(BUNDLE, map[], cr);
  }

  lemma KeyIsNoBundle(cr: CR, key: Password)
    requires cr.spec == BUNDLED
    ensures !KeyServes(PEM(), cr.spec, key)
  {
    assert "tls-ca-bundle.pem"[0] != SECRET_KEY_FIELD[0];
  }

  /**
    Nor is the goal always reached: the first pass to the gate finds the bundle, but replaces the
    secret by one with a key alone, and no later pass gets past the TLS inputs.
    */
  lemma KeyDoesNotServe(os: seq<Oracle>, conditions: Conditions)
    requires |os| == 6 && AllCalm(os) && conditions != map[]
    ensures var cr := Instance(BUNDLED, conditions);
      var (cr', cl') := After(PEM(), os, cr, Objects(BUNDLE, map[]));
      && Usable(PEM(), cr, Objects(BUNDLE, map[])) && !Usable(PEM(), cr', cl')
  {
    hide After, Objects, Usable, HasValidSecret, KeyServes;
    var cr := Instance(BUNDLED, conditions);
    var cl := Objects(BUNDLE, map[]);
    assert HOME[0] != "%"[0];
    BundledIsUsable(cr);
    DrawnKeyStays(PEM(), os, cr, cl);
    var (cr', cl') := After(PEM(), os, cr, cl);
    RunsKeepTheEnvironment(PEM(), os, cr, cl);
    SameUser(cr, cl, cr', cl');
    KeyIsNoBundle(cr, DrawnKey(os, cr));
    if Usable(PEM(), cr', cl') {
      UsableKeyServes(PEM(), cr', cl', DrawnKey(os, cr));
      assert false;
    }
  }

  // ---------- a secret that the hash does not see ----------

  /** A library that tells secrets apart by their password. */
  function KEEN(): Lib {
    LIB().(secretHash := d => Get(d, "password").GetOr(""))
  }

  const SHADOWED := SPEC.(secret := "horizon-scripts")

  function Passwords(password: string): Cluster {
    Objects(KEY, map[]).(secrets := map[Key("ns", "horizon-scripts") := Secret(map["password" := password], None)])
  }

  /** A changed password that changes no variable of the hash, because a file is called like the secret. */
  lemma MissedPassword(a: string, b: string)
    requires a != b
    ensures var cr := Instance(SHADOWED, map[]);
      && AllVars(KEEN(), cr, Passwords(a)).Some? && AllVars(KEEN(), cr, Passwords(b)).Some?
      && OpenStackVars(KEEN(), cr, Passwords(a)) != OpenStackVars(KEEN(), cr, Passwords(b))
      && AllVars(KEEN(), cr, Passwords(a)) == AllVars(KEEN(), cr, Passwords(b))
  {
    hide Objects, AllVars, ComponentsOf;
    var cr := Instance(SHADOWED, map[]);
    PasswordRead(a, cr);
    PasswordRead(b, cr);
    assert map["horizon-scripts" := a]["horizon-scripts"] != map["horizon-scripts" := b]["horizon-scripts"];
    SecretIsMissedIff(KEEN(), cr, Passwords(a), cr, Passwords(b));
  }

  lemma PasswordRead(password: string, cr: CR)
    requires cr == Instance(SHADOWED, map[])
    ensures AllVars(KEEN(), cr, Passwords(password)).Some?
    ensures OpenStackVars(KEEN(), cr, Passwords(password)) == Some(map["horizon-scripts" := password])
    ensures ComponentsOf(KEEN(), cr, Passwords(password)) == Components(password, None, None, HOME, "scripts")
    ensures ScriptsName(cr) == cr.spec.secret
  {
    hide Objects;
    WhatIsThere(KEY, map[]);
    WhatIsNamed(cr);
    assert HOME[0] != "%"[0];
    assert map["horizon-scripts" := password]["horizon-scripts"] == password;
  }

  // ---------- scripts that nobody writes ----------

  const OTHER := Key("ns", "other")

  /** A resource that is not called like the service, over a cluster in which the operator owns nothing yet. */
  function Another(o: Oracle, conditions: Conditions): Scene {
    Scene(LIB(), o,
          CR(OTHER, 1, false, true, false, SPEC, Status(conditions, map[INPUT_HASH_NAME := ""], HOME, 0, 1, "", None)),
          Objects(FOUND, map[]).(owned := map[]))
  }

  lemma AnotherReads(o: Oracle, conditions: Conditions)
    ensures var s := Another(o, conditions);
      && s.Named("passwords") in s.cl.secrets && s.Cache() == CACHE && s.Named("memcached") in s.cl.memcacheds
      && s.KeystoneURL().Some? && s.HasKey() && s.lib.parseUrl(HOME).Some?
  {
    hide Objects;
    WhatIsThere(FOUND, map[]);
    WhatIsCalled();
  }

  lemma AnotherHash(o: Oracle, conditions: Conditions)
    ensures Another(o, conditions).Hash() == ""
  {
    hide Objects, Scene.Config;
    AnotherReads(o, conditions);
    assert "passwords"[0] != "horizon"[0];
    assert "other" + "-config-data" == "other-config-data" && "other" + "-scripts" == "other-scripts";
    assert "other-config-data"[0] == 'o' && "other-scripts"[0] == 'o' && "horizon"[0] == 'h' && "horizon-config-data"[0] == 'h';
  }

  lemma NobodyOwns(o: Oracle, conditions: Conditions, call: Call, kind: OwnedKind, name: string)
    requires Calm(o)
    ensures Another(o, conditions).MayPut(call, kind, name) && Another(o, conditions).Putting(call, kind, name) == None
  {
    hide Objects;
  }

  lemma NothingBeforeGate(o: Oracle, conditions: Conditions, t: Item)
    requires Calm(o) && t in {WriteServiceAccount, WriteRole, WriteRoleBinding, ReadSecret, ReadMemcached, ReadBundle, ReadCert}
    ensures Another(o, conditions).ObstacleAt(t) == None
  {
    hide Objects, Scene.Cache, Scene.MayPut, Scene.Putting, LIB;
    forall call, kind, name
      ensures Another(o, conditions).Putting(call, kind, name) == None
    {
      NobodyOwns(o, conditions, call, kind, name);
    }
    AnotherReads(o, conditions);
  }

  lemma NothingInTheWay(o: Oracle, conditions: Conditions, t: Item)
    requires Calm(o)
    ensures Another(o, conditions).ObstacleAt(t) == None
  {
    hide Objects, Scene.Hash, Scene.HasKey, Scene.Cache, Scene.KeystoneURL, Scene.Attached, Scene.MayPut, Scene.Putting, LIB;
    if t in {WriteServiceAccount, WriteRole, WriteRoleBinding, ReadSecret, ReadMemcached, ReadBundle, ReadCert} {
      NothingBeforeGate(o, conditions, t);
    } else {
      forall call, kind, name
        ensures Another(o, conditions).MayPut(call, kind, name) && Another(o, conditions).Putting(call, kind, name) == None
      {
        NobodyOwns(o, conditions, call, kind, name);
      }
      AnotherReads(o, conditions);
      AnotherHash(o, conditions);
      WhatIsThere(FOUND, map[]);
      EndpointIsHome(OTHER);
    }
  }

  lemma EndpointIsHome(key: Key)
    ensures LIB().apiEndpoint(key, SPEC) == Some(HOME)
  {
  }

  /**
    Scripts that nobody writes: the pods of a resource that is not called like the service mount scripts
    under the service's name, and the pass that writes the pods leaves no such scripts behind.
    */
  lemma ForeignScripts(o: Oracle, conditions: Conditions)
    requires Calm(o) && conditions != map[]
    ensures var s := Another(o, conditions);
      var out := Pass(s.lib, s.o, s.cr, s.cl);
      && WroteDeployment(s.Pod()) in out.trace
      && |s.Pod().volumes| > 2 && s.Pod().volumes[2].name == "scripts" && s.Pod().volumes[2].source.ConfigMapSource?
      && OwnedKey(ConfigMapKind, Key("ns", s.Pod().volumes[2].source.configMap)) !in out.cl.owned
  {
    hide Pass, Objects, Scene.ObstacleAt, Scene.Pod;
    var s := Another(o, conditions);
    forall t
      ensures s.ObstacleAt(t) == None
    {
      NothingInTheWay(o, conditions, t);
    }
    ClearPassWrites(s);
    PodsMountScriptsIff(s.lib, s.o, s.cr, s.cl, s.Pod());
  }
}
