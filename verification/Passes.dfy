/**
  One reconciler pass as a function (horizon_controller.go). A pass is a chain of stages; a stage
  hands its result on or halts the pass. The conditions are described by where the pass stopped.
  The classes of module Controller do the same work by updating fields and conditions one by one,
  and are proved to compute these functions.
  */
module Passes {
  import opened Wrappers
  import opened Conditions
  import opened Api
  import opened Clusters
  import Volumes
  import Pods

  // ---------- where a pass stops ----------

  /** What the reconciler returns to the work queue. */
  datatype Ctl = Done | RequeueAfter | Failed(text: string)

  datatype Position =
    | AtStart
    | AtServiceAccount
    | AtRole
    | AtRoleBinding
    | AtInput
    | AtMemcached
    | AtTLS
    | AtConfig
    | AtService
    | AtAttachments
    | AtTopology
    | AtDeployment
    | AtNetwork
    | AtEnd

  /** The condition that a pass is working on at a position. */
  function Subject(p: Position): Type {
    match p
    case AtStart => ServiceAccount
    case AtServiceAccount => ServiceAccount
    case AtRole => Role
    case AtRoleBinding => RoleBinding
    case AtInput => Input
    case AtMemcached => Memcached
    case AtTLS => TLSInput
    case AtConfig => ServiceConfig
    case AtService => CreateService
    case AtAttachments => NetworkAttachments
    case AtTopology => Topology
    case AtDeployment => Deployment
    case AtNetwork => NetworkAttachments
    case AtEnd => Deployment
  }

  /** The positions in the order of a pass. */
  function Order(p: Position): nat {
    match p
    case AtStart => 0
    case AtServiceAccount => 0
    case AtRole => 1
    case AtRoleBinding => 2
    case AtInput => 3
    case AtMemcached => 4
    case AtTLS => 5
    case AtConfig => 6
    case AtService => 7
    case AtAttachments => 8
    case AtTopology => 9
    case AtDeployment => 10
    case AtNetwork => 11
    case AtEnd => 12
  }

  /** The condition types that are True when a pass stands at `p`. */
  predicate IsPassed(cr: CR, p: Position, t: Type) {
    match t
    case NetworkAttachments => Order(p) > 8
    case Topology => Order(p) > 9 && cr.spec.topologyRef.Some?
    case Deployment => false
    case Ready => false
    case _ => Rank(t) < Order(p)
  }

  /** `failure` tells why the condition at `position` is False; without one it is not decided. */
  datatype Stop = Stop(position: Position, failure: Option<Detail>, ctl: Ctl)

  /** The conditions of an instance on which a pass has come as far as `p`. */
  function ConditionsDuring(o: Oracle, cr: CR, p: Position): Conditions {
    Init(o.stray, o.now) + map t: Type | IsPassed(cr, p, t) :: Condition(IsTrue, TrueDetail, o.now)
  }

  lemma LookupDuring(o: Oracle, cr: CR, p: Position, t: Type)
    ensures t in ConditionsDuring(o, cr, p) <==> IsPassed(cr, p, t) || Listed(t) || t in o.stray
    ensures t in ConditionsDuring(o, cr, p) ==>
      (ConditionsDuring(o, cr, p)[t] ==
       if IsPassed(cr, p, t) then Condition(IsTrue, TrueDetail, o.now)
       else if Listed(t) then Condition(IsUnknown, InitDetail, o.now)
       else o.stray[t])
  {
  }

  /** The conditions with which a pass ends; Ready is decided here only at the very end. */
  function ConditionsAt(o: Oracle, cr: CR, stop: Stop): Conditions {
    var cs := ConditionsDuring(o, cr, stop.position);
    var subject := Subject(stop.position);
    if stop.failure.Some? then cs[subject := Condition(IsFalse, stop.failure.value, o.now)]
    else if stop.position != AtEnd then cs
    else Conclude(o, cs[subject := Condition(IsTrue, TrueDetail, o.now)])
  }

  function Conclude(o: Oracle, cs: Conditions): Conditions {
    if AllSubConditionIsTrue(cs) then cs[Ready := Condition(IsTrue, TrueDetail, o.now)] else cs
  }

  // ---------- stages ----------

  /** The instance in memory, the cluster, and the calls made so far. */
  datatype World = World(cr: CR, cl: Cluster, trace: seq<Action>)

  type Vars = map<string, string>

  datatype Step<+T> = Next(value: T) | Halt(world: World, stop: Stop) {
    predicate IsFailure() {
      Halt?
    }
    function PropagateFailure<U>(): Step<U>
      requires Halt?
    {
      Halt(world, stop)
    }
    function Extract(): T
      requires Next?
    {
      value
    }
  }

  const INPUT_HASH_NAME := "input"
  const CA_BUNDLE_KEY := "tls-ca-bundle.pem"
  const TLS_HASH_NAME := "certs"
  const SECRET_KEY_FIELD := "horizon-secret"

  const KEYSTONE_SERVICES_WATCH: seq<string> := ["cloudkitty", "watcher"]

  function ErrorDetail(o: Oracle): Detail {
    Detail(ErrorReason, Warning, ErrorMessage(o.text))
  }

  const RunningDetail := Detail(RequestedReason, Info, RunningMessage)

  /** An error that is reported in the condition of the position. */
  function Fail<T>(w: World, o: Oracle, p: Position): Step<T> {
    Halt(w, Stop(p, Some(ErrorDetail(o)), Failed(o.text)))
  }

  /** An error that no condition reports. */
  function FailSilently<T>(w: World, o: Oracle, p: Position): Step<T> {
    Halt(w, Stop(p, None, Failed(o.text)))
  }

  function Wait<T>(w: World, p: Position, d: Detail, ctl: Ctl): Step<T> {
    Halt(w, Stop(p, Some(d), ctl))
  }

  // ---------- writes of owned objects ----------

  datatype Put = Stored(cl: Cluster) | Deferred | Refused

  function PutOwned(o: Oracle, cl: Cluster, self: Key, call: Call, k: OwnedKey, content: Content): Put {
    if call in o.fail || (k in cl.owned && !Controllable(cl.owned[k].owner, self)) then Refused
    else if call in o.wait then Deferred
    else Stored(cl.(owned := cl.owned[k := Owned(content, Some(self))]))
  }

  /** Nothing changed but objects that a pass only writes. */
  predicate SameButOwned(w: World, w': World) {
    w' == w.(cl := w.cl.(owned := w'.cl.owned))
  }

  /** Write one object and report the outcome in the condition of the position. */
  function EnsureOwned(o: Oracle, w: World, call: Call, k: OwnedKey, content: Content, p: Position): (s: Step<World>)
    ensures s.Next? ==> SameButOwned(w, s.value)
    ensures s.Halt? ==> s.world == w && s.stop.position == p && s.stop.ctl != Done
  {
    match PutOwned(o, w.cl, w.cr.key, call, k, content)
    case Refused => Fail(w, o, p)
    case Deferred => Wait(w, p, RunningDetail, RequeueAfter)
    case Stored(cl) => Next(w.(cl := cl))
  }

  // ---------- configureHorizonRbac ----------

  function RbacKey(cr: CR, kind: OwnedKind): OwnedKey {
    OwnedKey(kind, Key(cr.key.ns, RbacResourceName(cr.key)))
  }

  function Rbac(o: Oracle, w: World): Step<World> {
    var w1 :- EnsureOwned(o, w, PutServiceAccount, RbacKey(w.cr, ServiceAccountKind), Rules, AtServiceAccount);
    var w2 :- EnsureOwned(o, w1, PutRole, RbacKey(w.cr, RoleKind), Rules, AtRole);
    EnsureOwned(o, w2, PutRoleBinding, RbacKey(w.cr, RoleBindingKind), Rules, AtRoleBinding)
  }

  // ---------- inputs ----------

  const MissingSecretDetail := Detail(MissingDependencies, Info, MissingSecretMessage)
  const NO_SECRET := "no openstack secret has been provided"

  function OpenStackSecret(lib: Lib, o: Oracle, w: World): Step<Vars> {
    var name := w.cr.spec.secret;
    if name == "" then Wait(w, AtInput, MissingSecretDetail, Failed(NO_SECRET))
    else if GetOpenStackSecret in o.fail then Fail(w, o, AtInput)
    else
      match Get(w.cl.secrets, Key(w.cr.key.ns, name))
      case None => Wait(w, AtInput, Detail(ErrorReason, Warning, WaitingMessage(name)), RequeueAfter)
      case Some(s) => Next(map[name := lib.secretHash(s.data)])
  }

  function ReadyMemcached(o: Oracle, w: World): Step<MemcachedObject> {
    var name := w.cr.spec.memcachedInstance;
    if GetMemcached in o.fail then Fail(w, o, AtMemcached)
    else
      match Get(w.cl.memcacheds, Key(w.cr.key.ns, name))
      case None => Wait(w, AtMemcached, Detail(ErrorReason, Warning, WaitingMessage(name)), RequeueAfter)
      case Some(m) =>
        if m.ready then Next(m)
        else Wait(w, AtMemcached, Detail(RequestedReason, Info, WaitingMessage(name)), RequeueAfter)
  }

  /** A missing bundle ends the pass quietly: only the watch on secrets brings the resource back. */
  function CABundle(lib: Lib, o: Oracle, w: World, vars: Vars): Step<Vars> {
    var name := w.cr.spec.tls.caBundleSecretName;
    if name == "" then Next(vars)
    else if GetCABundle in o.fail then Fail(w, o, AtTLS)
    else
      match Get(w.cl.secrets, Key(w.cr.key.ns, name))
      case None => Wait(w, AtTLS, Detail(ErrorReason, Warning, WaitingMessage(name)), Done)
      case Some(s) =>
        match lib.caHash(s.data)
        case None => Fail(w, o, AtTLS)
        case Some(h) => Next(if h != "" then vars[CA_BUNDLE_KEY := h] else vars)
  }

  /** A missing certificate ends the pass quietly as well. */
  function Cert(lib: Lib, o: Oracle, w: World, vars: Vars): Step<Vars> {
    if !w.cr.spec.tls.Enabled() then Next(vars)
    else if GetCert in o.fail then Fail(w, o, AtTLS)
    else
      var name := w.cr.spec.tls.secretName.value;
      match Get(w.cl.secrets, Key(w.cr.key.ns, name))
      case None => Wait(w, AtTLS, Detail(RequestedReason, Info, WaitingMessage(name)), Done)
      case Some(s) =>
        match lib.certHash(s.data)
        case None => Fail(w, o, AtTLS)
        case Some(h) => Next(vars[TLS_HASH_NAME := h])
  }

  /** The stages before the first rendered file: they write the RBAC objects and read the inputs. */
  function Inputs(lib: Lib, o: Oracle, w: World): Step<(World, Vars, MemcachedObject)> {
    var w1 :- Rbac(o, w);
    var v1 :- OpenStackSecret(lib, o, w1);
    var m :- ReadyMemcached(o, w1);
    var v2 :- CABundle(lib, o, w1, v1);
    var v3 :- Cert(lib, o, w1, v2);
    Next((w1, v3, m))
  }

  // ---------- generateServiceConfigMaps ----------

  function Port(spec: Spec): nat {
    if spec.tls.Enabled() then Pods.HORIZON_PORT_TLS else Pods.HORIZON_PORT
  }

  function Parameters(cr: CR, keystoneURL: string, url: Url, m: MemcachedObject): TemplateParameters {
    TemplateParameters(
      keystoneURL, cr.status.endpoint, url.host, m.servers, m.tls,
      Volumes.SERVICE_NAME + "." + cr.key.ns + ".svc", Port(cr.spec), cr.spec.tls.Enabled(),
      url.scheme == "https", Pods.LOG_FILE, m.mtls.secret != "")
  }

  function CustomData(spec: Spec): map<string, string> {
    map["9999_custom_settings.py" := spec.customServiceConfig] + spec.defaultConfigOverwrite
  }

  function ConfigDataName(cr: CR): string {
    cr.key.name + "-config-data"
  }

  function ScriptsName(cr: CR): string {
    cr.key.name + "-scripts"
  }

  /** The rendered configuration, when Keystone has an endpoint and the stored endpoint parses. */
  function ConfigText(lib: Lib, cr: CR, cl: Cluster, m: MemcachedObject): Option<string> {
    match Get(cl.keystones, cr.key.ns).GetOr(None)
    case None => None
    case Some(keystone) =>
      match lib.parseUrl(cr.status.endpoint)
      case None => None
      case Some(url) => Some(lib.render(Parameters(cr, keystone, url, m), CustomData(cr.spec)))
  }

  function ConfigMapKey(cr: CR, name: string): OwnedKey {
    OwnedKey(ConfigMapKind, Key(cr.key.ns, name))
  }

  function PutConfigMap(o: Oracle, w: World, call: Call, name: string, text: string): Step<World> {
    match PutOwned(o, w.cl, w.cr.key, call, ConfigMapKey(w.cr, name), Text(text))
    case Stored(cl) => Next(w.(cl := cl))
    case _ => Fail(w, o, AtConfig)
  }

  function ConfigVars(lib: Lib, cr: CR, text: string, vars: Vars): Vars {
    vars[ConfigDataName(cr) := lib.textHash(text)][ScriptsName(cr) := lib.textHash(lib.scripts)]
  }

  function ConfigMaps(lib: Lib, o: Oracle, w: World, m: MemcachedObject, vars: Vars): Step<(World, Vars)> {
    if GetKeystoneAPI in o.fail then Fail(w, o, AtConfig)
    else
      match ConfigText(lib, w.cr, w.cl, m)
      case None => Fail(w, o, AtConfig)
      case Some(text) =>
        var w1 :- PutConfigMap(o, w, PutConfigData, ConfigDataName(w.cr), text);
        var w2 :- PutConfigMap(o, w1, PutScripts, ScriptsName(w.cr), lib.scripts);
        Next((w2, ConfigVars(lib, w.cr, text, vars)))
  }

  // ---------- ensureHorizonSecret ----------

  function HorizonSecretKey(ns: string): Key {
    Key(ns, Volumes.SERVICE_NAME)
  }

  predicate ValidHorizonSecret(s: Secret) {
    SECRET_KEY_FIELD in s.data && s.data[SECRET_KEY_FIELD] != ""
  }

  predicate HasValidSecret(secrets: map<Key, Secret>, ns: string) {
    HorizonSecretKey(ns) in secrets && ValidHorizonSecret(secrets[HorizonSecretKey(ns)])
  }

  function NewSecretData(o: Oracle): map<string, string> {
    map[SECRET_KEY_FIELD := o.newKey]
  }

  function HorizonSecret(lib: Lib, o: Oracle, w: World, vars: Vars): Step<(World, Vars)> {
    var k := HorizonSecretKey(w.cr.key.ns);
    if GetHorizonSecret in o.fail then Fail(w, o, AtConfig)
    else if HasValidSecret(w.cl.secrets, w.cr.key.ns) then Next((w, vars))
    else if GenerateKey in o.fail || PutHorizonSecret in o.fail then Fail(w, o, AtConfig)
    else if k in w.cl.secrets && !Controllable(w.cl.secrets[k].owner, w.cr.key) then Fail(w, o, AtConfig)
    else
      var data := NewSecretData(o);
      Next((w.(cl := w.cl.(secrets := w.cl.secrets[k := Secret(data, Some(w.cr.key))]),
               trace := w.trace + [WroteSecret(data)]),
            vars[Volumes.SERVICE_NAME := lib.secretHash(data)]))
  }

  // ---------- createHashOfInputHashes ----------

  function StoredHash(cr: CR): Option<string> {
    Get(cr.status.hash, INPUT_HASH_NAME)
  }

  /** The gate: a new hash is only stored; a pass goes on once the stored hash is the current one. */
  function HashGate(lib: Lib, o: Oracle, w: World, vars: Vars): Step<string> {
    if HashInputs in o.fail then FailSilently(w, o, AtConfig)
    else
      var hash := lib.objectHash(vars);
      if StoredHash(w.cr) != Some(hash)
      then Halt(w.(cr := w.cr.(status := w.cr.status.(hash := w.cr.status.hash[INPUT_HASH_NAME := hash]))),
                Stop(AtConfig, None, Done))
      else Next(hash)
  }

  /** The stages before the hash gate: they gather the variables that are hashed. */
  function BeforeGate(lib: Lib, o: Oracle, w: World): Step<(World, Vars, MemcachedObject)> {
    var (w1, v1, m) :- Inputs(lib, o, w);
    var (w2, v2) :- ConfigMaps(lib, o, w1, m, v1);
    var (w3, v3) :- HorizonSecret(lib, o, w2, v2);
    Next((w3, v3, m))
  }

  function Prepare(lib: Lib, o: Oracle, w: World): Step<(World, string, MemcachedObject)> {
    var (w1, vars, m) :- BeforeGate(lib, o, w);
    var hash :- HashGate(lib, o, w1, vars);
    Next((w1, hash, m))
  }

  // ---------- keystone services ----------

  function YesNo(b: bool): string {
    if b then "yes" else "no"
  }

  function EnabledServices(o: Oracle, w: World, names: seq<string>): Step<map<string, string>> {
    if names == [] then Next(map[])
    else
      var last := names[|names| - 1];
      var rest :- EnabledServices(o, w, names[..|names| - 1]);
      if GetKeystoneService(last) in o.fail then FailSilently(w, o, AtService)
      else Next(rest[last := YesNo(Key(w.cr.key.ns, last) in w.cl.keystoneServices)])
  }

  // ---------- reconcileInit ----------

  function ServiceKey(ns: string): OwnedKey {
    OwnedKey(ServiceKind, Key(ns, Volumes.SERVICE_NAME))
  }

  function ServicePorts(spec: Spec): Content {
    if spec.tls.Enabled() then Ports(Pods.HORIZON_SVC_PORT_TLS, Pods.HORIZON_PORT_TLS)
    else Ports(Pods.HORIZON_SVC_PORT, Pods.HORIZON_PORT)
  }

  function ServiceInit(lib: Lib, o: Oracle, w: World): Step<World> {
    if NewService in o.fail then Fail(w, o, AtService)
    else
      var w1 :- EnsureOwned(o, w, PutService, ServiceKey(w.cr.key.ns), ServicePorts(w.cr.spec), AtService);
      match lib.apiEndpoint(w.cr.key, w.cr.spec)
      case None => FailSilently(w1, o, AtService)
      case Some(endpoint) => Next(w1.(cr := w1.cr.(status := w1.cr.status.(endpoint := endpoint))))
  }

  // ---------- ensureNAD ----------

  datatype Lookup = AllFound(nads: seq<string>) | Missing(name: string) | Unreadable

  /** The first attachment that cannot be read, or all of them. */
  function FindNADs(fail: set<Call>, stored: map<Key, string>, ns: string, names: seq<string>): Lookup {
    if names == [] then AllFound([])
    else
      var last := names[|names| - 1];
      match FindNADs(fail, stored, ns, names[..|names| - 1])
      case AllFound(nads) =>
        if GetNAD(last) in fail then Unreadable
        else if Key(ns, last) !in stored then Missing(last)
        else AllFound(nads + [stored[Key(ns, last)]])
      case stop => stop
  }

  /**
    A missing or unreadable attachment is reported without an error. The caller then marks the
    condition True and drops the requeue, and the pods get no annotation.
    */
  function Attachments(lib: Lib, o: Oracle, w: World): Step<map<string, string>> {
    match FindNADs(o.fail, w.cl.nads, w.cr.key.ns, w.cr.spec.networkAttachments)
    case AllFound(nads) =>
      if BuildAnnotation in o.fail then Fail(w, o, AtAttachments)
      else Next(lib.networksAnnotation(nads))
    case _ => Next(map[])
  }

  // ---------- topology ----------

  type Topologies = map<Key, TopologyObject>

  function WithFinalizers(ts: Topologies, t: Key, finalizers: set<string>): Topologies {
    if t in ts then ts[t := ts[t].(finalizers := finalizers)] else ts
  }

  function Finalizers(ts: Topologies, t: Key): set<string> {
    if t in ts then ts[t].finalizers else {}
  }

  function Without(ts: Topologies, t: Key, finalizer: string): Topologies {
    WithFinalizers(ts, t, Finalizers(ts, t) - {finalizer})
  }

  function With(ts: Topologies, t: Key, finalizer: string): Topologies {
    WithFinalizers(ts, t, Finalizers(ts, t) + {finalizer})
  }

  function Release(w: World, t: Key): World {
    w.(cl := w.cl.(topologies := Without(w.cl.topologies, t, TopologyFinalizer(w.cr.key))),
       trace := w.trace + [Released(t)])
  }

  function Acquire(w: World, t: Key): World {
    w.(cl := w.cl.(topologies := With(w.cl.topologies, t, TopologyFinalizer(w.cr.key))),
       trace := w.trace + [Acquired(t)])
  }

  /** Let go of the previous topology when the reference moved. */
  function LeavePrevious(o: Oracle, w: World): Step<World> {
    var last := w.cr.status.lastAppliedTopology;
    if last.None? || last == w.cr.TopologyRef() then Next(w)
    else if ReleaseTopology in o.fail then Fail(w, o, AtTopology)
    else Next(Release(w, last.value))
  }

  function WithLastApplied(w: World, t: Option<Key>): World {
    w.(cr := w.cr.(status := w.cr.status.(lastAppliedTopology := t)))
  }

  function EnsureTopology(o: Oracle, w: World): Step<(World, Option<string>)> {
    var w1 :- LeavePrevious(o, w);
    match w.cr.TopologyRef()
    case None => Next((WithLastApplied(w1, None), None))
    case Some(t) =>
      if AcquireTopology in o.fail || t !in w1.cl.topologies then Fail(w1, o, AtTopology)
      else Next((WithLastApplied(Acquire(w1, t), Some(t)), Some(w1.cl.topologies[t].spec)))
  }

  // ---------- the Deployment ----------

  function DeploymentKey(ns: string): Key {
    Key(ns, Volumes.SERVICE_NAME)
  }

  function Labels(key: Key): map<string, string> {
    map["service" := Volumes.SERVICE_NAME, "owner" := key.name]
  }

  function PutDeploymentObject(current: Option<DeploymentObject>, self: Key, spec: Pods.DeploymentSpec): DeploymentObject {
    match current
    case None => DeploymentObject(spec, Some(self), 1, 0, 0, 0)
    case Some(d) =>
      d.(spec := spec, owner := Some(self), generation := if d.spec == spec then d.generation else d.generation + 1)
  }

  function WriteDeployment(o: Oracle, w: World, spec: Pods.DeploymentSpec): Step<(World, DeploymentObject)> {
    var k := DeploymentKey(w.cr.key.ns);
    if BuildTLS in o.fail && w.cr.spec.tls.Enabled() then Fail(w, o, AtDeployment)
    else if PutDeployment in o.fail then Fail(w, o, AtDeployment)
    else if k in w.cl.deployments && !Controllable(w.cl.deployments[k].owner, w.cr.key) then Fail(w, o, AtDeployment)
    else if PutDeployment in o.wait then Wait(w, AtDeployment, RunningDetail, RequeueAfter)
    else
      var d := PutDeploymentObject(Get(w.cl.deployments, k), w.cr.key, spec);
      var cr := if d.generation == d.observedGeneration
                then w.cr.(status := w.cr.status.(readyCount := d.readyReplicas)) else w.cr;
      Next((World(cr, w.cl.(deployments := w.cl.deployments[k := d]), w.trace + [WroteDeployment(spec)]), d))
  }

  /** The Deployment that the inputs of a pass describe. */
  function Desired(lib: Lib, cr: CR, hash: string, m: MemcachedObject, services: map<string, string>,
                   annotations: map<string, string>, topology: Option<string>): Pods.DeploymentSpec {
    Pods.BuildDeployment(
      lib.propagate, cr.key, cr.spec, hash, Labels(cr.key), annotations, services, topology, m.mtls)
  }

  /** The stages behind the gate that lead to the description of the Deployment. */
  function Describe(lib: Lib, o: Oracle, w: World, hash: string, m: MemcachedObject): Step<(World, Pods.DeploymentSpec)> {
    var services :- EnabledServices(o, w, KEYSTONE_SERVICES_WATCH);
    var w1 :- ServiceInit(lib, o, w);
    var annotations :- Attachments(lib, o, w1);
    var (w2, topology) :- EnsureTopology(o, w1);
    Next((w2, Desired(lib, w.cr, hash, m, services, annotations, topology)))
  }

  function Deploy(lib: Lib, o: Oracle, w: World, hash: string, m: MemcachedObject): Step<(World, DeploymentObject)> {
    var (w1, spec) :- Describe(lib, o, w, hash, m);
    WriteDeployment(o, w1, spec)
  }

  // ---------- network verification ----------

  function CheckNetwork(lib: Lib, o: Oracle, w: World): Step<World> {
    if w.cr.spec.replicas == 0 then Next(w)
    else if VerifyNetwork in o.fail then Fail(w, o, AtNetwork)
    else
      var (ready, report) := lib.verifyNetwork(
        w.cr.spec.networkAttachments, Get(w.cl.pods, w.cr.key).GetOr(""), w.cr.status.readyCount);
      var w1 := w.(cr := w.cr.(status := w.cr.status.(networkAttachments := report)),
                   trace := w.trace + [Verified(ready)]);
      if ready then Next(w1) else Fail(w1, o, AtNetwork)
  }

  // ---------- reconcileNormal and reconcileDelete ----------

  /** What a pass does once its hash is the stored one. */
  function Rollout(lib: Lib, o: Oracle, w: World, hash: string, m: MemcachedObject): (World, Stop) {
    match Deploy(lib, o, w, hash, m)
    case Halt(w1, stop) => (w1, stop)
    case Next((w1, d)) =>
      match CheckNetwork(lib, o, w1)
      case Halt(w2, stop) => (w2, stop)
      case Next(w2) => (w2, Stop(AtEnd, if d.IsReady() then None else Some(RunningDetail), Done))
  }

  function Normal(lib: Lib, o: Oracle, w: World): (World, Stop) {
    match Prepare(lib, o, w)
    case Halt(w1, stop) => (w1, stop)
    case Next((w1, hash, m)) => Rollout(lib, o, w1, hash, m)
  }

  function Delete(o: Oracle, w: World): (World, Stop) {
    var last := w.cr.status.lastAppliedTopology;
    if last.Some? && ReleaseTopology in o.fail then (w, Stop(AtStart, None, Failed(o.text)))
    else
      var w1 := if last.Some? then Release(w, last.value) else w;
      (w1.(cr := w1.cr.(finalizer := false)), Stop(AtStart, None, Done))
  }

  // ---------- Reconcile ----------

  predicate IsNew(cr: CR) {
    cr.status.conditions == map[]
  }

  /** The pass stops at once when it finds no status yet, or when it has just added the finalizer. */
  predicate StopsEarly(cr: CR) {
    IsNew(cr) || (!cr.deleting && !cr.finalizer)
  }

  function Start(cr: CR, cl: Cluster): World {
    World(cr.(status := cr.status.(observedGeneration := cr.generation)), cl, [])
  }

  /** Where the pass stops; the conditions of the instance are still the stored ones. */
  function Body(lib: Lib, o: Oracle, cr: CR, cl: Cluster): (World, Stop) {
    var w := Start(cr, cl);
    if StopsEarly(cr)
    then (if cr.deleting then w else w.(cr := w.cr.(finalizer := true)), Stop(AtStart, None, Done))
    else if cr.deleting then Delete(o, w)
    else Normal(lib, o, w)
  }

  /** The deferred epilogue: restore transition times, then mirror an undecided Ready. */
  function Epilogue(lib: Lib, o: Oracle, conditions: Conditions, saved: Conditions): Conditions {
    var cs := RestoreLastTransitionTimes(conditions, saved);
    if Is(cs, Ready, IsUnknown) then cs[Ready := Condition(MirrorState(cs), lib.mirror(cs - {Ready}), o.now)] else cs
  }

  function Report(lib: Lib, o: Oracle, cr: CR, stop: Stop, saved: Conditions): CR {
    cr.(status := cr.status.(conditions := Epilogue(lib, o, ConditionsAt(o, cr, stop), saved)))
  }

  /** The resource as stored after the pass, the cluster, the calls made, and the verdict. */
  datatype Outcome = Outcome(cr: CR, cl: Cluster, trace: seq<Action>, ctl: Ctl)

  function Pass(lib: Lib, o: Oracle, cr: CR, cl: Cluster): Outcome {
    var (w, stop) := Body(lib, o, cr, cl);
    if PatchInstance in o.fail then Outcome(cr, w.cl, w.trace, Failed(o.text))
    else Outcome(Report(lib, o, w.cr, stop, cr.status.conditions), w.cl, w.trace, stop.ctl)
  }

  /** A resource that is being deleted disappears with its last finalizer. */
  function Store(cl: Cluster, cr: CR): Cluster {
    cl.(horizons := if cr.deleting && !cr.finalizer && !cr.keptByOthers then cl.horizons - {cr.key} else cl.horizons[cr.key := cr])
  }

  function Reconcile(lib: Lib, o: Oracle, key: Key, cl: Cluster): (Cluster, Ctl) {
    if GetInstance in o.fail then (cl, Failed(o.text))
    else if key !in cl.horizons then (cl, Done)
    else
      var out := Pass(lib, o, cl.horizons[key], cl);
      (Store(out.cl, out.cr), out.ctl)
  }
}
