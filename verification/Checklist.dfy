/**
  A pass as a checklist, independent of its stages: twenty items in a fixed order, what can stop the
  pass at each, and what each leaves behind. Everything is read off the fields of the resource and of
  the cluster with which the pass starts. The pass is proved to work through exactly this list.
  */
module Checklist {
  import opened Wrappers
  import opened Conditions
  import opened Api
  import opened Clusters
  import opened Passes
  import Pods

  datatype Item =
    | WriteServiceAccount
    | WriteRole
    | WriteRoleBinding
    | ReadSecret
    | ReadMemcached
    | ReadBundle
    | ReadCert
    | Render
    | WriteConfig
    | WriteScripts
    | EnsureKey
    | StoreHash
    | FindServices
    | WriteService
    | FindEndpoint
    | Annotate
    | LeaveTopology
    | TakeTopology
    | WritePods
    | VerifyPods

  const PLAN: seq<Item> := [
    WriteServiceAccount, WriteRole, WriteRoleBinding, ReadSecret, ReadMemcached, ReadBundle, ReadCert, Render,
    WriteConfig, WriteScripts, EnsureKey, StoreHash, FindServices, WriteService, FindEndpoint, Annotate,
    LeaveTopology, TakeTopology, WritePods, VerifyPods]

  const ITEMS := 20

  /** The condition that tells of a item when it stops the pass. */
  function Concern(t: Item): Type {
    match t
    case WriteServiceAccount => ServiceAccount
    case WriteRole => Role
    case WriteRoleBinding => RoleBinding
    case ReadSecret => Input
    case ReadMemcached => Memcached
    case ReadBundle => TLSInput
    case ReadCert => TLSInput
    case Render => ServiceConfig
    case WriteConfig => ServiceConfig
    case WriteScripts => ServiceConfig
    case EnsureKey => ServiceConfig
    case StoreHash => ServiceConfig
    case FindServices => CreateService
    case WriteService => CreateService
    case FindEndpoint => CreateService
    case Annotate => NetworkAttachments
    case LeaveTopology => Topology
    case TakeTopology => Topology
    case WritePods => Deployment
    case VerifyPods => NetworkAttachments
  }

  /** How many items have to be done for a condition to be True; the Deployment takes more than items. */
  function Needs(t: Type): nat {
    match t
    case ServiceAccount => 1
    case Role => 2
    case RoleBinding => 3
    case Input => 4
    case Memcached => 5
    case TLSInput => 7
    case ServiceConfig => 12
    case CreateService => 15
    case NetworkAttachments => 16
    case Topology => 18
    case Deployment => ITEMS + 1
    case Ready => ITEMS + 1
  }

  /** Why a pass stops: what it reports, if anything, and what it returns. */
  datatype Obstacle = Obstacle(report: Option<Detail>, ctl: Ctl)

  const Waiting := Obstacle(Some(Detail(RequestedReason, Info, RunningMessage)), RequeueAfter)

  const NoCache := MemcachedObject(false, "", false, Pods.MTLS("", []))

  /** The surroundings in which a pass works on a resource. */
  datatype Scene = Scene(lib: Lib, o: Oracle, cr: CR, cl: Cluster) {

    function Named(name: string): Key {
      Key(cr.key.ns, name)
    }

    predicate WithTLS() {
      cr.spec.tls.secretName.Some? && cr.spec.tls.secretName.value != ""
    }

    predicate Foreign(owner: Option<Key>) {
      owner.Some? && owner.value != cr.key
    }

    // ---------- what is read ----------

    function Data(name: string): map<string, string> {
      if Named(name) in cl.secrets then cl.secrets[Named(name)].data else map[]
    }

    function Cache(): MemcachedObject {
      Get(cl.memcacheds, Named(cr.spec.memcachedInstance)).GetOr(NoCache)
    }

    function SecretVars(): map<string, string> {
      map[cr.spec.secret := lib.secretHash(Data(cr.spec.secret))]
    }

    function BundleVars(): map<string, string> {
      var ca := cr.spec.tls.caBundleSecretName;
      var hash := lib.caHash(Data(ca)).GetOr("");
      if ca != "" && hash != "" then SecretVars()["tls-ca-bundle.pem" := hash] else SecretVars()
    }

    function CertVars(): map<string, string> {
      if WithTLS() then BundleVars()["certs" := lib.certHash(Data(cr.spec.tls.secretName.value)).GetOr("")] else BundleVars()
    }

    function KeystoneURL(): Option<string> {
      Get(cl.keystones, cr.key.ns).GetOr(None)
    }

    /** What the templates are filled in with. */
    function Parameters(): TemplateParameters {
      var url := lib.parseUrl(cr.status.endpoint).GetOr(Url("", ""));
      TemplateParameters(
        KeystoneURL().GetOr(""), cr.status.endpoint, url.host, Cache().servers, Cache().tls,
        "horizon." + cr.key.ns + ".svc", if WithTLS() then 8443 else 8080, WithTLS(),
        url.scheme == "https", "/var/log/horizon/horizon.log", Cache().mtls.secret != "")
    }

    /** The user's files: the settings, and the files that may overwrite them. */
    function Files(): map<string, string> {
      map["9999_custom_settings.py" := cr.spec.customServiceConfig] + cr.spec.defaultConfigOverwrite
    }

    function Config(): string {
      lib.render(Parameters(), Files())
    }

    function FileVars(): map<string, string> {
      CertVars()[cr.key.name + "-config-data" := lib.textHash(Config())][cr.key.name + "-scripts" := lib.textHash(lib.scripts)]
    }

    predicate HasKey() {
      "horizon-secret" in Data("horizon") && Data("horizon")["horizon-secret"] != ""
    }

    function NewKey(): map<string, string> {
      map["horizon-secret" := o.newKey]
    }

    function Hash(): string {
      lib.objectHash(if HasKey() then FileVars() else FileVars()["horizon" := lib.secretHash(NewKey())])
    }

    // ---------- what is written ----------

    function Flag(service: string): string {
      if Named(service) in cl.keystoneServices then "yes" else "no"
    }

    /** Every attachment can be read and is there. */
    predicate Attached() {
      forall n | n in cr.spec.networkAttachments :: GetNAD(n) !in o.fail && Named(n) in cl.nads
    }

    function Networks(): seq<string> {
      seq(|cr.spec.networkAttachments|, i requires 0 <= i < |cr.spec.networkAttachments| =>
        Get(cl.nads, Named(cr.spec.networkAttachments[i])).GetOr(""))
    }

    function Reference(): Option<Key> {
      match cr.spec.topologyRef
      case None => None
      case Some(r) => Some(Key(if r.ns != "" then r.ns else cr.key.ns, r.name))
    }

    /** The topology that was applied last, when the reference is another one now. */
    function Left(): Option<Key> {
      if cr.status.lastAppliedTopology == Reference() then None else cr.status.lastAppliedTopology
    }

    function Finalizer(): string {
      "openstack.org/horizon-" + cr.key.name
    }

    function Placement(): Option<string> {
      match Reference()
      case None => None
      case Some(t) => if t in cl.topologies then Some(cl.topologies[t].spec) else None
    }

    function Pod(): Pods.DeploymentSpec {
      Pods.BuildDeployment(
        lib.propagate, cr.key, cr.spec, Hash(),
        map["service" := "horizon", "owner" := cr.key.name],
        if Attached() then lib.networksAnnotation(Networks()) else map[],
        map["cloudkitty" := Flag("cloudkitty"), "watcher" := Flag("watcher")],
        Placement(), Cache().mtls)
    }

    /** The Deployment behind the write: a new description is a new generation, the status is kept. */
    function Written(): DeploymentObject {
      match Get(cl.deployments, Named("horizon"))
      case None => DeploymentObject(Pod(), Some(cr.key), 1, 0, 0, 0)
      case Some(d) =>
        DeploymentObject(Pod(), Some(cr.key), if d.spec == Pod() then d.generation else d.generation + 1,
                         d.observedGeneration, d.replicas, d.readyReplicas)
    }

    function ReadyCount(): nat {
      if Written().generation == Written().observedGeneration then Written().readyReplicas else cr.status.readyCount
    }

    function Network(): (bool, string) {
      lib.verifyNetwork(cr.spec.networkAttachments, Get(cl.pods, cr.key).GetOr(""), ReadyCount())
    }

    /** The Deployment has been observed as it is, and runs what is asked for and nothing else. */
    predicate IsUp() {
      && Written().generation == Written().observedGeneration
      && Written().readyReplicas == cr.spec.replicas && Written().replicas == cr.spec.replicas
    }

    // ---------- obstacles ----------

    function Failure(): Option<Obstacle> {
      Some(Obstacle(Some(Detail(ErrorReason, Warning, ErrorMessage(o.text))), Failed(o.text)))
    }

    function Silence(): Option<Obstacle> {
      Some(Obstacle(None, Failed(o.text)))
    }

    function Missing(name: string, ctl: Ctl): Option<Obstacle> {
      Some(Obstacle(Some(Detail(ErrorReason, Warning, WaitingMessage(name))), ctl))
    }

    predicate MayPut(call: Call, kind: OwnedKind, name: string) {
      var k := OwnedKey(kind, Named(name));
      call !in o.fail && (k in cl.owned ==> !Foreign(cl.owned[k].owner))
    }

    function Putting(call: Call, kind: OwnedKind, name: string): Option<Obstacle> {
      if !MayPut(call, kind, name) then Failure() else if call in o.wait then Some(Waiting) else None
    }

    function ObstacleAt(t: Item): Option<Obstacle> {
      match t
      case WriteServiceAccount => Putting(PutServiceAccount, ServiceAccountKind, "horizon-" + cr.key.name)
      case WriteRole => Putting(PutRole, RoleKind, "horizon-" + cr.key.name)
      case WriteRoleBinding => Putting(PutRoleBinding, RoleBindingKind, "horizon-" + cr.key.name)
      case ReadSecret =>
        var name := cr.spec.secret;
        if name == "" then
          Some(Obstacle(Some(Detail(MissingDependencies, Info, MissingSecretMessage)),
                        Failed("no openstack secret has been provided")))
        else if GetOpenStackSecret in o.fail then Failure()
        else if Named(name) !in cl.secrets then Missing(name, RequeueAfter)
        else None
      case ReadMemcached =>
        var name := cr.spec.memcachedInstance;
        if GetMemcached in o.fail then Failure()
        else if Named(name) !in cl.memcacheds then Missing(name, RequeueAfter)
        else if !Cache().ready then Some(Obstacle(Some(Detail(RequestedReason, Info, WaitingMessage(name))), RequeueAfter))
        else None
      case ReadBundle =>
        var name := cr.spec.tls.caBundleSecretName;
        if name == "" then None
        else if GetCABundle in o.fail then Failure()
        else if Named(name) !in cl.secrets then Missing(name, Done)
        else if lib.caHash(Data(name)).None? then Failure()
        else None
      case ReadCert =>
        var name := cr.spec.tls.secretName.GetOr("");
        if !WithTLS() then None
        else if GetCert in o.fail then Failure()
        else if Named(name) !in cl.secrets then Some(Obstacle(Some(Detail(RequestedReason, Info, WaitingMessage(name))), Done))
        else if lib.certHash(Data(name)).None? then Failure()
        else None
      case Render =>
        if GetKeystoneAPI in o.fail || KeystoneURL().None? || lib.parseUrl(cr.status.endpoint).None? then Failure() else None
      case WriteConfig =>
        if MayPut(PutConfigData, ConfigMapKind, cr.key.name + "-config-data") && PutConfigData !in o.wait then None else Failure()
      case WriteScripts =>
        if MayPut(PutScripts, ConfigMapKind, cr.key.name + "-scripts") && PutScripts !in o.wait then None else Failure()
      case EnsureKey =>
        if GetHorizonSecret in o.fail then Failure()
        else if HasKey() then None
        else if GenerateKey in o.fail || PutHorizonSecret in o.fail then Failure()
        else if Named("horizon") in cl.secrets && Foreign(cl.secrets[Named("horizon")].owner) then Failure()
        else None
      case StoreHash =>
        if HashInputs in o.fail then Silence()
        else if Get(cr.status.hash, "input") != Some(Hash()) then Some(Obstacle(None, Done))
        else None
      case FindServices =>
        if GetKeystoneService("cloudkitty") in o.fail || GetKeystoneService("watcher") in o.fail then Silence() else None
      case WriteService => if NewService in o.fail then Failure() else Putting(PutService, ServiceKind, "horizon")
      case FindEndpoint => if lib.apiEndpoint(cr.key, cr.spec).None? then Silence() else None
      case Annotate => if Attached() && BuildAnnotation in o.fail then Failure() else None
      case LeaveTopology => if Left().Some? && ReleaseTopology in o.fail then Failure() else None
      case TakeTopology =>
        if Reference().Some? && (AcquireTopology in o.fail || Reference().value !in cl.topologies) then Failure() else None
      case WritePods =>
        if BuildTLS in o.fail && WithTLS() then Failure()
        else if PutDeployment in o.fail then Failure()
        else if Named("horizon") in cl.deployments && Foreign(cl.deployments[Named("horizon")].owner) then Failure()
        else if PutDeployment in o.wait then Some(Waiting)
        else None
      case VerifyPods =>
        if cr.spec.replicas == 0 then None
        else if VerifyNetwork in o.fail || !Network().0 then Failure()
        else None
    }

    // ---------- effects ----------

    function Wrote(w: World, kind: OwnedKind, name: string, content: Content): World {
      w.(cl := w.cl.(owned := w.cl.owned[OwnedKey(kind, Named(name)) := Owned(content, Some(cr.key))]))
    }

    function KeyEnsured(w: World): World {
      if HasKey() then w
      else w.(cl := w.cl.(secrets := w.cl.secrets[Named("horizon") := Secret(NewKey(), Some(cr.key))]),
              trace := w.trace + [WroteSecret(NewKey())])
    }

    function EndpointStored(w: World): World {
      w.(cr := w.cr.(status := w.cr.status.(endpoint := lib.apiEndpoint(cr.key, cr.spec).GetOr(""))))
    }

    function TopologyLeft(w: World): World {
      match Left()
      case None => w
      case Some(t) => w.(cl := w.cl.(topologies := Marked(w.cl.topologies, t, false)), trace := w.trace + [Released(t)])
    }

    function TopologyTaken(w: World): World {
      var cr' := w.cr.(status := w.cr.status.(lastAppliedTopology := Reference()));
      match Reference()
      case None => w.(cr := cr')
      case Some(t) =>
        w.(cr := cr', cl := w.cl.(topologies := Marked(w.cl.topologies, t, true)), trace := w.trace + [Acquired(t)])
    }

    function PodsWritten(w: World): World {
      World(w.cr.(status := w.cr.status.(readyCount := ReadyCount())),
            w.cl.(deployments := w.cl.deployments[Named("horizon") := Written()]),
            w.trace + [WroteDeployment(Pod())])
    }

    function PodsVerified(w: World): World {
      if cr.spec.replicas == 0 then w
      else w.(cr := w.cr.(status := w.cr.status.(networkAttachments := Network().1)), trace := w.trace + [Verified(Network().0)])
    }

    function Effect(t: Item, w: World): World {
      match t
      case WriteServiceAccount => Wrote(w, ServiceAccountKind, "horizon-" + cr.key.name, Rules)
      case WriteRole => Wrote(w, RoleKind, "horizon-" + cr.key.name, Rules)
      case WriteRoleBinding => Wrote(w, RoleBindingKind, "horizon-" + cr.key.name, Rules)
      case WriteConfig => Wrote(w, ConfigMapKind, cr.key.name + "-config-data", Text(Config()))
      case WriteScripts => Wrote(w, ConfigMapKind, cr.key.name + "-scripts", Text(lib.scripts))
      case EnsureKey => KeyEnsured(w)
      case WriteService => Wrote(w, ServiceKind, "horizon", if WithTLS() then Ports(443, 8443) else Ports(80, 8080))
      case FindEndpoint => EndpointStored(w)
      case LeaveTopology => TopologyLeft(w)
      case TakeTopology => TopologyTaken(w)
      case WritePods => PodsWritten(w)
      case VerifyPods => PodsVerified(w)
      case _ => w
    }

    /** The topology with the resource's finalizer on it, or without. */
    function Marked(ts: map<Key, TopologyObject>, t: Key, held: bool): map<Key, TopologyObject> {
      if t !in ts then ts
      else
        var others := ts[t].finalizers - {Finalizer()};
        ts[t := ts[t].(finalizers := if held then others + {Finalizer()} else others)]
    }

    /** What a item has done when it stops the pass: a new hash is stored, a bad network is reported. */
    function Remains(t: Item, w: World): World {
      if t == StoreHash && HashInputs !in o.fail
      then w.(cr := w.cr.(status := w.cr.status.(hash := w.cr.status.hash["input" := Hash()])))
      else if t == VerifyPods && VerifyNetwork !in o.fail then Effect(VerifyPods, w)
      else w
    }

    // ---------- the pass ----------

    /** The first item from the `n`th on that has an obstacle. */
    function FirstObstacle(n: nat): (r: nat)
      decreases ITEMS - n
    {
      if n < |PLAN| && ObstacleAt(PLAN[n]).None? then FirstObstacle(n + 1) else n
    }

    /** How many items the pass gets done. */
    function Items(): nat {
      FirstObstacle(0)
    }

    function After(n: nat): World
      requires n <= |PLAN|
    {
      if n == 0 then World(cr.(status := cr.status.(observedGeneration := cr.generation)), cl, [])
      else Effect(PLAN[n - 1], After(n - 1))
    }

    function End(): World
      requires Items() <= |PLAN|
    {
      if Items() < |PLAN| then Remains(PLAN[Items()], After(Items())) else After(Items())
    }

    function Verdict(): Ctl {
      if Items() < |PLAN| && ObstacleAt(PLAN[Items()]).Some? then ObstacleAt(PLAN[Items()]).value.ctl else Done
    }

    // ---------- conditions ----------

    predicate Reports(t: Type) {
      && Items() < |PLAN| && Concern(PLAN[Items()]) == t
      && ObstacleAt(PLAN[Items()]).Some? && ObstacleAt(PLAN[Items()]).value.report.Some?
    }

    predicate Finishes() {
      Items() == ITEMS
    }

    /** A condition other than Ready at the end of the pass, before times are restored. */
    function Shown(t: Type): Option<Condition> {
      if Reports(t) then Some(Condition(IsFalse, ObstacleAt(PLAN[Items()]).value.report.value, o.now))
      else if t == Deployment && Finishes() then
        Some(if IsUp() then Condition(IsTrue, Detail(ReadyReason, NoSeverity, ReadyMessage), o.now)
             else Condition(IsFalse, Detail(RequestedReason, Info, RunningMessage), o.now))
      else if Items() >= Needs(t) && (t == Topology ==> cr.spec.topologyRef.Some?)
      then Some(Condition(IsTrue, Detail(ReadyReason, NoSeverity, ReadyMessage), o.now))
      else if t in {NetworkAttachments, Topology} then Get(o.stray, t)
      else Some(Condition(IsUnknown, Detail(InitReason, NoSeverity, InitMessage), o.now))
    }

    /** A condition with its stored time, where nothing else about it is new. */
    function Timed(t: Type, c: Condition): Condition {
      var saved := cr.status.conditions;
      if t in saved && saved[t].state == c.state && saved[t].detail == c.detail then saved[t] else c
    }

    function Stored(t: Type): Option<Condition> {
      match Shown(t)
      case None => None
      case Some(c) => Some(Timed(t, c))
    }

    /** Everything is done and True. */
    predicate AllIsWell() {
      && Finishes() && IsUp()
      && forall t | t in {NetworkAttachments, Topology} && Shown(t).Some? :: Shown(t).value.state == IsTrue
    }
  }
}
