/**
  What a pass reads, stated without its order of work: which inputs have to be there, what they
  hash to, and which objects the resource may write.
  */
module Reading {
  import opened Wrappers
  import opened Conditions
  import opened Api
  import opened Clusters
  import opened Passes
  import Volumes
  import Pods

  // ---------- inputs ----------

  function SecretOf(cr: CR, cl: Cluster, name: string): Option<Secret> {
    Get(cl.secrets, Key(cr.key.ns, name))
  }

  function OpenStackVars(lib: Lib, cr: CR, cl: Cluster): Option<Vars> {
    if cr.spec.secret == "" then None
    else
      match SecretOf(cr, cl, cr.spec.secret)
      case None => None
      case Some(s) => Some(map[cr.spec.secret := lib.secretHash(s.data)])
  }

  function MemcachedOf(cr: CR, cl: Cluster): Option<MemcachedObject> {
    match Get(cl.memcacheds, Key(cr.key.ns, cr.spec.memcachedInstance))
    case None => None
    case Some(m) => if m.ready then Some(m) else None
  }

  function CAVars(lib: Lib, cr: CR, cl: Cluster): Option<Vars> {
    if cr.spec.tls.caBundleSecretName == "" then Some(map[])
    else
      match SecretOf(cr, cl, cr.spec.tls.caBundleSecretName)
      case None => None
      case Some(s) =>
        match lib.caHash(s.data)
        case None => None
        case Some(h) => Some(if h != "" then map[CA_BUNDLE_KEY := h] else map[])
  }

  function CertVars(lib: Lib, cr: CR, cl: Cluster): Option<Vars> {
    if !cr.spec.tls.Enabled() then Some(map[])
    else
      match SecretOf(cr, cl, cr.spec.tls.secretName.value)
      case None => None
      case Some(s) =>
        match lib.certHash(s.data)
        case None => None
        case Some(h) => Some(map[TLS_HASH_NAME := h])
  }

  /** The hashes of the secrets, when all of them and memcached are usable. */
  function InputVars(lib: Lib, cr: CR, cl: Cluster): Option<Vars> {
    var osp, ca, cert := OpenStackVars(lib, cr, cl), CAVars(lib, cr, cl), CertVars(lib, cr, cl);
    if osp.Some? && MemcachedOf(cr, cl).Some? && ca.Some? && cert.Some?
    then Some(osp.value + ca.value + cert.value)
    else None
  }

  /** The TLS input that ends a pass quietly because it is not there. */
  predicate TLSMissing(lib: Lib, cr: CR, cl: Cluster) {
    var ca := cr.spec.tls.caBundleSecretName;
    || (ca != "" && SecretOf(cr, cl, ca).None?)
    || (CAVars(lib, cr, cl).Some? && cr.spec.tls.Enabled() && SecretOf(cr, cl, cr.spec.tls.secretName.value).None?)
  }

  /** The detail that names the missing TLS input. */
  function TLSMissingDetail(cr: CR, cl: Cluster): Detail {
    var ca := cr.spec.tls.caBundleSecretName;
    if ca != "" && SecretOf(cr, cl, ca).None? then Detail(ErrorReason, Warning, WaitingMessage(ca))
    else Detail(RequestedReason, Info, WaitingMessage(cr.spec.tls.secretName.GetOr("")))
  }

  /** Everything that goes into the input hash of a pass that finds its secret valid. */
  function AllVars(lib: Lib, cr: CR, cl: Cluster): Option<Vars> {
    match InputVars(lib, cr, cl)
    case None => None
    case Some(v) =>
      match ConfigText(lib, cr, cl, MemcachedOf(cr, cl).value)
      case None => None
      case Some(text) => Some(ConfigVars(lib, cr, text, v))
  }

  /** Which variables each input contributes. */
  lemma Shapes(lib: Lib, cr: CR, cl: Cluster)
    requires InputVars(lib, cr, cl).Some?
    ensures OpenStackVars(lib, cr, cl).Some? && CAVars(lib, cr, cl).Some? && CertVars(lib, cr, cl).Some?
    ensures OpenStackVars(lib, cr, cl).value.Keys == {cr.spec.secret}
    ensures CAVars(lib, cr, cl).value.Keys <= {CA_BUNDLE_KEY} && CertVars(lib, cr, cl).value.Keys <= {TLS_HASH_NAME}
  {
    hide MemcachedOf;
    CAShape(lib, cr, cl);
    CertShape(lib, cr, cl);
    hide CAVars, CertVars;
  }

  lemma CAShape(lib: Lib, cr: CR, cl: Cluster)
    ensures CAVars(lib, cr, cl).Some? ==> CAVars(lib, cr, cl).value.Keys <= {CA_BUNDLE_KEY}
  {
  }

  lemma CertShape(lib: Lib, cr: CR, cl: Cluster)
    ensures CertVars(lib, cr, cl).Some? ==> CertVars(lib, cr, cl).value.Keys <= {TLS_HASH_NAME}
  {
  }

  /** The same key, specification and endpoint, and the same objects to read inputs from. */
  predicate SameSources(a: CR, acl: Cluster, b: CR, bcl: Cluster) {
    && b.key == a.key && b.spec == a.spec && b.status.endpoint == a.status.endpoint
    && bcl.secrets == acl.secrets && bcl.memcacheds == acl.memcacheds && bcl.keystones == acl.keystones
  }

  lemma SourcesDecide(lib: Lib, a: CR, acl: Cluster, b: CR, bcl: Cluster)
    requires SameSources(a, acl, b, bcl)
    ensures AllVars(lib, a, acl) == AllVars(lib, b, bcl) && MemcachedOf(a, acl) == MemcachedOf(b, bcl)
    ensures OpenStackVars(lib, a, acl) == OpenStackVars(lib, b, bcl)
    ensures TLSMissing(lib, a, acl) == TLSMissing(lib, b, bcl) && TLSMissingDetail(a, acl) == TLSMissingDetail(b, bcl)
    ensures forall m :: ConfigText(lib, a, acl, m) == ConfigText(lib, b, bcl, m)
  {
    SecretsDecide(lib, a, acl, b, bcl);
    TextDecides(lib, a, acl, b, bcl);
    hide OpenStackVars, CAVars, CertVars, ConfigText, TLSMissing, TLSMissingDetail;
  }

  lemma SecretsDecide(lib: Lib, a: CR, acl: Cluster, b: CR, bcl: Cluster)
    requires b.key == a.key && b.spec == a.spec && bcl.secrets == acl.secrets
    ensures OpenStackVars(lib, a, acl) == OpenStackVars(lib, b, bcl)
    ensures CAVars(lib, a, acl) == CAVars(lib, b, bcl) && CertVars(lib, a, acl) == CertVars(lib, b, bcl)
    ensures TLSMissing(lib, a, acl) == TLSMissing(lib, b, bcl) && TLSMissingDetail(a, acl) == TLSMissingDetail(b, bcl)
  {
    assert forall name :: SecretOf(a, acl, name) == SecretOf(b, bcl, name);
    hide SecretOf;
  }

  lemma TextDecides(lib: Lib, a: CR, acl: Cluster, b: CR, bcl: Cluster)
    requires b.key == a.key && b.spec == a.spec && b.status.endpoint == a.status.endpoint && bcl.keystones == acl.keystones
    ensures forall m :: ConfigText(lib, a, acl, m) == ConfigText(lib, b, bcl, m)
  {
  }

  // ---------- objects ----------

  predicate IsOwned(cl: Cluster, k: OwnedKey, content: Content, self: Key) {
    Get(cl.owned, k) == Some(Owned(content, Some(self)))
  }

  predicate MayWrite(cl: Cluster, k: OwnedKey, self: Key) {
    k in cl.owned ==> Controllable(cl.owned[k].owner, self)
  }

  predicate RbacInPlace(cr: CR, cl: Cluster) {
    && IsOwned(cl, RbacKey(cr, ServiceAccountKind), Rules, cr.key)
    && IsOwned(cl, RbacKey(cr, RoleKind), Rules, cr.key)
    && IsOwned(cl, RbacKey(cr, RoleBindingKind), Rules, cr.key)
  }

  predicate MayWriteRbac(cr: CR, cl: Cluster) {
    && MayWrite(cl, RbacKey(cr, ServiceAccountKind), cr.key)
    && MayWrite(cl, RbacKey(cr, RoleKind), cr.key)
    && MayWrite(cl, RbacKey(cr, RoleBindingKind), cr.key)
  }

  predicate ConfigInPlace(lib: Lib, cr: CR, cl: Cluster, text: string) {
    && IsOwned(cl, ConfigMapKey(cr, ConfigDataName(cr)), Text(text), cr.key)
    && IsOwned(cl, ConfigMapKey(cr, ScriptsName(cr)), Text(lib.scripts), cr.key)
  }

  predicate MayWriteConfig(cr: CR, cl: Cluster) {
    && MayWrite(cl, ConfigMapKey(cr, ConfigDataName(cr)), cr.key)
    && MayWrite(cl, ConfigMapKey(cr, ScriptsName(cr)), cr.key)
  }

  lemma NamesDiffer(cr: CR)
    ensures ConfigDataName(cr) != ScriptsName(cr)
  {
    var a, b := ConfigDataName(cr), ScriptsName(cr);
    assert a[|a| - 1] == 'a' && b[|b| - 1] == 's';
  }

  // ---------- what the stages mean ----------

  lemma RbacMeaning(o: Oracle, w: World)
    ensures var s := Rbac(o, w);
      && (s.Next? ==> SameButOwned(w, s.value) && RbacInPlace(w.cr, s.value.cl))
      && (s.Next? ==> forall k: OwnedKey | k.kind in {ConfigMapKind, ServiceKind} :: Get(s.value.cl.owned, k) == Get(w.cl.owned, k))
      && (s.Halt? ==> SameButOwned(w, s.world) && s.stop.ctl != Done && Order(s.stop.position) < 3)
    ensures MayWriteRbac(w.cr, w.cl) && Smooth(o) ==> Rbac(o, w).Next?
    ensures !MayWriteRbac(w.cr, w.cl) ==> Rbac(o, w).Halt?
  {
  }

  lemma CAMeaning(lib: Lib, o: Oracle, w: World, vars: Vars)
    ensures var s := CABundle(lib, o, w, vars);
      && (s.Next? ==> CAVars(lib, w.cr, w.cl).Some? && s.value == vars + CAVars(lib, w.cr, w.cl).value)
      && (s.Halt? ==> s.world == w && s.stop.position == AtTLS)
      && (s.Halt? && s.stop.ctl == Done ==>
          TLSMissing(lib, w.cr, w.cl) && s.stop == Stop(AtTLS, Some(TLSMissingDetail(w.cr, w.cl)), Done))
    ensures Smooth(o) ==>
      && (CAVars(lib, w.cr, w.cl).Some? ==> CABundle(lib, o, w, vars).Next?)
      && (TLSMissing(lib, w.cr, w.cl) && CABundle(lib, o, w, vars).Halt? ==> CABundle(lib, o, w, vars).stop.ctl == Done)
  {
  }

  lemma CertMeaning(lib: Lib, o: Oracle, w: World, vars: Vars)
    requires CAVars(lib, w.cr, w.cl).Some?
    ensures var s := Cert(lib, o, w, vars);
      && (s.Next? ==> CertVars(lib, w.cr, w.cl).Some? && s.value == vars + CertVars(lib, w.cr, w.cl).value)
      && (s.Halt? ==> s.world == w && s.stop.position == AtTLS)
      && (s.Halt? && s.stop.ctl == Done ==>
          TLSMissing(lib, w.cr, w.cl) && s.stop == Stop(AtTLS, Some(TLSMissingDetail(w.cr, w.cl)), Done))
    ensures Smooth(o) ==>
      && (CertVars(lib, w.cr, w.cl).Some? ==> Cert(lib, o, w, vars).Next?)
      && (TLSMissing(lib, w.cr, w.cl) ==> Cert(lib, o, w, vars).Halt? && Cert(lib, o, w, vars).stop.ctl == Done)
  {
  }

  lemma OpenStackMeaning(lib: Lib, o: Oracle, w: World)
    ensures var s := OpenStackSecret(lib, o, w);
      && (s.Next? ==> OpenStackVars(lib, w.cr, w.cl) == Some(s.value))
      && (s.Halt? ==> s.world == w && s.stop.position == AtInput && s.stop.ctl != Done)
  {
  }

  lemma MemcachedMeaning(o: Oracle, w: World)
    ensures var s := ReadyMemcached(o, w);
      && (s.Next? ==> MemcachedOf(w.cr, w.cl) == Some(s.value))
      && (s.Halt? ==> s.world == w && s.stop.position == AtMemcached && s.stop.ctl != Done)
  {
  }

  /** What it takes to pass the input stages, and what the pass then carries on. */
  lemma InputsMeaning(lib: Lib, o: Oracle, w: World)
    ensures var s := Inputs(lib, o, w);
      && (s.Next? ==>
          && Rbac(o, w) == Next(s.value.0)
          && InputVars(lib, w.cr, w.cl) == Some(s.value.1)
          && MemcachedOf(w.cr, w.cl) == Some(s.value.2))
      && (s.Halt? ==> SameButOwned(w, s.world) && Order(s.stop.position) <= 5)
      && (s.Halt? && s.stop.ctl == Done ==>
          && Rbac(o, w) == Next(s.world)
          && OpenStackVars(lib, w.cr, w.cl).Some? && MemcachedOf(w.cr, w.cl).Some? && TLSMissing(lib, w.cr, w.cl)
          && s.stop == Stop(AtTLS, Some(TLSMissingDetail(w.cr, w.cl)), Done))
  {
    hide Rbac, OpenStackSecret, ReadyMemcached, CABundle, Cert;
    hide OpenStackVars, MemcachedOf, CAVars, CertVars, TLSMissing, TLSMissingDetail, RbacInPlace;
    RbacMeaning(o, w);
    var s := Rbac(o, w);
    if s.Next? {
      SourcesDecide(lib, w.cr, w.cl, w.cr, s.value.cl);
      SecretsDecide(lib, w.cr, w.cl, w.cr, s.value.cl);
      OpenStackMeaning(lib, o, s.value);
      MemcachedMeaning(o, s.value);
      if OpenStackSecret(lib, o, s.value).Next? {
        var v := OpenStackSecret(lib, o, s.value).value;
        CAMeaning(lib, o, s.value, v);
        if CABundle(lib, o, s.value, v).Next? {
          CertMeaning(lib, o, s.value, CABundle(lib, o, s.value, v).value);
        }
      }
    }
  }

  /** A smooth pass gets past the input stages whenever the inputs are there. */
  lemma InputsComplete(lib: Lib, o: Oracle, w: World)
    requires Smooth(o) && Rbac(o, w).Next?
    requires OpenStackVars(lib, w.cr, w.cl).Some? && MemcachedOf(w.cr, w.cl).Some?
    ensures InputVars(lib, w.cr, w.cl).Some? ==> Inputs(lib, o, w).Next?
    ensures TLSMissing(lib, w.cr, w.cl) ==> Inputs(lib, o, w).Halt? && Inputs(lib, o, w).stop.ctl == Done
  {
    RbacMeaning(o, w);
    hide Rbac, CABundle, Cert;
    var w1 := Rbac(o, w).value;
    var v := OpenStackSecret(lib, o, w1).value;
    CAMeaning(lib, o, w1, v);
    if CABundle(lib, o, w1, v).Next? {
      CertMeaning(lib, o, w1, CABundle(lib, o, w1, v).value);
    }
  }

  lemma ConfigMeaning(lib: Lib, o: Oracle, w: World, m: MemcachedObject, vars: Vars)
    ensures var s := ConfigMaps(lib, o, w, m, vars);
      && (s.Next? ==>
          && SameButOwned(w, s.value.0)
          && ConfigText(lib, w.cr, w.cl, m).Some?
          && s.value.1 == ConfigVars(lib, w.cr, ConfigText(lib, w.cr, w.cl, m).value, vars)
          && ConfigInPlace(lib, w.cr, s.value.0.cl, ConfigText(lib, w.cr, w.cl, m).value)
          && forall k: OwnedKey | k.kind != ConfigMapKind :: Get(s.value.0.cl.owned, k) == Get(w.cl.owned, k))
      && (s.Halt? ==> SameButOwned(w, s.world) && s.stop.position == AtConfig && s.stop.ctl.Failed?)
    ensures Smooth(o) && MayWriteConfig(w.cr, w.cl) && ConfigText(lib, w.cr, w.cl, m).Some?
      ==> ConfigMaps(lib, o, w, m, vars).Next?
    ensures !MayWriteConfig(w.cr, w.cl) ==> ConfigMaps(lib, o, w, m, vars).Halt?
  {
    NamesDiffer(w.cr);
  }

  predicate MayWriteSecret(cr: CR, cl: Cluster) {
    var k := HorizonSecretKey(cr.key.ns);
    k in cl.secrets ==> Controllable(cl.secrets[k].owner, cr.key)
  }

  /** The variables that a pass hashes: those it reads, and the secret it has just created, if any. */
  function HashedVars(lib: Lib, o: Oracle, cr: CR, cl: Cluster): Vars
    requires AllVars(lib, cr, cl).Some?
  {
    var vars := AllVars(lib, cr, cl).value;
    if HasValidSecret(cl.secrets, cr.key.ns) then vars
    else vars[Volumes.SERVICE_NAME := lib.secretHash(NewSecretData(o))]
  }

  /** The secrets behind the secret stage. */
  function SecretsAfter(o: Oracle, cr: CR, cl: Cluster): map<Key, Secret> {
    if HasValidSecret(cl.secrets, cr.key.ns) then cl.secrets
    else cl.secrets[HorizonSecretKey(cr.key.ns) := Secret(NewSecretData(o), Some(cr.key))]
  }

  function TraceAfter(o: Oracle, w: World): seq<Action> {
    if HasValidSecret(w.cl.secrets, w.cr.key.ns) then w.trace else w.trace + [WroteSecret(NewSecretData(o))]
  }

  /** The world in which a pass reaches the hash gate. */
  ghost predicate AtGate(lib: Lib, o: Oracle, w: World, w': World) {
    && AllVars(lib, w.cr, w.cl).Some?
    && w' == World(w.cr, w.cl.(owned := w'.cl.owned, secrets := SecretsAfter(o, w.cr, w.cl)), TraceAfter(o, w))
    && RbacInPlace(w.cr, w'.cl)
    && ConfigInPlace(lib, w.cr, w'.cl, ConfigText(lib, w.cr, w.cl, MemcachedOf(w.cr, w.cl).value).value)
    && Get(w'.cl.owned, ServiceKey(w.cr.key.ns)) == Get(w.cl.owned, ServiceKey(w.cr.key.ns))
  }

  predicate MayPrepare(cr: CR, cl: Cluster) {
    MayWriteRbac(cr, cl) && MayWriteConfig(cr, cl) && (HasValidSecret(cl.secrets, cr.key.ns) || MayWriteSecret(cr, cl))
  }

  function WithHash(cr: CR, hash: string): CR {
    cr.(status := cr.status.(hash := cr.status.hash[INPUT_HASH_NAME := hash]))
  }

  lemma SecretStage(lib: Lib, o: Oracle, w: World, vars: Vars)
    ensures var s := HorizonSecret(lib, o, w, vars);
      && (s.Next? ==>
          && s.value.0 == World(w.cr, w.cl.(secrets := SecretsAfter(o, w.cr, w.cl)), TraceAfter(o, w))
          && s.value.1 == if HasValidSecret(w.cl.secrets, w.cr.key.ns) then vars
                          else vars[Volumes.SERVICE_NAME := lib.secretHash(NewSecretData(o))])
      && (s.Halt? ==> s.world == w && s.stop.position == AtConfig && s.stop.ctl.Failed?)
    ensures Smooth(o) && (HasValidSecret(w.cl.secrets, w.cr.key.ns) || MayWriteSecret(w.cr, w.cl))
      ==> HorizonSecret(lib, o, w, vars).Next?
  {
  }

  /** The stages in front of the gate, put together. */
  lemma GateAssembled(lib: Lib, o: Oracle, w: World, w1: World, v1: Vars, m: MemcachedObject, w2: World, v2: Vars)
    requires Rbac(o, w) == Next(w1) && InputVars(lib, w.cr, w.cl) == Some(v1) && MemcachedOf(w.cr, w.cl) == Some(m)
    requires ConfigMaps(lib, o, w1, m, v1) == Next((w2, v2)) && HorizonSecret(lib, o, w2, v2).Next?
    ensures AtGate(lib, o, w, HorizonSecret(lib, o, w2, v2).value.0)
    ensures HorizonSecret(lib, o, w2, v2).value.1 == HashedVars(lib, o, w.cr, w.cl)
  {
    hide Rbac, ConfigMaps, HorizonSecret, InputVars, ConfigText, MemcachedOf, HasValidSecret, ConfigInPlace;
    RbacMeaning(o, w);
    ConfigMeaning(lib, o, w1, m, v1);
    SecretStage(lib, o, w2, v2);
    SourcesDecide(lib, w.cr, w.cl, w.cr, w1.cl);
    var text := ConfigText(lib, w1.cr, w1.cl, m).value;
    SameFiles(lib, w.cr, w2.cl, HorizonSecret(lib, o, w2, v2).value.0.cl, text);
  }

  lemma SameFiles(lib: Lib, cr: CR, a: Cluster, b: Cluster, text: string)
    requires a.owned == b.owned && ConfigInPlace(lib, cr, a, text)
    ensures ConfigInPlace(lib, cr, b, text)
  {
  }

  /** The work up to the gate, seen from its end. */
  lemma ReachingTheGate(lib: Lib, o: Oracle, w: World)
    ensures var s := BeforeGate(lib, o, w);
      && (s.Next? ==>
          && AtGate(lib, o, w, s.value.0)
          && MemcachedOf(w.cr, w.cl) == Some(s.value.2)
          && s.value.1 == HashedVars(lib, o, w.cr, w.cl))
      && (s.Halt? ==>
          && Order(s.stop.position) <= 6
          && s.world == w.(cl := w.cl.(owned := s.world.cl.owned))
          && (s.stop.ctl == Done ==> s.stop.position == AtTLS && Inputs(lib, o, w) == Halt(s.world, s.stop)))
  {
    hide Inputs, ConfigMaps, HorizonSecret, Rbac, AllVars, InputVars, HashedVars, ConfigText, MemcachedOf, AtGate;
    hide SecretsAfter, TraceAfter, ConfigInPlace, RbacInPlace, OpenStackVars, TLSMissing;
    InputsMeaning(lib, o, w);
    RbacMeaning(o, w);
    var s := Inputs(lib, o, w);
    if s.Next? {
      var (w1, v1, m) := s.value;
      ConfigMeaning(lib, o, w1, m, v1);
      var c := ConfigMaps(lib, o, w1, m, v1);
      if c.Next? {
        SecretStage(lib, o, c.value.0, c.value.1);
        if HorizonSecret(lib, o, c.value.0, c.value.1).Next? {
          GateAssembled(lib, o, w, w1, v1, m, c.value.0, c.value.1);
        }
      }
    }
  }

  lemma GateIsReached(lib: Lib, o: Oracle, w: World)
    requires Smooth(o) && MayPrepare(w.cr, w.cl) && AllVars(lib, w.cr, w.cl).Some?
    ensures BeforeGate(lib, o, w).Next?
  {
    InputsMeaning(lib, o, w);
    RbacMeaning(o, w);
    InputsComplete(lib, o, w);
    hide Inputs, ConfigMaps, HorizonSecret, Rbac;
    var s := Inputs(lib, o, w);
    if s.Next? {
      ConfigMeaning(lib, o, s.value.0, s.value.2, s.value.1);
      var c := ConfigMaps(lib, o, s.value.0, s.value.2, s.value.1);
      if c.Next? {
        SecretStage(lib, o, c.value.0, c.value.1);
      }
    }
  }

  // ---------- behind the gate ----------

  function ServicesOf(cr: CR, cl: Cluster): map<string, string> {
    map["cloudkitty" := YesNo(Key(cr.key.ns, "cloudkitty") in cl.keystoneServices),
        "watcher" := YesNo(Key(cr.key.ns, "watcher") in cl.keystoneServices)]
  }

  /** The pods' network annotation; `fail` holds the calls that return an error. */
  function Annotations(lib: Lib, fail: set<Call>, cr: CR, cl: Cluster): map<string, string> {
    match FindNADs(fail, cl.nads, cr.key.ns, cr.spec.networkAttachments)
    case AllFound(nads) => lib.networksAnnotation(nads)
    case _ => map[]
  }

  /** The reads of attachments that the pass glosses over made no difference. */
  predicate AttachmentsAgree(lib: Lib, o: Oracle, cr: CR, cl: Cluster) {
    Annotations(lib, o.fail, cr, cl) == Annotations(lib, {}, cr, cl)
  }

  predicate TopologyUsable(cr: CR, cl: Cluster) {
    cr.TopologyRef().Some? ==> cr.TopologyRef().value in cl.topologies
  }

  function TopologySpec(cr: CR, cl: Cluster): Option<string> {
    match cr.TopologyRef()
    case None => None
    case Some(t) => if t in cl.topologies then Some(cl.topologies[t].spec) else None
  }

  /** The reference moved: the topology that was applied last is let go of. */
  predicate Moved(cr: CR) {
    cr.status.lastAppliedTopology.Some? && cr.status.lastAppliedTopology != cr.TopologyRef()
  }

  function TopologiesLeft(cr: CR, ts: Topologies): Topologies {
    if Moved(cr) then Without(ts, cr.status.lastAppliedTopology.value, TopologyFinalizer(cr.key)) else ts
  }

  function TopologiesHeld(cr: CR, ts: Topologies): Topologies {
    match cr.TopologyRef()
    case None => TopologiesLeft(cr, ts)
    case Some(t) => With(TopologiesLeft(cr, ts), t, TopologyFinalizer(cr.key))
  }

  function TopologyCalls(cr: CR): seq<Action> {
    (if Moved(cr) then [Released(cr.status.lastAppliedTopology.value)] else [])
    + (match cr.TopologyRef() case None => [] case Some(t) => [Acquired(t)])
  }

  predicate MayDeploy(cr: CR, cl: Cluster) {
    var k := DeploymentKey(cr.key.ns);
    k in cl.deployments ==> Controllable(cl.deployments[k].owner, cr.key)
  }

  function DesiredSpec(lib: Lib, fail: set<Call>, cr: CR, cl: Cluster, hash: string, m: MemcachedObject): Pods.DeploymentSpec {
    Desired(lib, cr, hash, m, ServicesOf(cr, cl), Annotations(lib, fail, cr, cl), TopologySpec(cr, cl))
  }

  function DeployedObject(lib: Lib, fail: set<Call>, cr: CR, cl: Cluster, hash: string, m: MemcachedObject): DeploymentObject {
    PutDeploymentObject(Get(cl.deployments, DeploymentKey(cr.key.ns)), cr.key, DesiredSpec(lib, fail, cr, cl, hash, m))
  }

  /** The instance behind the topology stage. */
  function Placed(lib: Lib, cr: CR): CR
    requires lib.apiEndpoint(cr.key, cr.spec).Some?
  {
    cr.(status := cr.status.(
      endpoint := lib.apiEndpoint(cr.key, cr.spec).value,
      lastAppliedTopology := cr.TopologyRef()))
  }

  /** The instance behind the Deployment stage. */
  function Deployed(lib: Lib, cr: CR, d: DeploymentObject): CR
    requires lib.apiEndpoint(cr.key, cr.spec).Some?
  {
    var cr' := Placed(lib, cr);
    if d.generation == d.observedGeneration then cr'.(status := cr'.status.(readyCount := d.readyReplicas)) else cr'
  }

  function ServiceWritten(cr: CR, cl: Cluster): Cluster {
    cl.(owned := cl.owned[ServiceKey(cr.key.ns) := Owned(ServicePorts(cr.spec), Some(cr.key))])
  }

  function ClusterPlaced(cr: CR, cl: Cluster): Cluster {
    ServiceWritten(cr, cl).(topologies := TopologiesHeld(cr, cl.topologies))
  }

  function ClusterDeployed(cr: CR, cl: Cluster, d: DeploymentObject): Cluster {
    ClusterPlaced(cr, cl).(deployments := cl.deployments[DeploymentKey(cr.key.ns) := d])
  }

  lemma ServicesMeaning(o: Oracle, w: World)
    ensures var s := EnabledServices(o, w, KEYSTONE_SERVICES_WATCH);
      && (s.Next? ==> s.value == ServicesOf(w.cr, w.cl))
      && (s.Halt? ==> s.world == w && s.stop.position == AtService && s.stop.ctl.Failed?)
    ensures Smooth(o) ==> EnabledServices(o, w, KEYSTONE_SERVICES_WATCH).Next?
  {
    var names := KEYSTONE_SERVICES_WATCH;
    assert names[..1] == ["cloudkitty"] && ["cloudkitty"][..0] == [];
    assert EnabledServices(o, w, []) == Next(map[]);
  }

  lemma TopologyMeaning(o: Oracle, w: World)
    ensures var s := EnsureTopology(o, w);
      && (s.Next? ==>
          && TopologyUsable(w.cr, w.cl)
          && s.value.1 == TopologySpec(w.cr, w.cl)
          && s.value.0 == World(w.cr.(status := w.cr.status.(lastAppliedTopology := w.cr.TopologyRef())),
                                w.cl.(topologies := TopologiesHeld(w.cr, w.cl.topologies)),
                                w.trace + TopologyCalls(w.cr)))
      && (s.Halt? ==>
          && s.stop.position == AtTopology && s.stop.ctl.Failed?
          && (|| s.world == w
              || (Moved(w.cr) && s.world == Release(w, w.cr.status.lastAppliedTopology.value))))
    ensures Smooth(o) && TopologyUsable(w.cr, w.cl) ==> EnsureTopology(o, w).Next?
  {
    assert w.trace + [] == w.trace;
    assert TopologyCalls(w.cr) == [] ==> w.trace + TopologyCalls(w.cr) == w.trace;
    if Moved(w.cr) && w.cr.TopologyRef().Some? {
      var a, b := [Released(w.cr.status.lastAppliedTopology.value)], [Acquired(w.cr.TopologyRef().value)];
      assert w.trace + (a + b) == (w.trace + a) + b;
    }
  }

  lemma ServiceMeaning(lib: Lib, o: Oracle, w: World)
    ensures var s := ServiceInit(lib, o, w);
      var e := lib.apiEndpoint(w.cr.key, w.cr.spec);
      && (s.Next? ==>
          && e.Some?
          && s.value == World(w.cr.(status := w.cr.status.(endpoint := e.value)), ServiceWritten(w.cr, w.cl), w.trace))
      && (s.Halt? ==>
          && s.stop.position == AtService && s.stop.ctl != Done
          && (s.world == w || s.world == w.(cl := ServiceWritten(w.cr, w.cl))))
    ensures Smooth(o) && MayWrite(w.cl, ServiceKey(w.cr.key.ns), w.cr.key) && lib.apiEndpoint(w.cr.key, w.cr.spec).Some?
      ==> ServiceInit(lib, o, w).Next?
    ensures !MayWrite(w.cl, ServiceKey(w.cr.key.ns), w.cr.key) ==> ServiceInit(lib, o, w).Halt?
  {
  }

  lemma DeploymentMeaning(o: Oracle, w: World, spec: Pods.DeploymentSpec)
    ensures var s := WriteDeployment(o, w, spec);
      && (s.Next? ==>
          && MayDeploy(w.cr, w.cl)
          && s.value.1 == PutDeploymentObject(Get(w.cl.deployments, DeploymentKey(w.cr.key.ns)), w.cr.key, spec)
          && s.value.0.cr == (if s.value.1.generation == s.value.1.observedGeneration
                              then w.cr.(status := w.cr.status.(readyCount := s.value.1.readyReplicas)) else w.cr)
          && s.value.0.cl == w.cl.(deployments := w.cl.deployments[DeploymentKey(w.cr.key.ns) := s.value.1])
          && s.value.0.trace == w.trace + [WroteDeployment(spec)])
      && (s.Halt? ==> s.world == w && s.stop.position == AtDeployment && s.stop.ctl != Done)
    ensures Smooth(o) && MayDeploy(w.cr, w.cl) ==> WriteDeployment(o, w, spec).Next?
  {
  }

  /** Storing an endpoint changes nothing that the topology stage looks at. */
  lemma EndpointIsNotPlacement(cr: CR, endpoint: string, cl: Cluster)
    ensures var cr' := cr.(status := cr.status.(endpoint := endpoint));
      && TopologiesHeld(cr', cl.topologies) == TopologiesHeld(cr, cl.topologies)
      && TopologyCalls(cr') == TopologyCalls(cr)
      && TopologySpec(cr', cl) == TopologySpec(cr, cl)
      && TopologyUsable(cr', cl) == TopologyUsable(cr, cl)
      && cr'.TopologyRef() == cr.TopologyRef()
  {
  }

  lemma PlacementIgnoresOwned(cr: CR, a: Cluster, b: Cluster)
    requires a.topologies == b.topologies
    ensures TopologySpec(cr, a) == TopologySpec(cr, b) && TopologyUsable(cr, a) == TopologyUsable(cr, b)
  {
  }

  /** What the stages behind the gate lead to, all read off the world at the gate. */
  lemma DescribeMeaning(lib: Lib, o: Oracle, w: World, hash: string, m: MemcachedObject)
    requires Describe(lib, o, w, hash, m).Next?
    ensures lib.apiEndpoint(w.cr.key, w.cr.spec).Some? && TopologyUsable(w.cr, w.cl)
    ensures Describe(lib, o, w, hash, m).value ==
      (World(Placed(lib, w.cr), ClusterPlaced(w.cr, w.cl), w.trace + TopologyCalls(w.cr)),
       DesiredSpec(lib, o.fail, w.cr, w.cl, hash, m))
  {
    hide EnabledServices, ServiceInit, EnsureTopology, FindNADs, Pods.BuildDeployment, Desired;
    hide TopologiesHeld, TopologyCalls, TopologySpec, TopologyUsable, ServicesOf;
    ServicesMeaning(o, w);
    ServiceMeaning(lib, o, w);
    var w1 := ServiceInit(lib, o, w).value;
    TopologyMeaning(o, w1);
    EndpointIsNotPlacement(w.cr, lib.apiEndpoint(w.cr.key, w.cr.spec).GetOr(""), w1.cl);
    PlacementIgnoresOwned(w.cr, w.cl, w1.cl);
  }

  lemma DeployMeaning(lib: Lib, o: Oracle, w: World, hash: string, m: MemcachedObject)
    requires Deploy(lib, o, w, hash, m).Next?
    ensures var (w', d) := Deploy(lib, o, w, hash, m).value;
      && lib.apiEndpoint(w.cr.key, w.cr.spec).Some? && TopologyUsable(w.cr, w.cl) && MayDeploy(w.cr, w.cl)
      && d == DeployedObject(lib, o.fail, w.cr, w.cl, hash, m)
      && w'.cr == Deployed(lib, w.cr, d)
      && w'.cl == ClusterDeployed(w.cr, w.cl, d)
      && w'.trace == w.trace + TopologyCalls(w.cr) + [WroteDeployment(DesiredSpec(lib, o.fail, w.cr, w.cl, hash, m))]
  {
    DescribeMeaning(lib, o, w, hash, m);
    var (w1, spec) := Describe(lib, o, w, hash, m).value;
    DeploymentMeaning(o, w1, spec);
    hide Describe, WriteDeployment, TopologiesHeld, TopologyCalls, DesiredSpec, PutDeploymentObject;
  }

  /** What a failure behind the gate can have changed. */
  ghost predicate Unfinished(lib: Lib, w: World, w': World) {
    && w'.cl == w.cl.(owned := w'.cl.owned, topologies := w'.cl.topologies)
    && (w'.cr == w.cr || (lib.apiEndpoint(w.cr.key, w.cr.spec).Some? &&
        w'.cr.(status := w'.cr.status.(lastAppliedTopology := w.cr.status.lastAppliedTopology))
        == w.cr.(status := w.cr.status.(endpoint := lib.apiEndpoint(w.cr.key, w.cr.spec).value))))
    && (|| (w'.cl.topologies == w.cl.topologies && w'.trace == w.trace
            && w'.cr.status.lastAppliedTopology == w.cr.status.lastAppliedTopology)
        || (Moved(w.cr) && w'.cl.topologies == TopologiesLeft(w.cr, w.cl.topologies)
            && w'.trace == w.trace + [Released(w.cr.status.lastAppliedTopology.value)]
            && w'.cr.status.lastAppliedTopology == w.cr.status.lastAppliedTopology)
        || (TopologyUsable(w.cr, w.cl) && w'.cl.topologies == TopologiesHeld(w.cr, w.cl.topologies)
            && w'.trace == w.trace + TopologyCalls(w.cr)
            && w'.cr.status.lastAppliedTopology == w.cr.TopologyRef()))
  }

  lemma DescribeFails(lib: Lib, o: Oracle, w: World, hash: string, m: MemcachedObject)
    requires Describe(lib, o, w, hash, m).Halt?
    ensures var s := Describe(lib, o, w, hash, m);
      Unfinished(lib, w, s.world) && s.stop.ctl != Done && 7 <= Order(s.stop.position) <= 9
  {
    hide EnabledServices, ServiceInit, EnsureTopology, FindNADs, Pods.BuildDeployment, With, Without, TopologiesHeld;
    hide TopologyCalls, Desired;
    ServicesMeaning(o, w);
    ServiceMeaning(lib, o, w);
    var s := ServiceInit(lib, o, w);
    if s.Next? {
      TopologyMeaning(o, s.value);
    }
  }

  lemma DescribeKeepsLast(lib: Lib, o: Oracle, w: World, hash: string, m: MemcachedObject)
    requires Describe(lib, o, w, hash, m).Halt?
    ensures Describe(lib, o, w, hash, m).world.cr.status.lastAppliedTopology == w.cr.status.lastAppliedTopology
  {
    hide EnabledServices, ServiceInit, FindNADs, With, Without;
    ServicesMeaning(o, w);
    ServiceMeaning(lib, o, w);
  }

  lemma DeployFails(lib: Lib, o: Oracle, w: World, hash: string, m: MemcachedObject)
    requires Deploy(lib, o, w, hash, m).Halt?
    ensures var s := Deploy(lib, o, w, hash, m);
      && Unfinished(lib, w, s.world) && s.stop.ctl != Done && 7 <= Order(s.stop.position) <= 10
      && s.world.cr.status.lastAppliedTopology
         == if s.stop.position == AtDeployment then w.cr.TopologyRef() else w.cr.status.lastAppliedTopology
  {
    hide Describe, WriteDeployment, TopologiesHeld, TopologiesLeft, TopologyCalls, TopologyUsable, DesiredSpec;
    if Describe(lib, o, w, hash, m).Next? {
      DescribeMeaning(lib, o, w, hash, m);
      var (w1, spec) := Describe(lib, o, w, hash, m).value;
      DeploymentMeaning(o, w1, spec);
    } else {
      DescribeFails(lib, o, w, hash, m);
      DescribeKeepsLast(lib, o, w, hash, m);
    }
  }
}
