/**
  Which resources a change in the cluster puts back on the work queue: the field indexes, the watch
  map functions and the owner references of SetupWithManager (horizon_controller.go).
  */
module Watches {
  import opened Wrappers
  import opened Api
  import opened Clusters
  import opened Passes

  // ---------- field indexes ----------

  datatype Field = PasswordSecret | CABundleSecret | TLSSecret | TopologyName

  const ALL_WATCH_FIELDS: seq<Field> := [PasswordSecret, CABundleSecret, TLSSecret, TopologyName]

  /** The values under which a resource is filed in an index. */
  function IndexValues(f: Field, spec: Spec): seq<string> {
    match f
    case PasswordSecret => if spec.secret == "" then [] else [spec.secret]
    case CABundleSecret => if spec.tls.caBundleSecretName == "" then [] else [spec.tls.caBundleSecretName]
    case TLSSecret => if spec.tls.secretName.None? then [] else [spec.tls.secretName.value]
    case TopologyName => if spec.topologyRef.None? then [] else [spec.topologyRef.value.name]
  }

  /** A brute-force scan: the resource of the same namespace has the name in one of its fields. */
  predicate RefersTo(cr: CR, src: Key) {
    cr.key.ns == src.ns && exists f: Field :: src.name in IndexValues(f, cr.spec)
  }

  // ---------- map functions, one resource at a time ----------

  predicate UsesMemcached(cr: CR, src: Key) {
    cr.key.ns == src.ns && src.name == cr.spec.memcachedInstance
  }

  predicate UsesNAD(cr: CR, src: Key) {
    cr.key.ns == src.ns && src.name in cr.spec.networkAttachments
  }

  predicate UsesKeystoneService(cr: CR, src: Key) {
    cr.key.ns == src.ns && src.name in KEYSTONE_SERVICES_WATCH
  }

  // ---------- changes ----------

  predicate OwnedBy<T>(o: Option<T>, owner: T -> Option<Key>, k: Key) {
    o.Some? && owner(o.value) == Some(k)
  }

  /** The owner before or after the change is told of it. */
  predicate SecretEvent(cr: CR, k: Key, a: Option<Secret>, b: Option<Secret>) {
    a != b && (RefersTo(cr, k)
               || OwnedBy(a, (s: Secret) => s.owner, cr.key) || OwnedBy(b, (s: Secret) => s.owner, cr.key))
  }

  predicate OwnedEvent(cr: CR, a: Option<Owned>, b: Option<Owned>) {
    a != b && (OwnedBy(a, (x: Owned) => x.owner, cr.key) || OwnedBy(b, (x: Owned) => x.owner, cr.key))
  }

  predicate DeploymentEvent(cr: CR, a: Option<DeploymentObject>, b: Option<DeploymentObject>) {
    a != b && (OwnedBy(a, (x: DeploymentObject) => x.owner, cr.key) || OwnedBy(b, (x: DeploymentObject) => x.owner, cr.key))
  }

  /** Only creation, deletion and a new generation of a topology are reported, not its finalizers. */
  predicate TopologyEvent(cr: CR, k: Key, a: Option<TopologyObject>, b: Option<TopologyObject>) {
    && RefersTo(cr, k)
    && (a.Some? != b.Some? || (a.Some? && a.value.spec != b.value.spec))
  }

  /** Some watched object changed in a way that is mapped to the resource. */
  ghost predicate Wakes(cr: CR, a: Cluster, b: Cluster) {
    || Get(a.horizons, cr.key) != Get(b.horizons, cr.key)
    || (exists k: Key :: SecretEvent(cr, k, Get(a.secrets, k), Get(b.secrets, k)))
    || (exists k: Key :: UsesMemcached(cr, k) && Get(a.memcacheds, k) != Get(b.memcacheds, k))
    || (exists k: Key :: UsesNAD(cr, k) && Get(a.nads, k) != Get(b.nads, k))
    || (exists k: Key :: UsesKeystoneService(cr, k) && (k in a.keystoneServices) != (k in b.keystoneServices))
    || Get(a.keystones, cr.key.ns) != Get(b.keystones, cr.key.ns)
    || (exists k: Key :: TopologyEvent(cr, k, Get(a.topologies, k), Get(b.topologies, k)))
    || (exists k: OwnedKey :: OwnedEvent(cr, Get(a.owned, k), Get(b.owned, k)))
    || (exists k: Key :: DeploymentEvent(cr, Get(a.deployments, k), Get(b.deployments, k)))
  }

  /** The resources that a change puts on the queue. */
  ghost function Woken(a: Cluster, b: Cluster): set<Key> {
    set k | k in b.horizons && Wakes(b.horizons[k], a, b)
  }

  // ---------- who is told of one change ----------

  /** The name stands in one of the four indexed fields. */
  predicate IsNamed(spec: Spec, name: string) {
    || spec.secret == name || spec.tls.caBundleSecretName == name || spec.tls.secretName == Some(name)
    || (spec.topologyRef.Some? && spec.topologyRef.value.name == name)
  }

  lemma NamedIff(cr: CR, k: Key)
    requires k.name != ""
    ensures RefersTo(cr, k) <==> cr.key.ns == k.ns && IsNamed(cr.spec, k.name)
  {
    var n, spec := k.name, cr.spec;
    assert n in IndexValues(PasswordSecret, spec) <==> spec.secret == n;
    assert n in IndexValues(CABundleSecret, spec) <==> spec.tls.caBundleSecretName == n;
    assert n in IndexValues(TLSSecret, spec) <==> spec.tls.secretName == Some(n);
    assert n in IndexValues(TopologyName, spec) <==> spec.topologyRef.Some? && spec.topologyRef.value.name == n;
  }

  /** A secret that comes, goes or changes wakes the resources that name it, and its owners before and after. */
  lemma SecretWakesIff(cr: CR, a: Cluster, k: Key, s: Secret)
    requires k.name != "" && Get(a.secrets, k) != Some(s)
    ensures Wakes(cr, a, a.(secrets := a.secrets[k := s])) <==>
      || (cr.key.ns == k.ns && IsNamed(cr.spec, k.name))
      || (k in a.secrets && a.secrets[k].owner == Some(cr.key)) || s.owner == Some(cr.key)
  {
    NamedIff(cr, k);
    hide RefersTo, IsNamed;
    var b := a.(secrets := a.secrets[k := s]);
    assert SecretEvent(cr, k, Get(a.secrets, k), Get(b.secrets, k)) <==>
      RefersTo(cr, k) || (k in a.secrets && a.secrets[k].owner == Some(cr.key)) || s.owner == Some(cr.key);
    assert forall j: Key | j != k :: Get(a.secrets, j) == Get(b.secrets, j);
  }

  lemma SecretLossWakesIff(cr: CR, a: Cluster, k: Key)
    requires k.name != "" && k in a.secrets
    ensures Wakes(cr, a, a.(secrets := a.secrets - {k})) <==>
      (cr.key.ns == k.ns && IsNamed(cr.spec, k.name)) || a.secrets[k].owner == Some(cr.key)
  {
    NamedIff(cr, k);
    hide RefersTo, IsNamed;
    var b := a.(secrets := a.secrets - {k});
    assert SecretEvent(cr, k, Get(a.secrets, k), Get(b.secrets, k)) <==> RefersTo(cr, k) || a.secrets[k].owner == Some(cr.key);
    assert forall j: Key | j != k :: Get(a.secrets, j) == Get(b.secrets, j);
  }

  /** A changed Memcached wakes its users. */
  lemma MemcachedWakesIff(cr: CR, a: Cluster, k: Key, m: MemcachedObject)
    requires Get(a.memcacheds, k) != Some(m)
    ensures Wakes(cr, a, a.(memcacheds := a.memcacheds[k := m])) <==> cr.key.ns == k.ns && cr.spec.memcachedInstance == k.name
  {
    var b := a.(memcacheds := a.memcacheds[k := m]);
    assert Get(a.memcacheds, k) != Get(b.memcacheds, k);
    assert UsesMemcached(cr, k) <==> cr.key.ns == k.ns && cr.spec.memcachedInstance == k.name;
    assert forall j: Key | j != k :: Get(a.memcacheds, j) == Get(b.memcacheds, j);
  }

  /** A changed attachment wakes its users. */
  lemma AttachmentWakesIff(cr: CR, a: Cluster, k: Key, nad: string)
    requires Get(a.nads, k) != Some(nad)
    ensures Wakes(cr, a, a.(nads := a.nads[k := nad])) <==> cr.key.ns == k.ns && k.name in cr.spec.networkAttachments
  {
    var b := a.(nads := a.nads[k := nad]);
    assert Get(a.nads, k) != Get(b.nads, k);
    assert UsesNAD(cr, k) <==> cr.key.ns == k.ns && k.name in cr.spec.networkAttachments;
    assert forall j: Key | j != k :: Get(a.nads, j) == Get(b.nads, j);
  }

  /** A new keystone service wakes its namespace, if it is one of the two that are watched. */
  lemma ServiceWakesIff(cr: CR, a: Cluster, k: Key)
    requires k !in a.keystoneServices
    ensures Wakes(cr, a, a.(keystoneServices := a.keystoneServices + {k})) <==>
      cr.key.ns == k.ns && k.name in ["cloudkitty", "watcher"]
  {
    assert UsesKeystoneService(cr, k) <==> cr.key.ns == k.ns && k.name in ["cloudkitty", "watcher"];
  }

  /** A changed Keystone wakes its namespace. */
  lemma KeystoneWakesIff(cr: CR, a: Cluster, ns: string, endpoint: Option<string>)
    requires Get(a.keystones, ns) != Some(endpoint)
    ensures Wakes(cr, a, a.(keystones := a.keystones[ns := endpoint])) <==> cr.key.ns == ns
  {
  }

  /** A topology wakes those that name it when it appears or when its content changes, not when it is held. */
  lemma TopologyWakesIff(cr: CR, a: Cluster, k: Key, t: TopologyObject)
    requires k.name != ""
    ensures Wakes(cr, a, a.(topologies := a.topologies[k := t])) <==>
      && cr.key.ns == k.ns && IsNamed(cr.spec, k.name)
      && (k !in a.topologies || a.topologies[k].spec != t.spec)
  {
    NamedIff(cr, k);
    hide RefersTo, IsNamed;
    var b := a.(topologies := a.topologies[k := t]);
    assert TopologyEvent(cr, k, Get(a.topologies, k), Get(b.topologies, k)) <==>
      RefersTo(cr, k) && (k !in a.topologies || a.topologies[k].spec != t.spec);
    assert forall j: Key | j != k :: Get(a.topologies, j) == Get(b.topologies, j);
  }

  /** An object that the operator writes wakes its owners before and after. */
  lemma OwnedWakesIff(cr: CR, a: Cluster, k: OwnedKey, x: Owned)
    requires Get(a.owned, k) != Some(x)
    ensures Wakes(cr, a, a.(owned := a.owned[k := x])) <==>
      (k in a.owned && a.owned[k].owner == Some(cr.key)) || x.owner == Some(cr.key)
  {
    var b := a.(owned := a.owned[k := x]);
    assert OwnedEvent(cr, Get(a.owned, k), Get(b.owned, k)) <==>
      (k in a.owned && a.owned[k].owner == Some(cr.key)) || x.owner == Some(cr.key);
    assert forall j: OwnedKey | j != k :: Get(a.owned, j) == Get(b.owned, j);
  }

  /** So does a Deployment, also when only its status changes. */
  lemma DeploymentWakesIff(cr: CR, a: Cluster, k: Key, d: DeploymentObject)
    requires Get(a.deployments, k) != Some(d)
    ensures Wakes(cr, a, a.(deployments := a.deployments[k := d])) <==>
      (k in a.deployments && a.deployments[k].owner == Some(cr.key)) || d.owner == Some(cr.key)
  {
    var b := a.(deployments := a.deployments[k := d]);
    assert DeploymentEvent(cr, Get(a.deployments, k), Get(b.deployments, k)) <==>
      (k in a.deployments && a.deployments[k].owner == Some(cr.key)) || d.owner == Some(cr.key);
    assert forall j: Key | j != k :: Get(a.deployments, j) == Get(b.deployments, j);
  }
}
