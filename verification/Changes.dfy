/**
  What the input hash tells: with a hash that keeps different inputs apart, two settled resources
  carry the same CONFIG_HASH exactly if everything they read has the same hashes.
  */
module Changes {
  import opened Wrappers
  import opened Api
  import opened Clusters
  import opened Passes
  import opened Reading
  import opened Safety
  import opened Steadiness
  import opened Quiet
  import Pods

  /** The hashes that a pass gathers, one by one. */
  datatype Components = Components(
    openStackSecret: string, caBundle: Option<string>, cert: Option<string>, config: string, scripts: string)

  function ComponentsOf(lib: Lib, cr: CR, cl: Cluster): Components
    requires AllVars(lib, cr, cl).Some?
  {
    var text := ConfigText(lib, cr, cl, MemcachedOf(cr, cl).value).value;
    Components(
      OpenStackVars(lib, cr, cl).value[cr.spec.secret],
      Get(CAVars(lib, cr, cl).value, CA_BUNDLE_KEY),
      Get(CertVars(lib, cr, cl).value, TLS_HASH_NAME),
      lib.textHash(text),
      lib.textHash(lib.scripts))
  }

  /** The name of the OpenStack secret is the name of no other variable. */
  predicate Distinct(cr: CR) {
    cr.spec.secret !in {CA_BUNDLE_KEY, TLS_HASH_NAME, ConfigDataName(cr), ScriptsName(cr)}
  }

  lemma FixedNamesDiffer(cr: CR)
    ensures CA_BUNDLE_KEY !in {TLS_HASH_NAME, ConfigDataName(cr), ScriptsName(cr)}
    ensures TLS_HASH_NAME !in {ConfigDataName(cr), ScriptsName(cr)} && ConfigDataName(cr) != ScriptsName(cr)
  {
    var a, b := ConfigDataName(cr), ScriptsName(cr);
    assert a[|a| - 1] == 'a' && b[|b| - 1] == 's';
    assert CA_BUNDLE_KEY[|CA_BUNDLE_KEY| - 1] == 'm';
    assert |TLS_HASH_NAME| == 5 && |b| >= 8 && |a| >= 12;
  }

  /** Which variable a name stands for: later stages overwrite earlier ones. */
  lemma Lookup(lib: Lib, cr: CR, cl: Cluster, name: string)
    requires AllVars(lib, cr, cl).Some?
    ensures var c := ComponentsOf(lib, cr, cl);
      Get(AllVars(lib, cr, cl).value, name)
      == if name == ScriptsName(cr) then Some(c.scripts)
         else if name == ConfigDataName(cr) then Some(c.config)
         else if name == TLS_HASH_NAME && c.cert.Some? then c.cert
         else if name == CA_BUNDLE_KEY && c.caBundle.Some? then c.caBundle
         else if name == cr.spec.secret then Some(c.openStackSecret)
         else None
  {
    hide ConfigText, MemcachedOf, OpenStackVars, CAVars, CertVars, ConfigDataName, ScriptsName;
    Shapes(lib, cr, cl);
    FixedNamesDiffer(cr);
  }

  /** With distinct names the variables are as good as the hashes that they hold. */
  lemma VariablesTellComponents(lib: Lib, a: CR, acl: Cluster, b: CR, bcl: Cluster)
    requires AllVars(lib, a, acl).Some? && AllVars(lib, b, bcl).Some?
    requires a.key == b.key && a.spec.secret == b.spec.secret && Distinct(a)
    ensures AllVars(lib, a, acl) == AllVars(lib, b, bcl) <==> ComponentsOf(lib, a, acl) == ComponentsOf(lib, b, bcl)
  {
    hide AllVars, ComponentsOf;
    FixedNamesDiffer(a);
    var v, w := AllVars(lib, a, acl).value, AllVars(lib, b, bcl).value;
    if v == w {
      forall n
        ensures Get(v, n) == Get(w, n)
      {
      }
      SameComponents(lib, a, acl, b, bcl);
    }
    if ComponentsOf(lib, a, acl) == ComponentsOf(lib, b, bcl) {
      forall n
        ensures n in v <==> n in w
        ensures n in v ==> v[n] == w[n]
      {
        Lookup(lib, a, acl, n);
        Lookup(lib, b, bcl, n);
        assert Get(v, n) == Get(w, n);
      }
      assert v == w;
    }
  }

  lemma SameComponents(lib: Lib, a: CR, acl: Cluster, b: CR, bcl: Cluster)
    requires AllVars(lib, a, acl).Some? && AllVars(lib, a, acl) == AllVars(lib, b, bcl)
    requires a.key == b.key && a.spec.secret == b.spec.secret && Distinct(a)
    ensures ComponentsOf(lib, a, acl) == ComponentsOf(lib, b, bcl)
  {
    hide AllVars, ComponentsOf;
    FixedNamesDiffer(a);
    var names := [a.spec.secret, CA_BUNDLE_KEY, TLS_HASH_NAME, ConfigDataName(a), ScriptsName(a)];
    forall n | n in names
      ensures Get(AllVars(lib, a, acl).value, n) == Get(AllVars(lib, b, bcl).value, n)
    {
    }
    Lookup(lib, a, acl, a.spec.secret);
    Lookup(lib, b, bcl, a.spec.secret);
    Lookup(lib, a, acl, CA_BUNDLE_KEY);
    Lookup(lib, b, bcl, CA_BUNDLE_KEY);
    Lookup(lib, a, acl, TLS_HASH_NAME);
    Lookup(lib, b, bcl, TLS_HASH_NAME);
    Lookup(lib, a, acl, ConfigDataName(a));
    Lookup(lib, b, bcl, ConfigDataName(a));
    Lookup(lib, a, acl, ScriptsName(a));
    Lookup(lib, b, bcl, ScriptsName(a));
  }

  /** The hash that the pods of a resource carry. */
  function ConfigHash(cr: CR, cl: Cluster): Option<string> {
    match Get(cl.deployments, DeploymentKey(cr.key.ns))
    case None => None
    case Some(d) => Get(d.spec.horizonContainer.env, "CONFIG_HASH")
  }

  lemma CompleteCarriesHash(lib: Lib, fail: set<Call>, cr: CR, cl: Cluster)
    requires Complete(lib, fail, cr, cl)
    ensures AllVars(lib, cr, cl).Some?
    ensures ConfigHash(cr, cl) == Some(lib.objectHash(AllVars(lib, cr, cl).value))
  {
    hide DesiredSpec, AllVars, MemcachedOf, ConfigText, RbacInPlace, ConfigInPlace, Served, Settles;
    hide NetworkVerified;
    InputsThere(lib, cr, cl);
    HashInSpec(lib, fail, cr, cl, StoredHash(cr).GetOr(""), MemcachedOf(cr, cl).value);
  }

  /**
    End-to-end change detection: the pods of two settled states carry the same hash if and only if
    the OpenStack secret, the CA bundle, the certificate and the rendered files have the same hashes.
    */
  lemma HashTellsInputs(lib: Lib, fail: set<Call>, a: CR, acl: Cluster, b: CR, bcl: Cluster)
    requires HashesApart(lib) && Complete(lib, fail, a, acl) && Complete(lib, fail, b, bcl)
    requires a.key == b.key && a.spec.secret == b.spec.secret && Distinct(a)
    ensures AllVars(lib, a, acl).Some? && AllVars(lib, b, bcl).Some?
    ensures ConfigHash(a, acl) == ConfigHash(b, bcl) <==> ComponentsOf(lib, a, acl) == ComponentsOf(lib, b, bcl)
  {
    hide Complete, AllVars, ComponentsOf, ConfigHash, Distinct;
    CompleteCarriesHash(lib, fail, a, acl);
    CompleteCarriesHash(lib, fail, b, bcl);
    VariablesTellComponents(lib, a, acl, b, bcl);
  }

  /** Another variable of the same name takes the place of the OpenStack secret's hash. */
  predicate Shadowed(lib: Lib, cr: CR, cl: Cluster)
    requires AllVars(lib, cr, cl).Some?
  {
    || cr.spec.secret in {ConfigDataName(cr), ScriptsName(cr)}
    || (cr.spec.secret == TLS_HASH_NAME && ComponentsOf(lib, cr, cl).cert.Some?)
    || (cr.spec.secret == CA_BUNDLE_KEY && ComponentsOf(lib, cr, cl).caBundle.Some?)
  }

  /**
    Exactly when a change of the OpenStack secret goes unseen: its name is also the name of a
    variable that a later stage sets.
    */
  lemma SecretIsMissedIff(lib: Lib, a: CR, acl: Cluster, b: CR, bcl: Cluster)
    requires AllVars(lib, a, acl).Some? && AllVars(lib, b, bcl).Some?
    requires a.key == b.key && a.spec.secret == b.spec.secret
    requires var c, d := ComponentsOf(lib, a, acl), ComponentsOf(lib, b, bcl);
      d == c.(openStackSecret := d.openStackSecret) && c != d
    ensures AllVars(lib, a, acl) == AllVars(lib, b, bcl) <==> Shadowed(lib, a, acl)
  {
    hide AllVars, ComponentsOf;
    FixedNamesDiffer(a);
    var v, w := AllVars(lib, a, acl).value, AllVars(lib, b, bcl).value;
    Lookup(lib, a, acl, a.spec.secret);
    Lookup(lib, b, bcl, a.spec.secret);
    if Shadowed(lib, a, acl) {
      forall n
        ensures n in v <==> n in w
        ensures n in v ==> v[n] == w[n]
      {
        Lookup(lib, a, acl, n);
        Lookup(lib, b, bcl, n);
        assert Get(v, n) == Get(w, n);
      }
      assert v == w;
    }
  }

  // ---------- keystone services ----------

  function Flagged(c: Pods.Container, flags: map<string, string>): Pods.Container {
    c.(env := c.env + flags)
  }

  function ServiceFlags(cr: CR, cl: Cluster): map<string, string> {
    map["ENABLE_CLOUDKITTY" := YesNo(Key(cr.key.ns, "cloudkitty") in cl.keystoneServices),
        "ENABLE_WATCHER" := YesNo(Key(cr.key.ns, "watcher") in cl.keystoneServices)]
  }

  /** A keystone service changes two variables of the pod, and never the input hash. */
  lemma KeystoneServicesAreFlags(lib: Lib, fail: set<Call>, cr: CR, cl: Cluster, services: set<Key>, hash: string, m: MemcachedObject)
    ensures var cl', d := cl.(keystoneServices := services), DesiredSpec(lib, fail, cr, cl, hash, m);
      && AllVars(lib, cr, cl') == AllVars(lib, cr, cl)
      && DesiredSpec(lib, fail, cr, cl', hash, m)
         == d.(logContainer := Flagged(d.logContainer, ServiceFlags(cr, cl')),
               horizonContainer := Flagged(d.horizonContainer, ServiceFlags(cr, cl')))
  {
    hide Pods.PodVolumes, Pods.PodMounts, FindNADs, Pods.SchemeOf;
    var cl' := cl.(keystoneServices := services);
    EnvFlags(cr, cl', hash, ServicesOf(cr, cl));
    assert AllVars(lib, cr, cl') == AllVars(lib, cr, cl) by { SourcesDecide(lib, cr, cl, cr, cl'); }
  }

  lemma EnvFlags(cr: CR, cl: Cluster, hash: string, services: map<string, string>)
    ensures Pods.EnvVars(hash, ServicesOf(cr, cl)) == Pods.EnvVars(hash, services) + ServiceFlags(cr, cl)
  {
  }
}
