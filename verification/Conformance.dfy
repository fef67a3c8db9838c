/** The stages of a pass work through the checklist: item by item, with every obstacle and every effect. */
module Conformance {
  import opened Wrappers
  import opened Conditions
  import opened Api
  import opened Clusters
  import opened Passes
  import opened Facts
  import opened Safety
  import opened Quiet
  import opened Checklist
  import Pods

  // ---------- counting items ----------

  lemma {:induction false} ObstaclesFrom(s: Scene, n: nat)
    requires n <= |PLAN|
    ensures n <= s.FirstObstacle(n) <= |PLAN|
    ensures forall j | n <= j < s.FirstObstacle(n) :: s.ObstacleAt(PLAN[j]).None?
    ensures s.FirstObstacle(n) < |PLAN| ==> s.ObstacleAt(PLAN[s.FirstObstacle(n)]).Some?
    decreases |PLAN| - n
  {
    hide Scene.ObstacleAt;
    if n < |PLAN| && s.ObstacleAt(PLAN[n]).None? {
      ObstaclesFrom(s, n + 1);
    }
  }

  /** A item is done exactly if those before it are and it has no obstacle. */
  lemma Ahead(s: Scene, n: nat)
    requires n < |PLAN| && n <= s.Items()
    ensures s.Items() > n <==> s.ObstacleAt(PLAN[n]).None?
    ensures s.Items() <= |PLAN|
    ensures s.After(n + 1) == s.Effect(PLAN[n], s.After(n))
  {
    hide Scene.ObstacleAt, Scene.Effect;
    ObstaclesFrom(s, 0);
  }

  /** The position at which the stages stop with a item. */
  function PositionOf(t: Item): Position {
    match t
    case WriteServiceAccount => AtServiceAccount
    case WriteRole => AtRole
    case WriteRoleBinding => AtRoleBinding
    case ReadSecret => AtInput
    case ReadMemcached => AtMemcached
    case ReadBundle => AtTLS
    case ReadCert => AtTLS
    case Render => AtConfig
    case WriteConfig => AtConfig
    case WriteScripts => AtConfig
    case EnsureKey => AtConfig
    case StoreHash => AtConfig
    case FindServices => AtService
    case WriteService => AtService
    case FindEndpoint => AtService
    case Annotate => AtAttachments
    case LeaveTopology => AtTopology
    case TakeTopology => AtTopology
    case WritePods => AtDeployment
    case VerifyPods => AtNetwork
  }

  /** The stop of a pass that does not come to its end. */
  function StopOf(s: Scene): Stop
    requires s.Items() < |PLAN|
  {
    var ob := s.ObstacleAt(PLAN[s.Items()]).GetOr(Obstacle(None, Done));
    Stop(PositionOf(PLAN[s.Items()]), ob.report, ob.ctl)
  }

  ghost predicate Stops<T>(s: Scene, step: Step<T>) {
    s.Items() < |PLAN| && step == Halt(s.End(), StopOf(s))
  }

  /** The stage hands on `v` behind the first `n` items, or stops with one of them. */
  ghost predicate Follows<T>(s: Scene, step: Step<T>, n: nat, v: T) {
    if s.Items() >= n then step == Next(v) else Stops(s, step)
  }

  // ---------- what the items leave alone ----------

  function Target(s: Scene, t: Item): Option<OwnedKey> {
    match t
    case WriteServiceAccount => Some(OwnedKey(ServiceAccountKind, s.Named("horizon-" + s.cr.key.name)))
    case WriteRole => Some(OwnedKey(RoleKind, s.Named("horizon-" + s.cr.key.name)))
    case WriteRoleBinding => Some(OwnedKey(RoleBindingKind, s.Named("horizon-" + s.cr.key.name)))
    case WriteConfig => Some(OwnedKey(ConfigMapKind, s.Named(s.cr.key.name + "-config-data")))
    case WriteScripts => Some(OwnedKey(ConfigMapKind, s.Named(s.cr.key.name + "-scripts")))
    case WriteService => Some(OwnedKey(ServiceKind, s.Named("horizon")))
    case _ => None
  }

  /** Nothing changed but what items like `t` change. */
  ghost predicate Spared(s: Scene, t: Item, w: World, w': World) {
    && w'.cl == w.cl.(owned := w'.cl.owned, secrets := w'.cl.secrets, topologies := w'.cl.topologies, deployments := w'.cl.deployments)
    && w'.cr == w.cr.(status := w'.cr.status) && w'.cr.status.hash == w.cr.status.hash
    && (t != EnsureKey ==> w'.cl.secrets == w.cl.secrets)
    && (t !in {LeaveTopology, TakeTopology} ==> w'.cl.topologies == w.cl.topologies)
    && (t != WritePods ==> w'.cl.deployments == w.cl.deployments && w'.cr.status.readyCount == w.cr.status.readyCount)
    && (t !in {FindEndpoint, TakeTopology, WritePods, VerifyPods} ==> w'.cr == w.cr)
    && (t != TakeTopology ==> w'.cr.status.lastAppliedTopology == w.cr.status.lastAppliedTopology)
    && (forall k: OwnedKey | Some(k) != Target(s, t) :: Get(w'.cl.owned, k) == Get(w.cl.owned, k))
  }

  lemma WroteSpares(s: Scene, t: Item, w: World, kind: OwnedKind, name: string, content: Content)
    requires Target(s, t) == Some(OwnedKey(kind, s.Named(name)))
    ensures Spared(s, t, w, s.Wrote(w, kind, name, content))
  {
    hide Target;
  }

  lemma KeySpares(s: Scene, w: World)
    ensures Spared(s, EnsureKey, w, s.KeyEnsured(w))
  {
    hide Scene.HasKey, Scene.NewKey, Target;
  }

  lemma EndpointSpares(s: Scene, w: World)
    ensures Spared(s, FindEndpoint, w, s.EndpointStored(w))
  {
    hide Target;
  }

  lemma TopologySpares(s: Scene, w: World)
    ensures Spared(s, LeaveTopology, w, s.TopologyLeft(w)) && Spared(s, TakeTopology, w, s.TopologyTaken(w))
  {
    hide Scene.Marked, Scene.Left, Scene.Reference, Target;
  }

  lemma PodsSpare(s: Scene, w: World)
    ensures Spared(s, WritePods, w, s.PodsWritten(w)) && Spared(s, VerifyPods, w, s.PodsVerified(w))
  {
    hide Scene.Pod, Scene.Written, Scene.ReadyCount, Scene.Network, Target;
  }

  lemma EffectSpares(s: Scene, t: Item, w: World)
    ensures Spared(s, t, w, s.Effect(t, w))
  {
    hide Scene.KeyEnsured, Scene.EndpointStored, Scene.TopologyLeft, Scene.TopologyTaken, Scene.PodsWritten, Scene.PodsVerified;
    hide Scene.Wrote, Scene.Config, Scene.Named;
    match t
    case WriteServiceAccount => WroteSpares(s, t, w, ServiceAccountKind, "horizon-" + s.cr.key.name, Rules);
    case WriteRole => WroteSpares(s, t, w, RoleKind, "horizon-" + s.cr.key.name, Rules);
    case WriteRoleBinding => WroteSpares(s, t, w, RoleBindingKind, "horizon-" + s.cr.key.name, Rules);
    case WriteConfig => WroteSpares(s, t, w, ConfigMapKind, s.cr.key.name + "-config-data", Text(s.Config()));
    case WriteScripts => WroteSpares(s, t, w, ConfigMapKind, s.cr.key.name + "-scripts", Text(s.lib.scripts));
    case WriteService =>
      WroteSpares(s, t, w, ServiceKind, "horizon", if s.WithTLS() then Ports(443, 8443) else Ports(80, 8080));
    case EnsureKey => KeySpares(s, w);
    case FindEndpoint => EndpointSpares(s, w);
    case LeaveTopology => TopologySpares(s, w);
    case TakeTopology => TopologySpares(s, w);
    case WritePods => PodsSpare(s, w);
    case VerifyPods => PodsSpare(s, w);
    case _ =>
  }

  /** The world in front of the `n`th item, as far as later items look at it. */
  ghost predicate Fresh(s: Scene, n: nat, w: World) {
    && w.cl == s.cl.(owned := w.cl.owned, secrets := w.cl.secrets, topologies := w.cl.topologies, deployments := w.cl.deployments)
    && w.cr == s.cr.(status := w.cr.status) && w.cr.status.hash == s.cr.status.hash
    && (n <= 10 ==> w.cl.secrets == s.cl.secrets)
    && (n <= 16 ==> w.cl.topologies == s.cl.topologies)
    && (n <= 18 ==> w.cl.deployments == s.cl.deployments && w.cr.status.readyCount == s.cr.status.readyCount)
    && (n <= 14 ==> w.cr == s.cr.(status := s.cr.status.(observedGeneration := s.cr.generation)))
    && (n <= 17 ==> w.cr.status.lastAppliedTopology == s.cr.status.lastAppliedTopology)
    && (forall k: OwnedKey | forall j | 0 <= j < n && j < |PLAN| :: Target(s, PLAN[j]) != Some(k) ::
          Get(w.cl.owned, k) == Get(s.cl.owned, k))
  }

  lemma {:induction false} Before(s: Scene, n: nat)
    requires n <= |PLAN|
    ensures Fresh(s, n, s.After(n))
  {
    hide Scene.Effect, Target;
    if n > 0 {
      Before(s, n - 1);
      EffectSpares(s, PLAN[n - 1], s.After(n - 1));
      FreshNext(s, n - 1, s.After(n - 1), s.After(n));
    }
  }

  lemma FreshNext(s: Scene, n: nat, w: World, w': World)
    requires n < |PLAN| && Fresh(s, n, w) && Spared(s, PLAN[n], w, w')
    ensures Fresh(s, n + 1, w')
  {
    hide Target;
    forall k: OwnedKey | forall j | 0 <= j < n + 1 && j < |PLAN| :: Target(s, PLAN[j]) != Some(k)
      ensures Get(w'.cl.owned, k) == Get(s.cl.owned, k)
    {
      assert Target(s, PLAN[n]) != Some(k);
    }
  }

  lemma TargetsApart(s: Scene, i: nat, j: nat)
    requires i < j < |PLAN| && Target(s, PLAN[j]).Some?
    ensures Target(s, PLAN[i]) != Target(s, PLAN[j])
  {
    var a, b := s.cr.key.name + "-config-data", s.cr.key.name + "-scripts";
    assert a[|a| - 1] == 'a' && b[|b| - 1] == 's';
  }

  /** When its turn comes, an object is as it was. */
  lemma TargetIsFresh(s: Scene, n: nat)
    requires n < |PLAN| && Target(s, PLAN[n]).Some?
    ensures Get(s.After(n).cl.owned, Target(s, PLAN[n]).value) == Get(s.cl.owned, Target(s, PLAN[n]).value)
  {
    Before(s, n);
    forall j | 0 <= j < n && j < |PLAN|
      ensures Target(s, PLAN[j]) != Target(s, PLAN[n])
    {
      TargetsApart(s, j, n);
    }
  }

  // ---------- the stages in front of the gate ----------

  lemma PutsObject(s: Scene, w: World, call: Call, kind: OwnedKind, name: string, content: Content, p: Position)
    requires w.cr.key == s.cr.key
    requires Get(w.cl.owned, OwnedKey(kind, s.Named(name))) == Get(s.cl.owned, OwnedKey(kind, s.Named(name)))
    ensures EnsureOwned(s.o, w, call, OwnedKey(kind, s.Named(name)), content, p)
         == match s.Putting(call, kind, name)
            case None => Next(s.Wrote(w, kind, name, content))
            case Some(ob) => Halt(w, Stop(p, ob.report, ob.ctl))
  {
    var k := OwnedKey(kind, s.Named(name));
    assert k in w.cl.owned <==> k in s.cl.owned;
  }

  /** The step does in `w` what the item does: it meets the obstacle and stays there, or hands on `v`. */
  ghost predicate Meets<T>(s: Scene, t: Item, w: World, step: Step<T>, v: T) {
    match s.ObstacleAt(t)
    case None => step == Next(v)
    case Some(ob) => step == Halt(w, Stop(PositionOf(t), ob.report, ob.ctl))
  }

  /** The same for a item that leaves something behind when it stops the pass. */
  ghost predicate Stands<T>(s: Scene, t: Item, w: World, step: Step<T>, v: T) {
    match s.ObstacleAt(t)
    case None => step == Next(v)
    case Some(ob) => step == Halt(s.Remains(t, w), Stop(PositionOf(t), ob.report, ob.ctl))
  }

  lemma StandsFollows<T>(s: Scene, n: nat, step: Step<T>, v: T)
    requires n < |PLAN| && n <= s.Items() && Stands(s, PLAN[n], s.After(n), step, v)
    ensures Follows(s, step, n + 1, v)
  {
    hide Scene.ObstacleAt, PositionOf, Scene.After, Scene.Effect, Scene.Remains;
    ObstaclesFrom(s, 0);
    Ahead(s, n);
  }

  lemma MeetsFollows<T>(s: Scene, n: nat, step: Step<T>, v: T)
    requires n < |PLAN| && n <= s.Items() && PLAN[n] !in {StoreHash, VerifyPods} && Meets(s, PLAN[n], s.After(n), step, v)
    ensures Follows(s, step, n + 1, v)
  {
    hide Scene.ObstacleAt, PositionOf, Scene.After, Follows;
    StandsFollows(s, n, step, v);
  }

  /** One object is written, or the stage stops. */
  lemma Writes(s: Scene, n: nat, call: Call, kind: OwnedKind, name: string, content: Content, p: Position)
    requires n < |PLAN| && n <= s.Items()
    requires Target(s, PLAN[n]) == Some(OwnedKey(kind, s.Named(name))) && PLAN[n] !in {StoreHash, VerifyPods}
    requires s.ObstacleAt(PLAN[n]) == s.Putting(call, kind, name) && p == PositionOf(PLAN[n])
    requires s.Effect(PLAN[n], s.After(n)) == s.Wrote(s.After(n), kind, name, content)
    ensures Follows(s, EnsureOwned(s.o, s.After(n), call, OwnedKey(kind, s.Named(name)), content, p), n + 1, s.After(n + 1))
  {
    hide Scene.ObstacleAt, Scene.Effect, Scene.Putting, Scene.Wrote, Target, PositionOf, Scene.After, EnsureOwned, Scene.Named;
    hide Scene.Items, Follows;
    Ahead(s, n);
    Before(s, n);
    TargetIsFresh(s, n);
    PutsObject(s, s.After(n), call, kind, name, content, p);
    MeetsFollows(s, n, EnsureOwned(s.o, s.After(n), call, OwnedKey(kind, s.Named(name)), content, p), s.After(n + 1));
  }

  lemma RbacName(s: Scene, n: nat)
    requires n <= |PLAN|
    ensures forall kind :: RbacKey(s.After(n).cr, kind) == OwnedKey(kind, s.Named("horizon-" + s.cr.key.name))
  {
    Before(s, n);
    hide Scene.After;
  }

  lemma WritesRbac(s: Scene, n: nat, call: Call, kind: OwnedKind, p: Position)
    requires n <= s.Items()
    requires (n, call, kind, p) in [(0, PutServiceAccount, ServiceAccountKind, AtServiceAccount),
                                    (1, PutRole, RoleKind, AtRole), (2, PutRoleBinding, RoleBindingKind, AtRoleBinding)]
    ensures Follows(s, EnsureOwned(s.o, s.After(n), call, RbacKey(s.After(n).cr, kind), Rules, p), n + 1, s.After(n + 1))
  {
    hide EnsureOwned, Scene.After, Scene.Putting, Scene.Items, Scene.End, StopOf, Scene.Wrote, RbacKey, Follows;
    RbacName(s, n);
    Writes(s, n, call, kind, "horizon-" + s.cr.key.name, Rules, p);
  }

  lemma RbacFollows(s: Scene)
    ensures Follows(s, Rbac(s.o, s.After(0)), 3, s.After(3))
  {
    hide EnsureOwned, Scene.After, Scene.Putting, Scene.Items, Scene.End, StopOf, Scene.Wrote, Scene.ObstacleAt, Scene.Effect, RbacKey;
    WritesRbac(s, 0, PutServiceAccount, ServiceAccountKind, AtServiceAccount);
    if s.Items() >= 1 {
      WritesRbac(s, 1, PutRole, RoleKind, AtRole);
      if s.Items() >= 2 {
        WritesRbac(s, 2, PutRoleBinding, RoleBindingKind, AtRoleBinding);
      }
    }
  }

  // ---------- inputs ----------

  /** What the items up to the key read is in `w` as it was at the start. */
  ghost predicate Sees(s: Scene, w: World) {
    && w.cr.key == s.cr.key && w.cr.spec == s.cr.spec && w.cr.status.endpoint == s.cr.status.endpoint
    && w.cl.secrets == s.cl.secrets && w.cl.memcacheds == s.cl.memcacheds && w.cl.keystones == s.cl.keystones
  }

  lemma Seen(s: Scene, n: nat)
    requires n <= 10
    ensures Sees(s, s.After(n))
  {
    Before(s, n);
    hide Scene.After;
  }

  lemma SecretMeets(s: Scene, w: World)
    requires Sees(s, w)
    ensures Meets(s, ReadSecret, w, OpenStackSecret(s.lib, s.o, w), s.SecretVars())
  {
  }

  lemma CacheMeets(s: Scene, w: World)
    requires Sees(s, w)
    ensures Meets(s, ReadMemcached, w, ReadyMemcached(s.o, w), s.Cache())
  {
  }

  lemma BundleMeets(s: Scene, w: World)
    requires Sees(s, w)
    ensures Meets(s, ReadBundle, w, CABundle(s.lib, s.o, w, s.SecretVars()), s.BundleVars())
  {
    hide Scene.SecretVars;
  }

  lemma CertMeets(s: Scene, w: World)
    requires Sees(s, w)
    ensures Meets(s, ReadCert, w, Cert(s.lib, s.o, w, s.BundleVars()), s.CertVars())
  {
    hide Scene.BundleVars;
  }

  lemma Idles(s: Scene, n: nat)
    requires n < |PLAN| && PLAN[n] in {ReadSecret, ReadMemcached, ReadBundle, ReadCert, Render, StoreHash, FindServices, Annotate}
    ensures s.After(n + 1) == s.After(n)
  {
    hide Scene.KeyEnsured, Scene.EndpointStored, Scene.TopologyLeft, Scene.TopologyTaken, Scene.PodsWritten, Scene.PodsVerified;
    hide Scene.Wrote, Scene.Config;
  }

  /** Reading leaves the world as it is. */
  lemma ReadingLeaves(s: Scene)
    ensures s.After(3) == s.After(4) == s.After(5) == s.After(6) == s.After(7) == s.After(8)
  {
    hide Scene.After;
    Idles(s, 3);
    Idles(s, 4);
    Idles(s, 5);
    Idles(s, 6);
    Idles(s, 7);
  }

  lemma SecretFollows(s: Scene)
    requires s.Items() >= 3
    ensures Follows(s, OpenStackSecret(s.lib, s.o, s.After(3)), 4, s.SecretVars())
  {
    hide Scene.After, Scene.Items, Meets, Follows, OpenStackSecret, Scene.SecretVars;
    Seen(s, 3);
    SecretMeets(s, s.After(3));
    MeetsFollows(s, 3, OpenStackSecret(s.lib, s.o, s.After(3)), s.SecretVars());
  }

  lemma CacheFollows(s: Scene)
    requires s.Items() >= 4
    ensures Follows(s, ReadyMemcached(s.o, s.After(4)), 5, s.Cache())
  {
    hide Scene.After, Scene.Items, Meets, Follows, ReadyMemcached, Scene.Cache;
    Seen(s, 4);
    CacheMeets(s, s.After(4));
    MeetsFollows(s, 4, ReadyMemcached(s.o, s.After(4)), s.Cache());
  }

  lemma BundleFollows(s: Scene)
    requires s.Items() >= 5
    ensures Follows(s, CABundle(s.lib, s.o, s.After(5), s.SecretVars()), 6, s.BundleVars())
  {
    hide Scene.After, Scene.Items, Meets, Follows, CABundle, Scene.BundleVars;
    Seen(s, 5);
    BundleMeets(s, s.After(5));
    MeetsFollows(s, 5, CABundle(s.lib, s.o, s.After(5), s.SecretVars()), s.BundleVars());
  }

  lemma CertFollows(s: Scene)
    requires s.Items() >= 6
    ensures Follows(s, Cert(s.lib, s.o, s.After(6), s.BundleVars()), 7, s.CertVars())
  {
    hide Scene.After, Scene.Items, Meets, Follows, Cert, Scene.CertVars;
    Seen(s, 6);
    CertMeets(s, s.After(6));
    MeetsFollows(s, 6, Cert(s.lib, s.o, s.After(6), s.BundleVars()), s.CertVars());
  }

  lemma InputsFollows(s: Scene)
    ensures Follows(s, Inputs(s.lib, s.o, s.After(0)), 7, (s.After(7), s.CertVars(), s.Cache()))
  {
    hide Scene.After, Scene.Items, Scene.End, StopOf, Scene.ObstacleAt, Scene.Effect;
    hide Rbac, OpenStackSecret, ReadyMemcached, CABundle, Cert, Scene.SecretVars, Scene.BundleVars, Scene.CertVars, Scene.Cache;
    RbacFollows(s);
    ReadingLeaves(s);
    if s.Items() >= 3 { SecretFollows(s); }
    if s.Items() >= 4 { CacheFollows(s); }
    if s.Items() >= 5 { BundleFollows(s); }
    if s.Items() >= 6 { CertFollows(s); }
  }

  // ---------- configuration, key and hash ----------

  lemma PutsConfig(s: Scene, w: World, call: Call, name: string, text: string)
    requires w.cr.key == s.cr.key
    requires Get(w.cl.owned, OwnedKey(ConfigMapKind, s.Named(name))) == Get(s.cl.owned, OwnedKey(ConfigMapKind, s.Named(name)))
    ensures PutConfigMap(s.o, w, call, name, text)
         == if s.MayPut(call, ConfigMapKind, name) && call !in s.o.wait then Next(s.Wrote(w, ConfigMapKind, name, Text(text)))
            else Halt(w, Stop(AtConfig, Some(ErrorDetail(s.o)), Failed(s.o.text)))
  {
    var k := OwnedKey(ConfigMapKind, s.Named(name));
    assert k in w.cl.owned <==> k in s.cl.owned;
  }

  /** The text, when Keystone has an endpoint and the stored one can be parsed. */
  lemma RendersText(s: Scene, w: World)
    requires Sees(s, w)
    ensures ConfigText(s.lib, w.cr, w.cl, s.Cache())
         == if s.KeystoneURL().Some? && s.lib.parseUrl(s.cr.status.endpoint).Some? then Some(s.Config()) else None
  {
    hide Scene.Cache;
    assert "horizon" + "." == "horizon.";
  }

  /** The first item of the stage, as a step of its own. */
  function Rendering(s: Scene, w: World): Step<string> {
    if GetKeystoneAPI in s.o.fail then Fail(w, s.o, AtConfig)
    else
      match ConfigText(s.lib, w.cr, w.cl, s.Cache())
      case None => Fail(w, s.o, AtConfig)
      case Some(text) => Next(text)
  }

  lemma RenderMeets(s: Scene, w: World)
    requires Sees(s, w)
    ensures Meets(s, Checklist.Render, w, Rendering(s, w), s.Config())
  {
    RendersText(s, w);
    hide Scene.Config, ConfigText, Scene.Cache;
  }

  lemma ConfigMeets(s: Scene, w: World)
    requires w.cr.key == s.cr.key
    requires var k := OwnedKey(ConfigMapKind, s.Named(s.cr.key.name + "-config-data")); Get(w.cl.owned, k) == Get(s.cl.owned, k)
    ensures Meets(s, WriteConfig, w, PutConfigMap(s.o, w, PutConfigData, s.cr.key.name + "-config-data", s.Config()),
                  s.Effect(WriteConfig, w))
  {
    hide PutConfigMap, Scene.MayPut, Scene.Wrote, Scene.Config;
    PutsConfig(s, w, PutConfigData, s.cr.key.name + "-config-data", s.Config());
  }

  lemma ScriptsMeets(s: Scene, w: World)
    requires w.cr.key == s.cr.key
    requires var k := OwnedKey(ConfigMapKind, s.Named(s.cr.key.name + "-scripts")); Get(w.cl.owned, k) == Get(s.cl.owned, k)
    ensures Meets(s, WriteScripts, w, PutConfigMap(s.o, w, PutScripts, s.cr.key.name + "-scripts", s.lib.scripts),
                  s.Effect(WriteScripts, w))
  {
    hide PutConfigMap, Scene.MayPut, Scene.Wrote;
    PutsConfig(s, w, PutScripts, s.cr.key.name + "-scripts", s.lib.scripts);
  }

  lemma ConfigTargets(s: Scene)
    ensures Target(s, PLAN[8]) == Some(OwnedKey(ConfigMapKind, s.Named(s.cr.key.name + "-config-data")))
    ensures Target(s, PLAN[9]) == Some(OwnedKey(ConfigMapKind, s.Named(s.cr.key.name + "-scripts")))
  {
  }

  lemma ConfigFollows(s: Scene)
    requires s.Items() >= 7
    ensures Follows(s, ConfigMaps(s.lib, s.o, s.After(7), s.Cache(), s.CertVars()), 10, (s.After(10), s.FileVars()))
  {
    hide Scene.After, Scene.Items, Scene.End, StopOf, Scene.ObstacleAt, Scene.Effect, Meets, PositionOf, Scene.Config, Scene.CertVars;
    hide PutConfigMap, ConfigText, Scene.Cache, Target;
    var w := s.After(7);
    Seen(s, 7);
    RenderMeets(s, w);
    MeetsFollows(s, 7, Rendering(s, w), s.Config());
    if s.Items() >= 8 {
      ReadingLeaves(s);
      ConfigTargets(s);
      TargetIsFresh(s, 8);
      ConfigMeets(s, w);
      Ahead(s, 8);
      MeetsFollows(s, 8, PutConfigMap(s.o, w, PutConfigData, s.cr.key.name + "-config-data", s.Config()), s.After(9));
      if s.Items() >= 9 {
        Seen(s, 9);
        TargetIsFresh(s, 9);
        ScriptsMeets(s, s.After(9));
        Ahead(s, 9);
        MeetsFollows(s, 9, PutConfigMap(s.o, s.After(9), PutScripts, s.cr.key.name + "-scripts", s.lib.scripts), s.After(10));
      }
    }
  }

  /** The variables that are hashed: with the key, if the pass has just created it. */
  function VarsWithKey(s: Scene): Vars {
    if s.HasKey() then s.FileVars() else s.FileVars()["horizon" := s.lib.secretHash(s.NewKey())]
  }

  lemma KeyIsThere(s: Scene, w: World)
    requires Sees(s, w)
    ensures s.HasKey() <==> HasValidSecret(w.cl.secrets, w.cr.key.ns)
    ensures HorizonSecretKey(w.cr.key.ns) == s.Named("horizon") && NewSecretData(s.o) == s.NewKey()
  {
  }

  lemma KeyMeets(s: Scene, w: World)
    requires Sees(s, w)
    ensures Meets(s, EnsureKey, w, HorizonSecret(s.lib, s.o, w, s.FileVars()), (s.Effect(EnsureKey, w), VarsWithKey(s)))
  {
    hide Scene.FileVars, HasValidSecret, Scene.HasKey, HorizonSecretKey, Scene.Named, NewSecretData, Scene.NewKey;
    KeyIsThere(s, w);
  }

  /** The gate stops the pass with the new hash stored. */
  lemma GateStands(s: Scene, w: World, vars: Vars)
    requires w.cr.status.hash == s.cr.status.hash && s.Hash() == s.lib.objectHash(vars)
    ensures Stands(s, StoreHash, w, HashGate(s.lib, s.o, w, vars), s.Hash())
  {
    hide Scene.Hash;
  }

  lemma HashFollows(s: Scene)
    requires s.Items() >= 11
    ensures Follows(s, HashGate(s.lib, s.o, s.After(11), VarsWithKey(s)), 12, s.Hash())
    ensures s.After(12) == s.After(11)
  {
    Idles(s, 11);
    hide Scene.After, Stands, HashGate, Scene.Items;
    Before(s, 11);
    assert s.Hash() == s.lib.objectHash(VarsWithKey(s));
    hide Scene.Hash, VarsWithKey, Follows;
    GateStands(s, s.After(11), VarsWithKey(s));
    StandsFollows(s, 11, HashGate(s.lib, s.o, s.After(11), VarsWithKey(s)), s.Hash());
  }

  lemma BeforeGateFollows(s: Scene)
    ensures Follows(s, BeforeGate(s.lib, s.o, s.After(0)), 11, (s.After(11), VarsWithKey(s), s.Cache()))
  {
    hide Scene.After, Scene.Items, Scene.End, StopOf, Scene.ObstacleAt, Scene.Effect, Meets, PositionOf, Scene.Hash;
    hide Inputs, ConfigMaps, HorizonSecret, Scene.CertVars, Scene.Cache, Scene.FileVars, VarsWithKey;
    InputsFollows(s);
    if s.Items() >= 7 {
      ConfigFollows(s);
      if s.Items() >= 10 {
        Seen(s, 10);
        KeyMeets(s, s.After(10));
        Ahead(s, 10);
        MeetsFollows(s, 10, HorizonSecret(s.lib, s.o, s.After(10), s.FileVars()), (s.After(11), VarsWithKey(s)));
      }
    }
  }

  lemma PrepareFollows(s: Scene)
    ensures Follows(s, Prepare(s.lib, s.o, s.After(0)), 12, (s.After(12), s.Hash(), s.Cache()))
  {
    hide Scene.After, Scene.Items, Scene.End, StopOf, Scene.ObstacleAt, Scene.Effect, Scene.Hash;
    hide BeforeGate, HashGate, Scene.Cache, VarsWithKey;
    BeforeGateFollows(s);
    if s.Items() >= 11 {
      HashFollows(s);
    }
  }

  // ---------- the stages behind the gate ----------

  /** What the items behind the gate read is in `w` as it was at the start. */
  ghost predicate SeesMore(s: Scene, w: World) {
    && w.cr.key == s.cr.key && w.cr.spec == s.cr.spec
    && w.cl.keystoneServices == s.cl.keystoneServices && w.cl.nads == s.cl.nads && w.cl.pods == s.cl.pods
  }

  lemma SeenMore(s: Scene, n: nat)
    requires n <= |PLAN|
    ensures SeesMore(s, s.After(n))
  {
    Before(s, n);
    hide Scene.After;
  }

  function Services(s: Scene): map<string, string> {
    map["cloudkitty" := s.Flag("cloudkitty"), "watcher" := s.Flag("watcher")]
  }

  lemma ServicesMeets(s: Scene, w: World)
    requires SeesMore(s, w)
    ensures Meets(s, FindServices, w, EnabledServices(s.o, w, KEYSTONE_SERVICES_WATCH), Services(s))
  {
    var names := KEYSTONE_SERVICES_WATCH;
    assert names[..1] == ["cloudkitty"] && ["cloudkitty"][..0] == [];
    assert EnabledServices(s.o, w, []) == Next(map[]);
  }

  /** The first item of the service stage, as a step of its own. */
  function Serving(s: Scene, w: World): Step<World> {
    if NewService in s.o.fail then Fail(w, s.o, AtService)
    else EnsureOwned(s.o, w, PutService, ServiceKey(w.cr.key.ns), ServicePorts(w.cr.spec), AtService)
  }

  lemma ServingMeets(s: Scene, w: World)
    requires SeesMore(s, w)
    requires var k := OwnedKey(ServiceKind, s.Named("horizon")); Get(w.cl.owned, k) == Get(s.cl.owned, k)
    ensures Meets(s, WriteService, w, Serving(s, w), s.Effect(WriteService, w))
  {
    hide EnsureOwned, Scene.Putting, Scene.Wrote;
    PutsObject(s, w, PutService, ServiceKind, "horizon", if s.WithTLS() then Ports(443, 8443) else Ports(80, 8080), AtService);
  }

  /** The second item: the endpoint is stored once it is known. */
  function Storing(s: Scene, w: World): Step<World> {
    match s.lib.apiEndpoint(w.cr.key, w.cr.spec)
    case None => FailSilently(w, s.o, AtService)
    case Some(endpoint) => Next(w.(cr := w.cr.(status := w.cr.status.(endpoint := endpoint))))
  }

  lemma StoringMeets(s: Scene, w: World)
    requires SeesMore(s, w)
    ensures Meets(s, FindEndpoint, w, Storing(s, w), s.Effect(FindEndpoint, w))
  {
  }

  lemma ServiceTarget(s: Scene)
    ensures Target(s, PLAN[13]) == Some(OwnedKey(ServiceKind, s.Named("horizon")))
  {
  }

  lemma ServiceFollows(s: Scene)
    requires s.Items() >= 13
    ensures Follows(s, ServiceInit(s.lib, s.o, s.After(13)), 15, s.After(15))
  {
    hide Scene.After, Scene.Items, Scene.End, StopOf, Scene.ObstacleAt, Scene.Effect, Meets, PositionOf, EnsureOwned, Target;
    hide ServiceKey, ServicePorts;
    SeenMore(s, 13);
    ServiceTarget(s);
    TargetIsFresh(s, 13);
    ServingMeets(s, s.After(13));
    Ahead(s, 13);
    MeetsFollows(s, 13, Serving(s, s.After(13)), s.After(14));
    if s.Items() >= 14 {
      SeenMore(s, 14);
      StoringMeets(s, s.After(14));
      Ahead(s, 14);
      MeetsFollows(s, 14, Storing(s, s.After(14)), s.After(15));
    }
  }

  lemma {:induction false} LookupFinds(s: Scene, names: seq<string>)
    ensures FindNADs(s.o.fail, s.cl.nads, s.cr.key.ns, names).AllFound?
       <==> forall n | n in names :: GetNAD(n) !in s.o.fail && s.Named(n) in s.cl.nads
    ensures FindNADs(s.o.fail, s.cl.nads, s.cr.key.ns, names).AllFound? ==>
      FindNADs(s.o.fail, s.cl.nads, s.cr.key.ns, names).nads
      == seq(|names|, i requires 0 <= i < |names| => Get(s.cl.nads, s.Named(names[i])).GetOr(""))
  {
    if names != [] {
      var rest, last := names[..|names| - 1], names[|names| - 1];
      LookupFinds(s, rest);
      assert names == rest + [last];
    }
  }

  function Annotated(s: Scene): map<string, string> {
    if s.Attached() then s.lib.networksAnnotation(s.Networks()) else map[]
  }

  lemma AttachmentsMeets(s: Scene, w: World)
    requires SeesMore(s, w)
    ensures Meets(s, Annotate, w, Attachments(s.lib, s.o, w), Annotated(s))
  {
    var found := FindNADs(s.o.fail, s.cl.nads, s.cr.key.ns, s.cr.spec.networkAttachments);
    LookupFinds(s, s.cr.spec.networkAttachments);
    assert found.AllFound? ==> found.nads == s.Networks();
    hide FindNADs;
  }

  /** The topology stage looks at these as well. */
  ghost predicate SeesTopologies(s: Scene, w: World) {
    SeesMore(s, w) && w.cl.topologies == s.cl.topologies && w.cr.status.lastAppliedTopology == s.cr.status.lastAppliedTopology
  }

  lemma MarkedAs(s: Scene, ts: Topologies, t: Key)
    ensures s.Marked(ts, t, false) == Without(ts, t, TopologyFinalizer(s.cr.key))
    ensures s.Marked(ts, t, true) == With(ts, t, TopologyFinalizer(s.cr.key))
  {
    var f := s.Finalizer();
    assert Finalizers(ts, t) - {f} + {f} == Finalizers(ts, t) + {f};
  }

  lemma LeavingMeets(s: Scene, w: World)
    requires SeesTopologies(s, w)
    ensures Meets(s, LeaveTopology, w, LeavePrevious(s.o, w), s.Effect(LeaveTopology, w))
  {
    hide Scene.Marked, Without;
    if s.Left().Some? {
      MarkedAs(s, s.cl.topologies, s.Left().value);
    }
  }

  /** The second item of the topology stage. */
  function Taking(s: Scene, w: World): Step<(World, Option<string>)> {
    match w.cr.TopologyRef()
    case None => Next((WithLastApplied(w, None), None))
    case Some(t) =>
      if AcquireTopology in s.o.fail || t !in w.cl.topologies then Fail(w, s.o, AtTopology)
      else Next((WithLastApplied(Acquire(w, t), Some(t)), Some(w.cl.topologies[t].spec)))
  }

  lemma TakingMeets(s: Scene, w: World)
    requires SeesMore(s, w) && w.cl.topologies.Keys == s.cl.topologies.Keys
    requires forall t | t in w.cl.topologies :: w.cl.topologies[t].spec == s.cl.topologies[t].spec
    ensures Meets(s, TakeTopology, w, Taking(s, w), (s.Effect(TakeTopology, w), s.Placement()))
  {
    hide Scene.Marked, With;
    if s.Reference().Some? {
      MarkedAs(s, w.cl.topologies, s.Reference().value);
    }
  }

  lemma LeavingKeepsSpecs(s: Scene, w: World)
    requires w.cl.topologies == s.cl.topologies
    ensures var ts := s.Effect(LeaveTopology, w).cl.topologies;
      ts.Keys == s.cl.topologies.Keys && forall t | t in ts :: ts[t].spec == s.cl.topologies[t].spec
  {
    hide Scene.Effect, Scene.Marked, Scene.Left;
    LeavingMarks(s, w);
    if s.Left().Some? {
      MarkingKeepsSpecs(s, s.cl.topologies, s.Left().value);
    }
  }

  lemma LeavingMarks(s: Scene, w: World)
    ensures s.Effect(LeaveTopology, w).cl.topologies
         == if s.Left().Some? then s.Marked(w.cl.topologies, s.Left().value, false) else w.cl.topologies
  {
    hide Scene.Marked, Scene.Left;
  }

  lemma MarkingKeepsSpecs(s: Scene, ts: Topologies, t: Key)
    ensures var ts' := s.Marked(ts, t, false); ts'.Keys == ts.Keys && forall u | u in ts :: ts'[u].spec == ts[u].spec
  {
  }

  lemma TopologyFollows(s: Scene)
    requires s.Items() >= 16
    ensures Follows(s, EnsureTopology(s.o, s.After(16)), 18, (s.After(18), s.Placement()))
  {
    hide Scene.After, Scene.Items, Scene.End, StopOf, Scene.ObstacleAt, Scene.Effect, Meets, PositionOf, LeavePrevious, Acquire;
    hide Scene.Placement;
    Before(s, 16);
    LeavingMeets(s, s.After(16));
    LeavingKeepsSpecs(s, s.After(16));
    Ahead(s, 16);
    MeetsFollows(s, 16, LeavePrevious(s.o, s.After(16)), s.After(17));
    if s.Items() >= 17 {
      SeenMore(s, 17);
      TakingMeets(s, s.After(17));
      Ahead(s, 17);
      MeetsFollows(s, 17, Taking(s, s.After(17)), (s.After(18), s.Placement()));
    }
  }

  lemma DesiredIsPod(s: Scene, w: World)
    requires SeesMore(s, w)
    ensures Desired(s.lib, w.cr, s.Hash(), s.Cache(), Services(s), Annotated(s), s.Placement()) == s.Pod()
  {
    hide Pods.BuildDeployment, Scene.Hash, Scene.Cache, Scene.Attached, Scene.Networks, Scene.Flag, Scene.Placement;
  }

  lemma DescribeFollows(s: Scene)
    requires s.Items() >= 12
    ensures Follows(s, Describe(s.lib, s.o, s.After(12), s.Hash(), s.Cache()), 18, (s.After(18), s.Pod()))
  {
    hide Scene.After, Scene.Items, Scene.End, StopOf, Scene.ObstacleAt, Scene.Effect, Meets, PositionOf, Scene.Pod, Desired;
    hide EnabledServices, ServiceInit, Attachments, EnsureTopology, Services, Annotated, Scene.Placement, Scene.Hash, Scene.Cache;
    var w := s.After(12);
    SeenMore(s, 12);
    DesiredIsPod(s, w);
    ServicesMeets(s, w);
    MeetsFollows(s, 12, EnabledServices(s.o, w, KEYSTONE_SERVICES_WATCH), Services(s));
    if s.Items() >= 13 {
      Idles(s, 12);
      ServiceFollows(s);
      if s.Items() >= 15 {
        SeenMore(s, 15);
        AttachmentsMeets(s, s.After(15));
        MeetsFollows(s, 15, Attachments(s.lib, s.o, s.After(15)), Annotated(s));
        if s.Items() >= 16 {
          Idles(s, 15);
          TopologyFollows(s);
        }
      }
    }
  }

  lemma PodsMeets(s: Scene, w: World)
    requires SeesMore(s, w) && w.cl.deployments == s.cl.deployments && w.cr.status.readyCount == s.cr.status.readyCount
    ensures Meets(s, WritePods, w, WriteDeployment(s.o, w, s.Pod()), (s.Effect(WritePods, w), s.Written()))
  {
    hide Scene.Pod;
  }

  lemma DeployFollows(s: Scene)
    requires s.Items() >= 12
    ensures Follows(s, Deploy(s.lib, s.o, s.After(12), s.Hash(), s.Cache()), 19, (s.After(19), s.Written()))
  {
    hide Scene.After, Scene.Items, Scene.End, StopOf, Scene.ObstacleAt, Scene.Effect, Meets, PositionOf, Scene.Pod, Scene.Written;
    hide Describe, WriteDeployment, Scene.Hash, Scene.Cache;
    DescribeFollows(s);
    if s.Items() >= 18 {
      Before(s, 18);
      PodsMeets(s, s.After(18));
      Ahead(s, 18);
      MeetsFollows(s, 18, WriteDeployment(s.o, s.After(18), s.Pod()), (s.After(19), s.Written()));
    }
  }

  /** The verification stops the pass with its report stored. */
  lemma NetworkStands(s: Scene, w: World)
    requires SeesMore(s, w) && w.cr.status.readyCount == s.ReadyCount()
    ensures Stands(s, VerifyPods, w, CheckNetwork(s.lib, s.o, w), s.Effect(VerifyPods, w))
  {
    hide Scene.ReadyCount;
  }

  lemma CountIsStored(s: Scene)
    ensures s.After(19).cr.status.readyCount == s.ReadyCount()
  {
    hide Scene.ReadyCount;
  }

  lemma NetworkFollows(s: Scene)
    requires s.Items() >= 19
    ensures Follows(s, CheckNetwork(s.lib, s.o, s.After(19)), 20, s.After(20))
  {
    CountIsStored(s);
    hide Scene.After, Stands, CheckNetwork, Follows, Scene.Items;
    SeenMore(s, 19);
    Ahead(s, 19);
    NetworkStands(s, s.After(19));
    StandsFollows(s, 19, CheckNetwork(s.lib, s.o, s.After(19)), s.After(20));
  }

  // ---------- the whole pass ----------

  /** Where the pass stops, and with what. */
  function FullStop(s: Scene): Stop {
    if s.Items() < |PLAN| then StopOf(s)
    else Stop(AtEnd, if s.IsUp() then None else Some(Detail(RequestedReason, Info, RunningMessage)), Done)
  }

  lemma UpIsReady(s: Scene)
    ensures s.IsUp() <==> s.Written().IsReady()
  {
  }

  lemma NormalFollows(s: Scene)
    ensures s.Items() <= |PLAN| && Normal(s.lib, s.o, s.After(0)) == (s.End(), FullStop(s))
  {
    hide Scene.After, Scene.ObstacleAt, Scene.Effect, PositionOf, Scene.Written, Scene.IsUp, Scene.FirstObstacle;
    hide Prepare, Deploy, CheckNetwork, Scene.Hash, Scene.Cache, StopOf;
    ObstaclesFrom(s, 0);
    UpIsReady(s);
    PrepareFollows(s);
    if s.Items() >= 12 {
      DeployFollows(s);
      if s.Items() >= 19 {
        NetworkFollows(s);
      }
    }
  }

  // ---------- conditions ----------

  /** A condition is True at a position exactly if the items that it needs are done. */
  lemma PassedIffDone(s: Scene, n: nat, t: Type)
    requires n <= |PLAN|
    ensures IsPassed(s.cr, if n < |PLAN| then PositionOf(PLAN[n]) else AtEnd, t)
       <==> n >= Needs(t) && (t == Topology ==> s.cr.spec.topologyRef.Some?)
    ensures n < |PLAN| ==> Subject(PositionOf(PLAN[n])) == Concern(PLAN[n]) && PositionOf(PLAN[n]) != AtEnd
  {
  }

  lemma SpecIsPassed(a: CR, b: CR, p: Position, t: Type)
    requires a.spec == b.spec
    ensures IsPassed(a, p, t) == IsPassed(b, p, t)
  {
  }

  lemma EndSpec(s: Scene)
    requires s.Items() <= |PLAN|
    ensures s.End().cr.spec == s.cr.spec && s.End().cr.key == s.cr.key
  {
    hide Scene.After, Scene.Effect, Scene.ObstacleAt;
    Before(s, s.Items());
    if s.Items() < |PLAN| {
      EffectSpares(s, VerifyPods, s.After(s.Items()));
    }
  }

  lemma ShownIs(s: Scene, t: Type)
    requires s.Items() <= |PLAN| && t != Ready
    ensures Get(ConditionsAt(s.o, s.End().cr, FullStop(s)), t) == s.Shown(t)
  {
    hide Scene.After, Scene.Effect, Scene.ObstacleAt, Scene.End, Scene.IsUp, IsPassed, ConditionsAt, PositionOf, Subject, Concern;
    hide Needs, Scene.FirstObstacle;
    ObstaclesFrom(s, 0);
    EndSpec(s);
    LookupAt(s.o, s.End().cr, FullStop(s), t);
    PassedIffDone(s, s.Items(), t);
    SpecIsPassed(s.cr, s.End().cr, FullStop(s).position, t);
    EndSubject();
    if t == Deployment {
      DeploymentNeeds();
    }
  }

  lemma EndSubject()
    ensures Subject(AtEnd) == Deployment
  {
  }

  lemma DeploymentNeeds()
    ensures Needs(Deployment) > ITEMS && |PLAN| == ITEMS
  {
  }

  lemma StoredIs(s: Scene, t: Type)
    requires s.Items() <= |PLAN| && t != Ready
    ensures Get(Epilogue(s.lib, s.o, ConditionsAt(s.o, s.End().cr, FullStop(s)), s.cr.status.conditions), t) == s.Stored(t)
  {
    hide Scene.Shown, ConditionsAt, Epilogue, FullStop, Scene.End;
    ShownIs(s, t);
    EpilogueAt(s.lib, s.o, ConditionsAt(s.o, s.End().cr, FullStop(s)), s.cr.status.conditions, t);
  }

  // ---------- Ready ----------

  /** The conditions with which the pass ends, before its epilogue. */
  ghost function Raw(s: Scene): Conditions
    requires s.Items() <= |PLAN|
  {
    ConditionsAt(s.o, s.End().cr, FullStop(s))
  }

  ghost function Final(s: Scene): Conditions
    requires s.Items() <= |PLAN|
  {
    Epilogue(s.lib, s.o, Raw(s), s.cr.status.conditions)
  }

  /** Some other condition at the end of the pass has the state. */
  ghost predicate Shows(s: Scene, state: Truth) {
    exists t: Type :: t != Ready && s.Shown(t).Some? && s.Shown(t).value.state == state
  }

  lemma RawShown(s: Scene, t: Type)
    requires s.Items() <= |PLAN| && t != Ready
    ensures Get(Raw(s), t) == s.Shown(t)
  {
    hide ConditionsAt, Scene.Shown, FullStop, Scene.End;
    ShownIs(s, t);
  }

  /** At the end of the list every condition but two is True, if the Deployment is up. */
  lemma EndShows(s: Scene, t: Type)
    requires s.Finishes() && s.IsUp() && t !in {Ready, NetworkAttachments, Topology}
    ensures s.Shown(t).Some? && s.Shown(t).value.state == IsTrue
  {
    hide Scene.IsUp;
  }

  lemma WellIsTruthful(s: Scene)
    requires s.Items() <= |PLAN|
    ensures s.AllIsWell() <==> FullStop(s).position == AtEnd && FullStop(s).failure.None? && Truthful(Raw(s))
  {
    hide Scene.IsUp, PositionOf, Raw, Scene.Shown, Scene.FirstObstacle, Scene.ObstacleAt;
    PassedIffDone(s, s.Items(), Ready);
    if s.Finishes() && s.IsUp() {
      var cs := Raw(s);
      if Truthful(cs) {
        forall t | t in {NetworkAttachments, Topology} && s.Shown(t).Some?
          ensures s.Shown(t).value.state == IsTrue
        {
          RawShown(s, t);
          assert t in cs;
        }
      }
      if s.AllIsWell() {
        forall t | t in cs && t != Ready
          ensures cs[t].state == IsTrue
        {
          RawShown(s, t);
          if t !in {NetworkAttachments, Topology} {
            EndShows(s, t);
          }
        }
      }
    }
  }

  lemma RawShows(s: Scene, state: Truth)
    requires s.Items() <= |PLAN|
    ensures Shows(s, state) <==> exists t: Type :: t in Raw(s) && t != Ready && Raw(s)[t].state == state
  {
    hide Scene.Shown, Raw, Scene.Items;
    if Shows(s, state) {
      var t: Type :| t != Ready && s.Shown(t).Some? && s.Shown(t).value.state == state;
      RawShown(s, t);
      assert t in Raw(s);
    }
    if t: Type :| t in Raw(s) && t != Ready && Raw(s)[t].state == state {
      RawShown(s, t);
      assert s.Shown(t).Some?;
    }
  }

  /** Ready is True exactly if all is well; otherwise it mirrors the others, and has the time of the pass. */
  lemma ReadyIs(s: Scene)
    requires s.Items() <= |PLAN|
    ensures Ready in Final(s)
    ensures s.AllIsWell() ==>
      Final(s)[Ready] == s.Timed(Ready, Condition(IsTrue, Detail(ReadyReason, NoSeverity, ReadyMessage), s.o.now))
    ensures !s.AllIsWell() ==>
      Final(s)[Ready] == Condition(if Shows(s, IsFalse) then IsFalse else IsUnknown, s.lib.mirror(Final(s) - {Ready}), s.o.now)
  {
    hide Scene.After, Scene.Effect, Scene.ObstacleAt, Scene.End, ConditionsAt, Scene.AllIsWell, Shows, FullStop, MirrorState;
    var cs, stop := Raw(s), FullStop(s);
    WellIsTruthful(s);
    ReadyIsNotPassed(s.End().cr, stop.position);
    ReadyAt(s.o, s.End().cr, stop);
    EpilogueKeepsStates(s.lib, s.o, cs, s.cr.status.conditions, Ready);
    DecidedReady(s.lib, s.o, cs, s.cr.status.conditions);
    if !s.AllIsWell() {
      MirrorsNoTruth(s.o, s.End().cr, stop, s.cr.status.conditions);
      EpilogueDecides(s.lib, s.o, cs, s.cr.status.conditions);
      RawShows(s, IsFalse);
      MirrorsBeside(s.lib, s.o, cs, s.cr.status.conditions);
    }
  }

  /** A decided Ready is treated like any other condition. */
  lemma DecidedReady(lib: Lib, o: Oracle, cs: Conditions, saved: Conditions)
    requires Ready in cs
    ensures cs[Ready].state != IsUnknown ==>
      Epilogue(lib, o, cs, saved)[Ready] == if Ready in saved && SameState(cs[Ready], saved[Ready]) then saved[Ready] else cs[Ready]
  {
  }

  lemma MirrorsBeside(lib: Lib, o: Oracle, cs: Conditions, saved: Conditions)
    ensures Epilogue(lib, o, cs, saved) - {Ready} == RestoreLastTransitionTimes(cs, saved) - {Ready}
  {
  }

  // ---------- the theorems ----------

  /** A pass over a resource at work does exactly what is on the list, as far as the first obstacle. */
  lemma PassFollowsChecklist(s: Scene)
    requires s.cr.status.conditions != map[] && s.cr.finalizer && !s.cr.deleting
    ensures s.Items() <= |PLAN|
    ensures var out, end := Pass(s.lib, s.o, s.cr, s.cl), s.End();
      && out.cl == end.cl && out.trace == end.trace
      && (PatchInstance in s.o.fail ==> out.cr == s.cr && out.ctl == Failed(s.o.text))
      && (PatchInstance !in s.o.fail ==>
          && out.ctl == s.Verdict()
          && out.cr == end.cr.(status := end.cr.status.(conditions := out.cr.status.conditions))
          && (forall t | t != Ready :: Get(out.cr.status.conditions, t) == s.Stored(t))
          && Ready in out.cr.status.conditions
          && out.cr.status.conditions[Ready]
             == if s.AllIsWell() then s.Timed(Ready, Condition(IsTrue, Detail(ReadyReason, NoSeverity, ReadyMessage), s.o.now))
                else Condition(if Shows(s, IsFalse) then IsFalse else IsUnknown,
                               s.lib.mirror(out.cr.status.conditions - {Ready}), s.o.now))
  {
    hide Normal, Scene.Effect, Scene.ObstacleAt, Epilogue, ConditionsAt, Scene.Stored, Scene.AllIsWell, Shows, Scene.FirstObstacle;
    ObstaclesFrom(s, 0);
    NormalFollows(s);
    ReadyIs(s);
    forall t | t != Ready
      ensures Get(Final(s), t) == s.Stored(t)
    {
      StoredIs(s, t);
    }
    assert s.After(0) == Start(s.cr, s.cl);
    hide Scene.End;
  }

  /** The other passes: a new resource gets its conditions and its finalizer, and nothing else happens. */
  lemma EarlyPass(lib: Lib, o: Oracle, cr: CR, cl: Cluster)
    requires cr.status.conditions == map[] || (!cr.deleting && !cr.finalizer)
    ensures var out := Pass(lib, o, cr, cl);
      && out.cl == cl && out.trace == []
      && (PatchInstance in o.fail ==> out.cr == cr && out.ctl == Failed(o.text))
      && (PatchInstance !in o.fail ==>
          && out.ctl == Done
          && out.cr == cr.(finalizer := cr.finalizer || !cr.deleting,
                           status := cr.status.(observedGeneration := cr.generation, conditions := out.cr.status.conditions))
          && (forall t | t !in {Ready, NetworkAttachments, Topology} ::
              t in out.cr.status.conditions && out.cr.status.conditions[t].state == IsUnknown))
  {
    hide ConditionsAt, Epilogue;
    var stop := Stop(AtStart, None, Done);
    forall t | t !in {Ready, NetworkAttachments, Topology}
      ensures var cs := Epilogue(lib, o, ConditionsAt(o, Body(lib, o, cr, cl).0.cr, stop), cr.status.conditions);
        t in cs && cs[t].state == IsUnknown
    {
      LookupAt(o, Body(lib, o, cr, cl).0.cr, stop, t);
      EpilogueAt(lib, o, ConditionsAt(o, Body(lib, o, cr, cl).0.cr, stop), cr.status.conditions, t);
    }
  }

  /** And a resource in deletion lets go of its last topology, and only then loses its finalizer. */
  lemma DeletingPass(lib: Lib, o: Oracle, cr: CR, cl: Cluster)
    requires cr.status.conditions != map[] && cr.deleting
    ensures var out, last, s := Pass(lib, o, cr, cl), cr.status.lastAppliedTopology, Scene(lib, o, cr, cl);
      var stuck := last.Some? && ReleaseTopology in o.fail;
      && out.cl == (if stuck || last.None? then cl else cl.(topologies := s.Marked(cl.topologies, last.value, false)))
      && out.trace == (if stuck || last.None? then [] else [Released(last.value)])
      && (PatchInstance in o.fail ==> out.cr == cr && out.ctl == Failed(o.text))
      && (PatchInstance !in o.fail ==>
          && out.ctl == (if stuck then Failed(o.text) else Done)
          && out.cr == cr.(finalizer := cr.finalizer && stuck,
                           status := cr.status.(observedGeneration := cr.generation, conditions := out.cr.status.conditions)))
  {
    hide ConditionsAt, Epilogue, Without, Scene.Marked, Normal;
    if cr.status.lastAppliedTopology.Some? {
      MarkedAs(Scene(lib, o, cr, cl), cl.topologies, cr.status.lastAppliedTopology.value);
    }
  }

  /**
    What `Reconcile` makes of the cluster: nothing without the resource; otherwise the pass, whose
    resource is stored, or goes when it is in deletion and nobody's finalizer is left on it.
    */
  lemma ReconcileStores(lib: Lib, o: Oracle, key: Key, cl: Cluster)
    requires key in cl.horizons ==> cl.horizons[key].key == key
    ensures var (cl', ctl) := Reconcile(lib, o, key, cl);
      && (GetInstance in o.fail ==> cl' == cl && ctl == Failed(o.text))
      && (GetInstance !in o.fail && key !in cl.horizons ==> cl' == cl && ctl == Done)
      && (GetInstance !in o.fail && key in cl.horizons ==>
          var out := Pass(lib, o, cl.horizons[key], cl);
          && ctl == out.ctl && cl' == out.cl.(horizons := cl'.horizons)
          && (forall k | k != key :: Get(cl'.horizons, k) == Get(cl.horizons, k))
          && Get(cl'.horizons, key)
             == if out.cr.deleting && !out.cr.finalizer && !out.cr.keptByOthers then None else Some(out.cr))
  {
    hide Pass;
    if key in cl.horizons {
      PassFrame(lib, o, cl.horizons[key], cl);
    }
  }
}
