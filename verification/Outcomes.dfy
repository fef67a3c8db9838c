/**
  What a pass means to those around it, read off the checklist: which pods it writes and what they
  mount, what reaches the templates, and whom a failure is blamed on.
  */
module Outcomes {
  import opened Wrappers
  import opened Conditions
  import opened Api
  import opened Clusters
  import opened Passes
  import opened Facts
  import opened Safety
  import opened Checklist
  import opened Conformance
  import Volumes
  import Pods

  // ---------- what the list leaves behind ----------

  predicate Writes(trace: seq<Action>, spec: Pods.DeploymentSpec) {
    WroteDeployment(spec) in trace
  }

  /** Only one item writes pods. */
  lemma {:induction false} PodsAreWrittenOnce(s: Scene, n: nat, spec: Pods.DeploymentSpec)
    requires n <= |PLAN| && Writes(s.After(n).trace, spec)
    ensures n > 18 && spec == s.Pod()
  {
    hide Scene.Pod, Scene.Written, Scene.ReadyCount, Scene.Network, Scene.Config, Scene.Marked, Scene.HasKey;
    if n > 0 && Writes(s.After(n - 1).trace, spec) {
      PodsAreWrittenOnce(s, n - 1, spec);
    }
  }

  lemma WritingPass(lib: Lib, o: Oracle, cr: CR, cl: Cluster, spec: Pods.DeploymentSpec)
    requires Writes(Pass(lib, o, cr, cl).trace, spec)
    ensures Works(cr)
    ensures var s := Scene(lib, o, cr, cl);
      18 < s.Items() <= |PLAN| && spec == s.Pod() && s.End().cl == Pass(lib, o, cr, cl).cl
  {
    hide Pass, Scene.Pod, Scene.ObstacleAt, Scene.Effect, Scene.After, Scene.FirstObstacle, Scene.Stored, Scene.AllIsWell;
    GateIsDurable(lib, o, cr, cl, WroteDeployment(spec));
    var s := Scene(lib, o, cr, cl);
    PassFollowsChecklist(s);
    EndWrites(s, spec);
  }

  lemma EndWrites(s: Scene, spec: Pods.DeploymentSpec)
    requires s.Items() <= |PLAN| && Writes(s.End().trace, spec)
    ensures s.Items() > 18 && spec == s.Pod()
  {
    hide Scene.Pod, Scene.ObstacleAt, Scene.After, Scene.FirstObstacle, Scene.Network;
    assert Writes(s.After(s.Items()).trace, spec);
    PodsAreWrittenOnce(s, s.Items(), spec);
  }

  /** A pass that meets no obstacle writes its pods. */
  lemma ClearPassWrites(s: Scene)
    requires Works(s.cr) && forall t :: s.ObstacleAt(t) == None
    ensures Writes(Pass(s.lib, s.o, s.cr, s.cl).trace, s.Pod())
  {
    hide Pass, Scene.Pod, Scene.ObstacleAt, Scene.Stored, Scene.AllIsWell, Shows, Scene.FirstObstacle, Scene.Effect;
    ObstaclesFrom(s, 0);
    PassFollowsChecklist(s);
    Ahead(s, 18);
    Ahead(s, 19);
    LastItemsWrite(s, s.After(18));
  }

  lemma LastItemsWrite(s: Scene, w: World)
    ensures Writes(s.Effect(VerifyPods, s.Effect(WritePods, w)).trace, s.Pod())
  {
    hide Scene.Pod, Scene.Written, Scene.ReadyCount, Scene.Network;
  }

  /** Nothing stops a pass in front of the items that it gets done. */
  lemma NoObstacle(s: Scene, t: Item, n: nat)
    requires n < s.Items() <= |PLAN| && PLAN[n] == t
    ensures s.ObstacleAt(t) == None
  {
    hide Scene.ObstacleAt;
    ObstaclesFrom(s, 0);
  }

  // ---------- the pods ----------

  /**
    Whatever Deployment a pass writes carries out the specification: replicas, image, resources and
    nodes are those asked for, and the pods are placed by the topology that the resource refers to, or
    spread when it refers to none.
    */
  lemma PodsAreAsSpecified(lib: Lib, o: Oracle, cr: CR, cl: Cluster, spec: Pods.DeploymentSpec)
    requires WroteDeployment(spec) in Pass(lib, o, cr, cl).trace
    ensures spec.replicas == cr.spec.replicas && spec.serviceAccount == "horizon-" + cr.key.name
    ensures spec.horizonContainer.image == spec.logContainer.image == cr.spec.containerImage
    ensures spec.horizonContainer.resources == spec.logContainer.resources == cr.spec.resources
    ensures spec.horizonContainer.name == "horizon" && spec.logContainer.name == cr.key.name + "-log"
    ensures spec.nodeSelector == if cr.spec.nodeSelector.Some? then cr.spec.nodeSelector.value else map[]
    ensures spec.labels == map["service" := "horizon", "owner" := cr.key.name]
    ensures cr.spec.topologyRef == None ==> spec.placement == Pods.Spread
    ensures cr.spec.topologyRef.Some? ==>
      var ref := cr.spec.topologyRef.value;
      var t := Key(if ref.ns == "" then cr.key.ns else ref.ns, ref.name);
      t in cl.topologies && spec.placement == Pods.ByTopology(cl.topologies[t].spec)
  {
    hide Pass, Scene.ObstacleAt, Scene.Items, Scene.Hash, Scene.Cache, Scene.Attached, Scene.Networks, Scene.Flag, Scene.End;
    hide Pods.PodVolumes, Pods.PodMounts, Pods.EnvVars;
    WritingPass(lib, o, cr, cl, spec);
    TopologyTaken(Scene(lib, o, cr, cl));
  }

  lemma TopologyTaken(s: Scene)
    requires 17 < s.Items() <= |PLAN|
    ensures s.Reference().Some? ==> s.Reference().value in s.cl.topologies
  {
    hide Scene.Items, Scene.ObstacleAt, Scene.Reference;
    NoObstacle(s, TakeTopology, 17);
    FindsTopology(s);
  }

  lemma FindsTopology(s: Scene)
    requires s.ObstacleAt(TakeTopology) == None
    ensures s.Reference().Some? ==> s.Reference().value in s.cl.topologies
  {
    hide Scene.Reference;
  }

  /** The environment of both containers, variable by variable. */
  lemma PodsAreTold(lib: Lib, o: Oracle, cr: CR, cl: Cluster, spec: Pods.DeploymentSpec)
    requires WroteDeployment(spec) in Pass(lib, o, cr, cl).trace
    ensures Get(cr.status.hash, "input").Some?
    ensures spec.logContainer.env == spec.horizonContainer.env
         == map["KOLLA_CONFIG_STRATEGY" := "COPY_ALWAYS", "UNPACK_THEME" := "true",
                "ENABLE_DESIGNATE" := "yes", "ENABLE_HEAT" := "yes", "ENABLE_IRONIC" := "yes",
                "ENABLE_MANILA" := "yes", "ENABLE_OCTAVIA" := "yes",
                "ENABLE_CLOUDKITTY" := if Key(cr.key.ns, "cloudkitty") in cl.keystoneServices then "yes" else "no",
                "ENABLE_WATCHER" := if Key(cr.key.ns, "watcher") in cl.keystoneServices then "yes" else "no",
                "CONFIG_HASH" := cr.status.hash["input"]]
  {
    hide Pass, Scene.ObstacleAt, Scene.Items, Scene.Cache, Scene.Attached, Scene.Networks, Scene.End, Scene.Placement;
    hide Pods.PodVolumes, Pods.PodMounts, Scene.Hash, Scene.After, Scene.Effect;
    WritingPass(lib, o, cr, cl, spec);
    HashIsStored(Scene(lib, o, cr, cl));
  }

  /** What the containers run, where they listen, and how they are probed. */
  lemma PodsAreServed(lib: Lib, o: Oracle, cr: CR, cl: Cluster, spec: Pods.DeploymentSpec)
    requires WroteDeployment(spec) in Pass(lib, o, cr, cl).trace
    ensures spec.horizonContainer.args == ["-c", "/usr/local/bin/kolla_theme_setup && /usr/local/bin/kolla_start"]
    ensures spec.logContainer.args == ["-c", "tail -n+1 -F /var/log/horizon/horizon.log"]
    ensures var tls, page := cr.spec.tls.secretName.GetOr("") != "", "/dashboard/auth/login/?next=/dashboard/";
      var scheme := if tls then Pods.HTTPS else Pods.HTTP;
      && spec.liveness == spec.readiness == Pods.Probe(10, 0, page, "horizon", scheme)
      && spec.startup == Pods.Probe(0, 12, page, "horizon", scheme)
      && spec.containerPort == (if tls then 8443 else 8080)
  {
    hide Pass, Scene.ObstacleAt, Scene.Items, Scene.End, Scene.Pod;
    WritingPass(lib, o, cr, cl, spec);
    PodServes(Scene(lib, o, cr, cl));
  }

  lemma PodServes(s: Scene)
    ensures s.Pod().horizonContainer.args == ["-c", "/usr/local/bin/kolla_theme_setup && /usr/local/bin/kolla_start"]
    ensures s.Pod().logContainer.args == ["-c", "tail -n+1 -F /var/log/horizon/horizon.log"]
    ensures var tls, page := s.cr.spec.tls.secretName.GetOr("") != "", "/dashboard/auth/login/?next=/dashboard/";
      var scheme := if tls then Pods.HTTPS else Pods.HTTP;
      && s.Pod().liveness == s.Pod().readiness == Pods.Probe(10, 0, page, "horizon", scheme)
      && s.Pod().startup == Pods.Probe(0, 12, page, "horizon", scheme)
      && s.Pod().containerPort == (if tls then 8443 else 8080)
  {
    hide Scene.Hash, Scene.Attached, Scene.Networks, Scene.Flag, Scene.Placement, Scene.Cache;
    hide Pods.EnvVars, Pods.PodMounts, Pods.PodVolumes;
    assert "tail -n+1 -F " + Pods.LOG_FILE == "tail -n+1 -F /var/log/horizon/horizon.log";
  }

  /** The pods are told of their networks if every attachment could be read and is there, and else of none. */
  lemma PodsAreAttached(lib: Lib, o: Oracle, cr: CR, cl: Cluster, spec: Pods.DeploymentSpec, nads: seq<string>)
    requires WroteDeployment(spec) in Pass(lib, o, cr, cl).trace
    requires |nads| == |cr.spec.networkAttachments|
    requires forall i | 0 <= i < |nads| :: Get(cl.nads, Key(cr.key.ns, cr.spec.networkAttachments[i])).GetOr("") == nads[i]
    ensures spec.annotations
         == if forall n | n in cr.spec.networkAttachments :: GetNAD(n) !in o.fail && Key(cr.key.ns, n) in cl.nads
            then lib.networksAnnotation(nads) else map[]
  {
    hide Pass, Scene.ObstacleAt, Scene.Items, Scene.Cache, Scene.End, Scene.Placement;
    hide Pods.PodVolumes, Pods.PodMounts, Scene.Hash, Pods.EnvVars, Scene.After, Scene.Effect, Scene.Flag;
    WritingPass(lib, o, cr, cl, spec);
    var s := Scene(lib, o, cr, cl);
    assert s.Networks() == nads;
  }

  lemma HashIsStored(s: Scene)
    requires 11 < s.Items() <= |PLAN|
    ensures Get(s.cr.status.hash, "input") == Some(s.Hash())
  {
    hide Scene.Items, Scene.ObstacleAt, Scene.Hash;
    NoObstacle(s, StoreHash, 11);
    StoresNothing(s);
  }

  lemma StoresNothing(s: Scene)
    requires s.ObstacleAt(StoreHash) == None
    ensures Get(s.cr.status.hash, "input") == Some(s.Hash())
  {
    hide Scene.Hash;
  }

  // ---------- the objects ----------

  /** An object that a item has written is there as the item wrote it, whatever comes later. */
  lemma {:induction false} ObjectsStay(s: Scene, i: nat, n: nat)
    requires i < n <= |PLAN| && Target(s, PLAN[i]).Some?
    ensures var k := Target(s, PLAN[i]).value; Get(s.After(n).cl.owned, k) == Get(s.After(i + 1).cl.owned, k)
  {
    hide Scene.Effect, Target;
    if n > i + 1 {
      ObjectsStay(s, i, n - 1);
      EffectSpares(s, PLAN[n - 1], s.After(n - 1));
      if Target(s, PLAN[n - 1]).Some? {
        TargetsApart(s, i, n - 1);
      }
    }
  }

  lemma ObjectsAreThere(s: Scene, i: nat)
    requires i < s.Items() <= |PLAN| && Target(s, PLAN[i]).Some?
    ensures var k := Target(s, PLAN[i]).value; Get(s.End().cl.owned, k) == Get(s.After(i + 1).cl.owned, k)
  {
    hide Target, Scene.After, Scene.ObstacleAt, Scene.FirstObstacle;
    ObjectsStay(s, i, s.Items());
    if s.Items() < |PLAN| {
      RemainsSpares(s, PLAN[s.Items()], s.After(s.Items()));
    }
  }

  lemma RemainsSpares(s: Scene, t: Item, w: World)
    ensures s.Remains(t, w).cl == w.cl
  {
    hide Scene.Network, Scene.Hash;
  }

  lemma ServiceIsThere(s: Scene)
    requires 13 < s.Items() <= |PLAN|
    ensures Get(s.End().cl.owned, OwnedKey(ServiceKind, s.Named("horizon")))
         == Some(Owned(if s.WithTLS() then Ports(443, 8443) else Ports(80, 8080), Some(s.cr.key)))
  {
    hide Scene.After, Scene.End, Scene.Items, Target, Scene.ObstacleAt;
    ServiceTarget(s);
    ObjectsAreThere(s, 13);
    Ahead(s, 13);
  }

  /** The service of a written Deployment is the resource's own, and leads to the port of its containers. */
  lemma ServiceReachesPods(lib: Lib, o: Oracle, cr: CR, cl: Cluster, spec: Pods.DeploymentSpec)
    requires WroteDeployment(spec) in Pass(lib, o, cr, cl).trace
    ensures var tls := cr.spec.tls.secretName.GetOr("") != "";
      Get(Pass(lib, o, cr, cl).cl.owned, OwnedKey(ServiceKind, Key(cr.key.ns, "horizon")))
      == Some(Owned(Ports(if tls then 443 else 80, spec.containerPort), Some(cr.key)))
  {
    hide Pass, Scene.ObstacleAt, Scene.Items, Scene.Pod, Scene.End, Scene.After, Scene.Effect;
    WritingPass(lib, o, cr, cl, spec);
    PodsAreServed(lib, o, cr, cl, spec);
    ServiceIsThere(Scene(lib, o, cr, cl));
  }

  lemma ConfigIsThere(s: Scene)
    requires 9 < s.Items() <= |PLAN|
    ensures Get(s.End().cl.owned, OwnedKey(ConfigMapKind, s.Named(s.cr.key.name + "-config-data")))
         == Some(Owned(Text(s.Config()), Some(s.cr.key)))
    ensures Get(s.End().cl.owned, OwnedKey(ConfigMapKind, s.Named(s.cr.key.name + "-scripts")))
         == Some(Owned(Text(s.lib.scripts), Some(s.cr.key)))
  {
    hide Scene.After, Scene.End, Scene.Items, Target, Scene.ObstacleAt, Scene.Config;
    ConfigTargets(s);
    ObjectsAreThere(s, 8);
    ObjectsAreThere(s, 9);
    Ahead(s, 8);
    Ahead(s, 9);
  }

  lemma AccountIsThere(s: Scene)
    requires 0 < s.Items() <= |PLAN|
    ensures Get(s.End().cl.owned, OwnedKey(ServiceAccountKind, s.Named("horizon-" + s.cr.key.name)))
         == Some(Owned(Rules, Some(s.cr.key)))
  {
    hide Scene.After, Scene.End, Scene.Items, Scene.ObstacleAt;
    ObjectsAreThere(s, 0);
    Ahead(s, 0);
  }

  // ---------- what reaches the templates ----------

  /** The parameters say where Keystone, Horizon and memcached are, and how they are reached. */
  predicate TellsOf(p: TemplateParameters, lib: Lib, cr: CR, cl: Cluster, m: MemcachedObject) {
    && lib.parseUrl(cr.status.endpoint).Some? && p.horizonEndpoint == cr.status.endpoint
    && p.horizonEndpointHost == lib.parseUrl(cr.status.endpoint).value.host
    && (p.isPublicHTTPS <==> lib.parseUrl(cr.status.endpoint).value.scheme == "https")
    && Get(cl.keystones, cr.key.ns) == Some(Some(p.keystoneURL))
    && p.memcachedServers == m.servers && p.memcachedTLS == m.tls && (p.memcachedMTLS <==> m.mtls.secret != "")
    && p.serverName == "horizon." + cr.key.ns + ".svc" && p.logFile == "/var/log/horizon/horizon.log"
    && (p.tls <==> cr.spec.tls.secretName.GetOr("") != "") && p.port == if p.tls then 8443 else 8080
  }

  /** The files are the user's settings and the user's files, which may overwrite them, and nothing else. */
  ghost predicate AreFiles(d: map<string, string>, spec: Spec) {
    && (forall n :: n in d <==> n in spec.defaultConfigOverwrite || n == "9999_custom_settings.py")
    && (forall n | n in d :: d[n] == if n in spec.defaultConfigOverwrite then spec.defaultConfigOverwrite[n] else spec.customServiceConfig)
  }

  lemma ParametersTell(s: Scene, m: MemcachedObject)
    requires 9 < s.Items() <= |PLAN| && Get(s.cl.memcacheds, s.Named(s.cr.spec.memcachedInstance)) == Some(m)
    ensures TellsOf(s.Parameters(), s.lib, s.cr, s.cl, m) && AreFiles(s.Files(), s.cr.spec)
  {
    hide Scene.Items, Scene.ObstacleAt;
    SourcesAreThere(s);
  }

  /** Every pass that reaches the gate leaves the configuration rendered from what it read. */
  lemma ConfigIsRendered(lib: Lib, o: Oracle, cr: CR, cl: Cluster, m: MemcachedObject) returns (p: TemplateParameters, d: map<string, string>)
    requires ReachedGate(lib, o, cr, cl) && Get(cl.memcacheds, Key(cr.key.ns, cr.spec.memcachedInstance)) == Some(m)
    ensures Get(Pass(lib, o, cr, cl).cl.owned, OwnedKey(ConfigMapKind, Key(cr.key.ns, cr.key.name + "-config-data")))
         == Some(Owned(Text(lib.render(p, d)), Some(cr.key)))
    ensures TellsOf(p, lib, cr, cl, m) && AreFiles(d, cr.spec)
  {
    hide Pass, Scene.ObstacleAt, Scene.Items, Scene.End, Scene.After, Scene.Effect, BeforeGate, TellsOf, AreFiles;
    hide Scene.Parameters, Scene.Files, Scene.Stored, Scene.AllIsWell, Shows;
    var s := Scene(lib, o, cr, cl);
    p, d := s.Parameters(), s.Files();
    PassFollowsChecklist(s);
    GateMeansConfig(s);
    ConfigIsThere(s);
    ParametersTell(s, m);
  }

  lemma GateMeansConfig(s: Scene)
    requires ReachedGate(s.lib, s.o, s.cr, s.cl)
    ensures 10 < s.Items() <= |PLAN|
  {
    assert s.After(0) == Start(s.cr, s.cl);
    hide Scene.ObstacleAt, BeforeGate, Scene.After, Scene.FirstObstacle, Scene.End, StopOf;
    ObstaclesFrom(s, 0);
    BeforeGateFollows(s);
  }

  lemma SourcesAreThere(s: Scene)
    requires 9 < s.Items() <= |PLAN|
    ensures s.KeystoneURL().Some? && s.lib.parseUrl(s.cr.status.endpoint).Some?
  {
    hide Scene.Items, Scene.ObstacleAt, Scene.KeystoneURL;
    NoObstacle(s, Checklist.Render, 7);
    FindsSources(s);
  }

  lemma FindsSources(s: Scene)
    requires s.ObstacleAt(Checklist.Render) == None
    ensures s.KeystoneURL().Some? && s.lib.parseUrl(s.cr.status.endpoint).Some?
  {
    hide Scene.KeystoneURL;
  }

  // ---------- what the pods mount ----------

  /**
    The pods mount what the pass has written: their configuration is the one that it rendered, their key
    the secret that it found or made, their account the one that it made.
    */
  lemma PodsMountWhatIsWritten(lib: Lib, o: Oracle, cr: CR, cl: Cluster, spec: Pods.DeploymentSpec)
    requires WroteDeployment(spec) in Pass(lib, o, cr, cl).trace
    ensures |spec.volumes| > 2
    ensures spec.volumes[0].name == "config-data" && spec.volumes[0].source.ConfigMapSource?
    ensures Get(Pass(lib, o, cr, cl).cl.owned, OwnedKey(ConfigMapKind, Key(cr.key.ns, spec.volumes[0].source.configMap)))
         == Some(Owned(Text(Scene(lib, o, cr, cl).Config()), Some(cr.key)))
    ensures spec.volumes[1].name == "horizon-secret-key" && spec.volumes[1].source.SecretSource?
    ensures var k := Key(cr.key.ns, spec.volumes[1].source.secret);
      && k in Pass(lib, o, cr, cl).cl.secrets && Get(Pass(lib, o, cr, cl).cl.secrets[k].data, "horizon-secret").GetOr("") != ""
      && (Get(cl.secrets, k) != Get(Pass(lib, o, cr, cl).cl.secrets, k) ==>
          |Pass(lib, o, cr, cl).cl.secrets[k].data["horizon-secret"]| == 50)
    ensures Get(Pass(lib, o, cr, cl).cl.owned, OwnedKey(ServiceAccountKind, Key(cr.key.ns, spec.serviceAccount)))
         == Some(Owned(Rules, Some(cr.key)))
  {
    hide Pass, Scene.ObstacleAt, Scene.Items, Scene.End, Scene.After, Scene.Effect, Scene.Config, Scene.Pod;
    var s := Scene(lib, o, cr, cl);
    WritingPass(lib, o, cr, cl, spec);
    PodHeads(s);
    ConfigIsThere(s);
    AccountIsThere(s);
    KeyIsKept(lib, o, cr, cl);
  }

  lemma PodHeads(s: Scene)
    ensures |s.Pod().volumes| > 2 && s.Pod().serviceAccount == "horizon-" + s.cr.key.name
    ensures s.Pod().volumes[0] == Volumes.Volume("config-data", Volumes.ConfigMapSource(s.cr.key.name + "-config-data", 416))
    ensures s.Pod().volumes[1] == Volumes.Volume("horizon-secret-key", Volumes.SecretSource("horizon", 384))
    ensures s.Pod().volumes[2] == Volumes.Volume("scripts", Volumes.ConfigMapSource("horizon-scripts", 493))
  {
    hide Scene.Hash, Scene.Attached, Scene.Networks, Scene.Flag, Scene.Placement, Scene.Cache, Pods.EnvVars, Pods.PodMounts;
    hide Pods.UserVolumes;
    assert Volumes.SERVICE_NAME + "-scripts" == "horizon-scripts";
  }

  lemma KeyIsKept(lib: Lib, o: Oracle, cr: CR, cl: Cluster)
    requires 10 < Scene(lib, o, cr, cl).Items() <= |PLAN| && Works(cr)
    ensures var k := Key(cr.key.ns, "horizon");
      && k in Pass(lib, o, cr, cl).cl.secrets && Get(Pass(lib, o, cr, cl).cl.secrets[k].data, "horizon-secret").GetOr("") != ""
      && (Get(cl.secrets, k) != Get(Pass(lib, o, cr, cl).cl.secrets, k) ==>
          |Pass(lib, o, cr, cl).cl.secrets[k].data["horizon-secret"]| == 50)
  {
    hide Pass, Scene.ObstacleAt, BeforeGate, Scene.After, Scene.Items, Scene.End;
    var s := Scene(lib, o, cr, cl);
    assert s.After(0) == Start(cr, cl) by { StartIs(s); }
    BeforeGateFollows(s);
    SecretIsStable(lib, o, cr, cl);
  }

  lemma StartIs(s: Scene)
    ensures s.After(0) == Start(s.cr, s.cl)
  {
  }

  /**
    The scripts are the exception: the volume names them after the service, the pass writes them under
    the name of the resource. The pods mount the scripts that the pass has written exactly if the
    resource is called like the service.
    */
  lemma PodsMountScriptsIff(lib: Lib, o: Oracle, cr: CR, cl: Cluster, spec: Pods.DeploymentSpec)
    requires WroteDeployment(spec) in Pass(lib, o, cr, cl).trace
    ensures |spec.volumes| > 2 && spec.volumes[2].name == "scripts" && spec.volumes[2].source.ConfigMapSource?
    ensures Get(Pass(lib, o, cr, cl).cl.owned, OwnedKey(ConfigMapKind, Key(cr.key.ns, cr.key.name + "-scripts")))
         == Some(Owned(Text(lib.scripts), Some(cr.key)))
    ensures spec.volumes[2].source.configMap == cr.key.name + "-scripts" <==> cr.key.name == "horizon"
    ensures var k := OwnedKey(ConfigMapKind, Key(cr.key.ns, spec.volumes[2].source.configMap));
      cr.key.name != "horizon" ==> Get(Pass(lib, o, cr, cl).cl.owned, k) == Get(cl.owned, k)
  {
    hide Pass, Scene.ObstacleAt, Scene.Items, Scene.End, Scene.After, Scene.Effect, Scene.Config, Scene.Pod;
    var s := Scene(lib, o, cr, cl);
    WritingPass(lib, o, cr, cl, spec);
    PodHeads(s);
    ConfigIsThere(s);
    SuffixDecides(cr.key.name, "horizon", "-scripts");
    if cr.key.name != "horizon" {
      OtherScripts(s);
    }
  }

  /** A pass over a resource of another name does not touch those scripts. */
  lemma OtherScripts(s: Scene)
    requires s.cr.key.name != "horizon" && s.Items() <= |PLAN|
    ensures var k := OwnedKey(ConfigMapKind, s.Named("horizon-scripts")); Get(s.End().cl.owned, k) == Get(s.cl.owned, k)
  {
    hide Scene.After, Scene.ObstacleAt, Scene.FirstObstacle, Scene.Remains;
    var k := OwnedKey(ConfigMapKind, s.Named("horizon-scripts"));
    Before(s, s.Items());
    forall j | 0 <= j < s.Items() && j < |PLAN|
      ensures Target(s, PLAN[j]) != Some(k)
    {
      NotATarget(s, PLAN[j]);
    }
    if s.Items() < |PLAN| {
      RemainsSpares(s, PLAN[s.Items()], s.After(s.Items()));
    }
  }

  lemma NotATarget(s: Scene, t: Item)
    requires s.cr.key.name != "horizon"
    ensures Target(s, t) != Some(OwnedKey(ConfigMapKind, s.Named("horizon-scripts")))
  {
    var a, b := s.cr.key.name + "-config-data", "horizon-scripts";
    assert a[|a| - 1] == 'a' && b[|b| - 1] == 's';
    SuffixDecides(s.cr.key.name, "horizon", "-scripts");
  }

  lemma SuffixDecides(a: string, b: string, suffix: string)
    ensures a + suffix == b + suffix <==> a == b
  {
    if a + suffix == b + suffix {
      assert |a| == |b| && (a + suffix)[..|a|] == a && (b + suffix)[..|b|] == b;
    }
  }

  // ---------- who is blamed ----------

  /** The stored condition of the type has the state and the detail. */
  predicate Says(cs: Conditions, t: Type, state: Truth, detail: Detail) {
    t in cs && cs[t].state == state && cs[t].detail == detail
  }

  /** Only the last item verifies the network. */
  lemma {:induction false} VerifiedLast(s: Scene, n: nat, ready: bool)
    requires n <= |PLAN| && Verified(ready) in s.After(n).trace
    ensures n > 19 && ready == s.Network().0
  {
    hide Scene.Pod, Scene.Written, Scene.ReadyCount, Scene.Network, Scene.Config, Scene.Marked, Scene.HasKey;
    if n > 0 && Verified(ready) in s.After(n - 1).trace {
      VerifiedLast(s, n - 1, ready);
    }
  }

  /** A verification that failed, or found the network wrong, has stopped the pass. */
  lemma BadNetworkStops(s: Scene)
    requires 18 < s.Items() <= |PLAN| && s.cr.spec.replicas > 0
    requires VerifyNetwork in s.o.fail || Verified(false) in s.End().trace
    ensures s.Items() == 19 && s.ObstacleAt(VerifyPods) == s.Failure()
  {
    hide Scene.After, Scene.FirstObstacle, Scene.Network, Scene.Items;
    ObstaclesFrom(s, 0);
    assert s.Items() == s.FirstObstacle(0) by { ItemsAre(s); }
    if s.Items() == |PLAN| {
      NoObstacle(s, VerifyPods, 19);
      VerifiedLast(s, |PLAN|, false);
      assert false;
    }
  }

  lemma ItemsAre(s: Scene)
    ensures s.Items() == s.FirstObstacle(0)
  {
  }

  /**
    The network is verified behind the write: when that fails, or finds the network wrong, the attachments
    are blamed and the Deployment, although written, is left undecided.
    */
  lemma NetworkIsBlamed(lib: Lib, o: Oracle, cr: CR, cl: Cluster, spec: Pods.DeploymentSpec)
    requires PatchInstance !in o.fail && WroteDeployment(spec) in Pass(lib, o, cr, cl).trace && cr.spec.replicas > 0
    requires VerifyNetwork in o.fail || Verified(false) in Pass(lib, o, cr, cl).trace
    ensures var out := Pass(lib, o, cr, cl);
      && Says(out.cr.status.conditions, NetworkAttachments, IsFalse, Detail(ErrorReason, Warning, ErrorMessage(o.text)))
      && Says(out.cr.status.conditions, Deployment, IsUnknown, Detail(InitReason, NoSeverity, InitMessage))
      && Says(out.cr.status.conditions, CreateService, IsTrue, Detail(ReadyReason, NoSeverity, ReadyMessage))
      && out.ctl == Failed(o.text)
  {
    hide Pass, Scene.ObstacleAt, Scene.Items, Scene.Pod, Scene.End, Scene.After, Scene.Effect, Scene.AllIsWell, Scene.Stored;
    var s := Scene(lib, o, cr, cl);
    WritingPass(lib, o, cr, cl, spec);
    PassFollowsChecklist(s);
    BadNetworkStops(s);
    BlamedAt(s, VerifyPods);
  }

  /**
    Whom a failure behind the gate is blamed on: the condition named here is False with the error, those
    of the stages before are True, and the Deployment is undecided unless it is to blame itself.
    */
  lemma BlamedAt(s: Scene, t: Item)
    requires s.Items() < |PLAN| && PLAN[s.Items()] == t && s.ObstacleAt(t) == s.Failure()
    ensures s.Verdict() == Failed(s.o.text)
    ensures var failed := Some(Condition(IsFalse, Detail(ErrorReason, Warning, ErrorMessage(s.o.text)), s.o.now));
      var well := Some(Condition(IsTrue, Detail(ReadyReason, NoSeverity, ReadyMessage), s.o.now));
      var unknown := Some(Condition(IsUnknown, Detail(InitReason, NoSeverity, InitMessage), s.o.now));
      && (t in {Annotate, VerifyPods} ==>
          AsShown(s, NetworkAttachments, failed) && AsShown(s, CreateService, well) && AsShown(s, Deployment, unknown))
      && (t in {LeaveTopology, TakeTopology} ==>
          AsShown(s, Topology, failed) && AsShown(s, NetworkAttachments, well) && AsShown(s, Deployment, unknown))
      && (t == WritePods ==> AsShown(s, Deployment, failed) && AsShown(s, NetworkAttachments, well))
  {
    hide Scene.ObstacleAt, Scene.FirstObstacle, Scene.Stored, Scene.IsUp;
    ItemsAre(s);
    StoredAsShown(s, CreateService);
    StoredAsShown(s, NetworkAttachments);
    StoredAsShown(s, Topology);
    StoredAsShown(s, Deployment);
  }

  lemma StoredAsShown(s: Scene, t: Type)
    ensures s.Shown(t).Some? ==> AsShown(s, t, s.Shown(t))
  {
    hide Scene.Shown;
  }

  /** The stored condition is `c`, but for its time. */
  predicate AsShown(s: Scene, t: Type, c: Option<Condition>) {
    s.Stored(t).Some? && c.Some? && SameState(s.Stored(t).value, c.value)
  }
}
