/**
  The pod builder as the program runs it (deployment.go, volumes.go, horizon_types.go): nested loops
  that append to slices, a map that is filled entry by entry, and options that TLS changes in place.
  */
module PodBuilder {
  import opened Wrappers
  import opened Api
  import opened Volumes
  import opened Pods

  // ---------- extra mounts ----------

  method ValidateThemeExtraMountPath(mounts: seq<VolumeMount>) returns (ok: bool)
    ensures ok <==> ThemeIsValid(mounts)
    ensures ok <==> forall m | m in mounts :: InThemeDirectory(m)
  {
    forall m | m in mounts
      ensures ValidThemePath(m) <==> InThemeDirectory(m)
    {
      ContainsIffWithin(m.mountPath, CUSTOM_THEME_MOUNT_PATH);
      ContainsIffWithin(m.mountPath, CUSTOM_THEME_SETTING);
    }
    hide InThemeDirectory;
    for i := 0 to |mounts|
      invariant forall m | m in mounts[..i] :: ValidThemePath(m)
    {
      if !Contains(mounts[i].mountPath, CUSTOM_THEME_MOUNT_PATH) && !Contains(mounts[i].mountPath, CUSTOM_THEME_SETTING) {
        assert mounts[i] in mounts && !ValidThemePath(mounts[i]);
        return false;
      }
    }
    assert mounts[..|mounts|] == mounts;
    return true;
  }

  /** What an entry hands on, read off its letters: nothing when it is ignored. */
  ghost function HandedOn(prop: Propagation, svc: seq<string>, v: VolMounts): seq<VolMounts> {
    if Ignored(v) then [] else prop(v, svc)
  }

  lemma HandedOnEntries(prop: Propagation, svc: seq<string>, e: ExtraVolMounts)
    ensures PropagatedEntry(prop, svc, e) == FlatMap((v: VolMounts) => HandedOn(prop, svc, v), e.volMounts)
  {
    hide Ignored;
    forall v | v in e.volMounts
      ensures Contribution(prop, svc, v) == HandedOn(prop, svc, v)
    {
      IgnoredIffBad(v);
    }
    FlatMapAgrees((v: VolMounts) => Contribution(prop, svc, v), (v: VolMounts) => HandedOn(prop, svc, v), e.volMounts);
  }

  method Propagate(prop: Propagation, e: ExtraVolMounts, svc: seq<string>) returns (vl: seq<VolMounts>)
    ensures vl == PropagatedEntry(prop, svc, e)
    ensures vl == FlatMap((v: VolMounts) => HandedOn(prop, svc, v), e.volMounts)
  {
    HandedOnEntries(prop, svc, e);
    ghost var f := (v: VolMounts) => Contribution(prop, svc, v);
    vl := [];
    for i := 0 to |e.volMounts|
      invariant vl == FlatMap(f, e.volMounts[..i])
    {
      var gv := e.volMounts[i];
      FlatMapTake(f, e.volMounts, i);
      if Contains(ToLower(gv.extraVolType), THEME_EXTRA_VOL_TYPE) {
        var ok := ValidateThemeExtraMountPath(gv.mounts);
        if ok {
          vl := vl + prop(gv, svc);
        }
      } else {
        vl := vl + prop(gv, svc);
      }
    }
    assert e.volMounts[..|e.volMounts|] == e.volMounts;
  }

  lemma VolumesTake(vs: seq<VolMounts>, i: nat)
    requires i < |vs|
    ensures VolumesIn(vs[..i + 1]) == VolumesIn(vs[..i]) + vs[i].volumes
    ensures MountsIn(vs[..i + 1]) == MountsIn(vs[..i]) + vs[i].mounts
  {
    FlatMapTake((v: VolMounts) => v.volumes, vs, i);
    FlatMapTake((v: VolMounts) => v.mounts, vs, i);
  }

  lemma VolumesAppend(a: seq<VolMounts>, b: seq<VolMounts>)
    ensures VolumesIn(a + b) == VolumesIn(a) + VolumesIn(b)
    ensures MountsIn(a + b) == MountsIn(a) + MountsIn(b)
  {
    FlatMapAppend((v: VolMounts) => v.volumes, a, b);
    FlatMapAppend((v: VolMounts) => v.mounts, a, b);
  }

  lemma PropagatedTake(prop: Propagation, svc: seq<string>, extra: seq<ExtraVolMounts>, i: nat)
    requires i < |extra|
    ensures Propagated(prop, svc, extra[..i + 1]) == Propagated(prop, svc, extra[..i]) + PropagatedEntry(prop, svc, extra[i])
  {
    FlatMapTake((e: ExtraVolMounts) => PropagatedEntry(prop, svc, e), extra, i);
  }

  lemma NoVolumes(vs: seq<VolMounts>)
    ensures VolumesIn(vs[..0]) == [] && MountsIn(vs[..0]) == []
  {
  }

  lemma NothingPropagated(prop: Propagation, svc: seq<string>, extra: seq<ExtraVolMounts>)
    ensures VolumesIn(Propagated(prop, svc, extra[..0])) == [] && MountsIn(Propagated(prop, svc, extra[..0])) == []
  {
    assert Propagated(prop, svc, extra[..0]) == [];
  }

  /** Convert and append volume by volume. */
  method AppendVolumes(start: seq<Volume>, volumes: seq<Volume>) returns (res: seq<Volume>)
    ensures res == start + volumes
  {
    res := start;
    for n := 0 to |volumes|
      invariant res == start + volumes[..n]
    {
      res := res + [Volume(volumes[n].name, volumes[n].source)];
      assert volumes[..n + 1] == volumes[..n] + [volumes[n]];
    }
    assert volumes[..|volumes|] == volumes;
  }

  method GetVolumes(prop: Propagation, name: string, extra: seq<ExtraVolMounts>, svc: seq<string>) returns (res: seq<Volume>)
    ensures res == VolumesHead(name) + VolumesIn(Propagated(prop, svc, extra))
  {
    hide VolumesIn, Propagated, PropagatedEntry;
    res := [ Volume("config-data", ConfigMapSource(name + "-config-data", 416)),
             Volume("horizon-secret-key", SecretSource(SERVICE_NAME, 384)) ];
    res := res + [ScriptVolume()];
    assert res == VolumesHead(name);
    hide VolumesHead, ScriptVolume;
    ghost var head := res;
    assert VolumesIn(Propagated(prop, svc, extra[..0])) == [] by { NothingPropagated(prop, svc, extra); }
    for i := 0 to |extra|
      invariant res == head + VolumesIn(Propagated(prop, svc, extra[..i]))
    {
      var propagated := Propagate(prop, extra[i], svc);
      ghost var before, soFar := Propagated(prop, svc, extra[..i]), res;
      assert VolumesIn(propagated[..0]) == [] by { NoVolumes(propagated); }
      for j := 0 to |propagated|
        invariant res == soFar + VolumesIn(propagated[..j])
      {
        res := AppendVolumes(res, propagated[j].volumes);
        VolumesTake(propagated, j);
      }
      assert propagated[..|propagated|] == propagated;
      PropagatedTake(prop, svc, extra, i);
      VolumesAppend(before, propagated);
    }
    assert extra[..|extra|] == extra;
  }

  method GetVolumeMounts(prop: Propagation, extra: seq<ExtraVolMounts>, svc: seq<string>) returns (vm: seq<VolumeMount>)
    ensures vm == MountsHead() + MountsIn(Propagated(prop, svc, extra))
  {
    hide MountsIn, Propagated, PropagatedEntry;
    vm := [ VolumeMount("config-data", "/var/lib/config-data/default/", "", false),
            VolumeMount("config-data", "/var/lib/kolla/config_files/config.json", "horizon.json", true),
            VolumeMount("horizon-secret-key", "/run/openstack-dashboard/.secrets", "", true) ];
    vm := vm + ScriptVolumeMounts();
    assert vm == MountsHead();
    hide MountsHead, ScriptVolumeMounts;
    ghost var head := vm;
    assert MountsIn(Propagated(prop, svc, extra[..0])) == [] by { NothingPropagated(prop, svc, extra); }
    for i := 0 to |extra|
      invariant vm == head + MountsIn(Propagated(prop, svc, extra[..i]))
    {
      var propagated := Propagate(prop, extra[i], svc);
      ghost var before, soFar := Propagated(prop, svc, extra[..i]), vm;
      assert MountsIn(propagated[..0]) == [] by { NoVolumes(propagated); }
      for j := 0 to |propagated|
        invariant vm == soFar + MountsIn(propagated[..j])
      {
        vm := vm + propagated[j].mounts;
        VolumesTake(propagated, j);
      }
      assert propagated[..|propagated|] == propagated;
      PropagatedTake(prop, svc, extra, i);
      VolumesAppend(before, propagated);
    }
    assert extra[..|extra|] == extra;
  }

  // ---------- environment and probes ----------

  method GetEnvVars(configHash: string, enabledServices: map<string, string>) returns (envVars: map<string, string>)
    ensures envVars == EnvVars(configHash, enabledServices)
  {
    envVars := map[];
    envVars := envVars["KOLLA_CONFIG_STRATEGY" := "COPY_ALWAYS"];
    envVars := envVars["ENABLE_DESIGNATE" := "yes"];
    envVars := envVars["ENABLE_HEAT" := "yes"];
    envVars := envVars["ENABLE_IRONIC" := "yes"];
    envVars := envVars["ENABLE_MANILA" := "yes"];
    envVars := envVars["ENABLE_OCTAVIA" := "yes"];
    envVars := envVars["ENABLE_CLOUDKITTY" := Get(enabledServices, "cloudkitty").GetOr("")];
    envVars := envVars["ENABLE_WATCHER" := Get(enabledServices, "watcher").GetOr("")];
    envVars := envVars["CONFIG_HASH" := configHash];
    envVars := envVars["UNPACK_THEME" := "true"];
  }

  function FormatProbes(): Probe {
    Probe(10, 0, DASHBOARD, "horizon", HTTP)
  }

  function FormatStartupProbe(): Probe {
    Probe(0, 12, DASHBOARD, "horizon", HTTP)
  }

  // ---------- TLS ----------

  class TLSRequiredOptions {
    var containerPort: nat
    var livenessProbe: Probe
    var readinessProbe: Probe
    var startupProbe: Probe
    var volumes: seq<Volume>
    var volumeMounts: seq<VolumeMount>

    constructor (containerPort: nat, livenessProbe: Probe, readinessProbe: Probe, startupProbe: Probe,
                 volumes: seq<Volume>, volumeMounts: seq<VolumeMount>)
      ensures this.containerPort == containerPort
      ensures this.livenessProbe == livenessProbe && this.readinessProbe == readinessProbe && this.startupProbe == startupProbe
      ensures this.volumes == volumes && this.volumeMounts == volumeMounts
    {
      this.containerPort := containerPort;
      this.livenessProbe, this.readinessProbe, this.startupProbe := livenessProbe, readinessProbe, startupProbe;
      this.volumes, this.volumeMounts := volumes, volumeMounts;
    }

    /** `fail` tells that the TLS section cannot be turned into a service. */
    method FormatTLSOptions(tls: TLS, fail: bool) returns (ok: bool)
      modifies this
      ensures ok == !fail
      ensures ok ==>
        && containerPort == HORIZON_PORT_TLS
        && livenessProbe == old(livenessProbe).(scheme := HTTPS)
        && readinessProbe == old(readinessProbe).(scheme := HTTPS)
        && startupProbe == old(startupProbe).(scheme := HTTPS)
        && volumes == old(volumes) + (CAVolumes(tls) + [CertVolume(tls)])
        && volumeMounts == old(volumeMounts) + (CAMounts(tls) + CertMounts())
    {
      if fail {
        return false;
      }
      if tls.caBundleSecretName != "" {
        volumes := volumes + CAVolumes(tls);
        volumeMounts := volumeMounts + CAMounts(tls);
      }
      containerPort := HORIZON_PORT_TLS;
      livenessProbe := livenessProbe.(scheme := HTTPS);
      readinessProbe := readinessProbe.(scheme := HTTPS);
      startupProbe := startupProbe.(scheme := HTTPS);
      volumes := volumes + [CertVolume(tls)];
      volumeMounts := volumeMounts + CertMounts();
      return true;
    }
  }

  // ---------- the Deployment ----------

  method Deployment(prop: Propagation, key: Key, spec: Spec, configHash: string, labels: map<string, string>,
                    annotations: map<string, string>, enabledServices: map<string, string>,
                    topology: Option<string>, m: MTLS, fail: bool)
    returns (deployment: Option<DeploymentSpec>)
    ensures deployment ==
      if fail && spec.tls.Enabled() then None
      else Some(BuildDeployment(prop, key, spec, configHash, labels, annotations, enabledServices, topology, m))
    ensures deployment.Some? ==>
      var d := deployment.value;
      && d.replicas == spec.replicas && d.labels == labels && d.annotations == annotations
      && d.serviceAccount == "horizon-" + key.name
      && d.logContainer.image == d.horizonContainer.image == spec.containerImage
      && d.logContainer.resources == d.horizonContainer.resources == spec.resources
      && d.nodeSelector == (if spec.nodeSelector.Some? then spec.nodeSelector.value else map[])
      && d.placement == (if topology.Some? then ByTopology(topology.value) else Spread)
  {
    var args := ["-c", "/usr/local/bin/kolla_theme_setup && /usr/local/bin/kolla_start"];
    var containerPort := HORIZON_PORT;
    var livenessProbe := FormatProbes();
    var readinessProbe := FormatProbes();
    var startupProbe := FormatStartupProbe();
    var envVars := GetEnvVars(configHash, enabledServices);
    var volumes := GetVolumes(prop, key.name, spec.extraMounts, HORIZON_PROPAGATION);
    volumes := volumes + [LogVolume()];
    var volumeMounts := GetVolumeMounts(prop, spec.extraMounts, HORIZON_PROPAGATION);
    volumeMounts := volumeMounts + [LogVolumeMount()];

    if spec.tls.Enabled() {
      var options := new TLSRequiredOptions(
        containerPort, livenessProbe, readinessProbe, startupProbe, volumes, volumeMounts);
      var ok := options.FormatTLSOptions(spec.tls, fail);
      if !ok {
        return None;
      }
      volumes, volumeMounts := options.volumes, options.volumeMounts;
      livenessProbe, readinessProbe := options.livenessProbe, options.readinessProbe;
      startupProbe, containerPort := options.startupProbe, options.containerPort;
    }

    if m.secret != "" {
      volumes := volumes + [MTLSVolume(m)];
      volumeMounts := volumeMounts + MTLSMounts(m);
    }
    assert volumes == PodVolumes(prop, key.name, spec, m);
    assert volumeMounts == PodMounts(prop, spec, m);

    var nodeSelector := if spec.nodeSelector.Some? then spec.nodeSelector.value else map[];
    var placement := if topology.Some? then ByTopology(topology.value) else Spread;
    return Some(DeploymentSpec(
      labels, spec.replicas, annotations, RbacResourceName(key),
      Container(key.name + "-log", ["-c", "tail -n+1 -F " + LOG_FILE], spec.containerImage, envVars,
                [LogVolumeMount()], spec.resources),
      Container(SERVICE_NAME, args, spec.containerImage, envVars, volumeMounts, spec.resources),
      livenessProbe, readinessProbe, startupProbe, containerPort, volumes, nodeSelector, placement));
  }
}
