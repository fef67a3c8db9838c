/** The Deployment that a pass writes (deployment.go). */
module Pods {
  import opened Wrappers
  import opened Api
  import opened Volumes

  const HORIZON_PORT: nat := 8080
  const HORIZON_PORT_TLS: nat := 8443
  const HORIZON_SVC_PORT: nat := 80
  const HORIZON_SVC_PORT_TLS: nat := 443
  const LOG_FILE := "/var/log/horizon/horizon.log"
  const TLS_VOLUME := "horizon-tls-certs"
  const CA_VOLUME := "combined-ca-bundle"

  datatype Scheme = HTTP | HTTPS

  datatype Probe = Probe(initialDelay: nat, failureThreshold: nat, path: string, port: string, scheme: Scheme)

  datatype Container = Container(
    name: string,
    args: seq<string>,
    image: string,
    env: map<string, string>,
    mounts: seq<VolumeMount>,
    resources: string)

  datatype Placement = Spread | ByTopology(topology: string)

  datatype DeploymentSpec = DeploymentSpec(
    labels: map<string, string>,
    replicas: nat,
    annotations: map<string, string>,
    serviceAccount: string,
    logContainer: Container,
    horizonContainer: Container,
    liveness: Probe,
    readiness: Probe,
    startup: Probe,
    containerPort: nat,
    volumes: seq<Volume>,
    nodeSelector: map<string, string>,
    placement: Placement)

  /** The part of a Memcached resource that reaches the pod: its client certificate, when there is one. */
  datatype MTLS = MTLS(secret: string, paths: seq<string>)

  function MTLSVolume(m: MTLS): Volume {
    Volume(m.secret, SecretSource(m.secret, 256))
  }

  /** The memcached library mounts its own volume only. */
  function MTLSMounts(m: MTLS): (r: seq<VolumeMount>)
    ensures forall v | v in r :: v.name == m.secret
  {
    seq(|m.paths|, i requires 0 <= i < |m.paths| => VolumeMount(m.secret, m.paths[i], "", true))
  }

  // ---------- specification ----------

  function EnvVars(hash: string, services: map<string, string>): map<string, string> {
    map[
      "KOLLA_CONFIG_STRATEGY" := "COPY_ALWAYS",
      "ENABLE_DESIGNATE" := "yes",
      "ENABLE_HEAT" := "yes",
      "ENABLE_IRONIC" := "yes",
      "ENABLE_MANILA" := "yes",
      "ENABLE_OCTAVIA" := "yes",
      "ENABLE_CLOUDKITTY" := Get(services, "cloudkitty").GetOr(""),
      "ENABLE_WATCHER" := Get(services, "watcher").GetOr(""),
      "CONFIG_HASH" := hash,
      "UNPACK_THEME" := "true"
    ]
  }

  function CAVolumes(t: TLS): seq<Volume> {
    if t.caBundleSecretName != "" then [Volume(CA_VOLUME, SecretSource(t.caBundleSecretName, 256))] else []
  }

  function CAMounts(t: TLS): seq<VolumeMount> {
    if t.caBundleSecretName != ""
    then [VolumeMount(CA_VOLUME, "/etc/pki/ca-trust/extracted/pem/tls-ca-bundle.pem", "tls-ca-bundle.pem", true)]
    else []
  }

  function CertVolume(t: TLS): Volume {
    Volume(TLS_VOLUME, SecretSource(t.secretName.GetOr(""), 256))
  }

  function CertMounts(): seq<VolumeMount> {
    [ VolumeMount(TLS_VOLUME, "/var/lib/config-data/tls/certs/horizon.crt", "tls.crt", true),
      VolumeMount(TLS_VOLUME, "/var/lib/config-data/tls/private/horizon.key", "tls.key", true) ]
  }

  function UserVolumes(prop: Propagation, extra: seq<ExtraVolMounts>): seq<Volume> {
    VolumesIn(Propagated(prop, HORIZON_PROPAGATION, extra))
  }

  function UserMounts(prop: Propagation, extra: seq<ExtraVolMounts>): seq<VolumeMount> {
    MountsIn(Propagated(prop, HORIZON_PROPAGATION, extra))
  }

  function PodVolumes(prop: Propagation, name: string, spec: Spec, m: MTLS): seq<Volume> {
    VolumesHead(name) + UserVolumes(prop, spec.extraMounts) + [LogVolume()]
    + (if spec.tls.Enabled() then CAVolumes(spec.tls) + [CertVolume(spec.tls)] else [])
    + (if m.secret != "" then [MTLSVolume(m)] else [])
  }

  function PodMounts(prop: Propagation, spec: Spec, m: MTLS): seq<VolumeMount> {
    MountsHead() + UserMounts(prop, spec.extraMounts) + [LogVolumeMount()]
    + (if spec.tls.Enabled() then CAMounts(spec.tls) + CertMounts() else [])
    + (if m.secret != "" then MTLSMounts(m) else [])
  }

  function SchemeOf(spec: Spec): Scheme {
    if spec.tls.Enabled() then HTTPS else HTTP
  }

  const DASHBOARD := "/dashboard/auth/login/?next=/dashboard/"

  function BuildDeployment(prop: Propagation, key: Key, spec: Spec, hash: string, labels: map<string, string>,
                           annotations: map<string, string>, services: map<string, string>,
                           topology: Option<string>, m: MTLS): DeploymentSpec
  {
    var env := EnvVars(hash, services);
    DeploymentSpec(
      labels, spec.replicas, annotations, RbacResourceName(key),
      Container(key.name + "-log", ["-c", "tail -n+1 -F " + LOG_FILE], spec.containerImage, env,
                [LogVolumeMount()], spec.resources),
      Container(SERVICE_NAME, ["-c", "/usr/local/bin/kolla_theme_setup && /usr/local/bin/kolla_start"],
                spec.containerImage, env, PodMounts(prop, spec, m), spec.resources),
      Probe(10, 0, DASHBOARD, "horizon", SchemeOf(spec)),
      Probe(10, 0, DASHBOARD, "horizon", SchemeOf(spec)),
      Probe(0, 12, DASHBOARD, "horizon", SchemeOf(spec)),
      if spec.tls.Enabled() then HORIZON_PORT_TLS else HORIZON_PORT,
      PodVolumes(prop, key.name, spec, m),
      spec.nodeSelector.GetOr(map[]),
      if topology.Some? then ByTopology(topology.value) else Spread)
  }
}
