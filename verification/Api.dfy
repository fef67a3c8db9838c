/** The Horizon resource: specification, status and admission (horizon_types.go, horizon_webhook.go). */
module Api {
  import opened Wrappers
  import opened Conditions
  import Volumes

  datatype TLS = TLS(secretName: Option<string>, caBundleSecretName: string) {
    predicate Enabled() {
      secretName.Some? && secretName.value != ""
    }
  }

  /** A topology reference as the user writes it; an empty namespace means the resource's own. */
  datatype TopoRef = TopoRef(name: string, ns: string)

  datatype Spec = Spec(
    containerImage: string,
    nodeSelector: Option<map<string, string>>,
    defaultConfigOverwrite: map<string, string>,
    customServiceConfig: string,
    resources: string,
    serviceEndpointURL: Option<string>,
    tls: TLS,
    replicas: nat,
    secret: string,
    memcachedInstance: string,
    extraMounts: seq<Volumes.ExtraVolMounts>,
    networkAttachments: seq<string>,
    topologyRef: Option<TopoRef>)

  datatype Status = Status(
    conditions: Conditions,
    hash: map<string, string>,
    endpoint: string,
    readyCount: nat,
    observedGeneration: nat,
    networkAttachments: string,
    lastAppliedTopology: Option<Key>)

  datatype CR = CR(
    key: Key,
    generation: nat,
    deleting: bool,
    finalizer: bool,
    keptByOthers: bool,   // somebody else's finalizer
    spec: Spec,
    status: Status) {

    /** The topology that the specification refers to, with the namespace filled in. */
    function TopologyRef(): Option<Key> {
      match spec.topologyRef
      case None => None
      case Some(r) => Some(Key(if r.ns == "" then key.ns else r.ns, r.name))
    }
  }

  /** A resource is kept while it is deleted only by a finalizer: the operator's or somebody else's. */
  predicate Lives(cr: CR) {
    cr.deleting ==> cr.finalizer || cr.keptByOthers
  }

  function RbacResourceName(key: Key): string {
    "horizon-" + key.name
  }

  /** Admission refuses a topology reference into another namespace, on creation and on update. */
  predicate Admitted(key: Key, spec: Spec) {
    spec.topologyRef.Some? ==> spec.topologyRef.value.ns in {"", key.ns}
  }

  /** The name under which a resource holds a topology: it contains no namespace. */
  function TopologyFinalizer(key: Key): string {
    "openstack.org/horizon-" + key.name
  }
}
