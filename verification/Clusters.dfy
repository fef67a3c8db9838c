/**
  The cluster as a reconciler pass sees it, the library functions whose source is not part of this
  model, and everything a single pass does not control: failing calls, the clock, the random key.
  */
module Clusters {
  import opened Wrappers
  import opened Conditions
  import opened Api
  import Volumes
  import Pods

  // ---------- objects ----------

  datatype Secret = Secret(data: map<string, string>, owner: Option<Key>)

  datatype MemcachedObject = MemcachedObject(ready: bool, servers: string, tls: bool, mtls: Pods.MTLS)

  datatype TopologyObject = TopologyObject(spec: string, finalizers: set<string>)

  datatype DeploymentObject = DeploymentObject(
    spec: Pods.DeploymentSpec, owner: Option<Key>, generation: nat,
    observedGeneration: nat, replicas: nat, readyReplicas: nat) {

    predicate IsReady() {
      && generation == observedGeneration
      && spec.replicas == readyReplicas
      && replicas == readyReplicas
    }
  }

  datatype OwnedKind = ServiceAccountKind | RoleKind | RoleBindingKind | ConfigMapKind | ServiceKind

  datatype OwnedKey = OwnedKey(kind: OwnedKind, key: Key)

  datatype Content = Rules | Text(text: string) | Ports(port: nat, targetPort: nat)

  /** An object that a pass only writes. */
  datatype Owned = Owned(content: Content, owner: Option<Key>)

  datatype Cluster = Cluster(
    horizons: map<Key, CR>,
    secrets: map<Key, Secret>,
    memcacheds: map<Key, MemcachedObject>,
    keystones: map<string, Option<string>>,  // by namespace: the internal endpoint, once published
    keystoneServices: set<Key>,
    nads: map<Key, string>,
    topologies: map<Key, TopologyObject>,
    owned: map<OwnedKey, Owned>,
    deployments: map<Key, DeploymentObject>,
    pods: map<Key, string>)                  // the network annotations of a resource's pods

  // ---------- unseen libraries ----------

  datatype Url = Url(scheme: string, host: string)

  datatype TemplateParameters = TemplateParameters(
    keystoneURL: string, horizonEndpoint: string, horizonEndpointHost: string,
    memcachedServers: string, memcachedTLS: bool, serverName: string, port: nat, tls: bool,
    isPublicHTTPS: bool, logFile: string, memcachedMTLS: bool)

  /** Functions that the reconciler calls and that are not part of this model: any functions at all. */
  datatype Lib = Lib(
    secretHash: map<string, string> -> string,
    caHash: map<string, string> -> Option<string>,
    certHash: map<string, string> -> Option<string>,
    textHash: string -> string,
    objectHash: map<string, string> -> string,
    render: (TemplateParameters, map<string, string>) -> string,
    scripts: string,
    parseUrl: string -> Option<Url>,
    apiEndpoint: (Key, Spec) -> Option<string>,
    networksAnnotation: seq<string> -> map<string, string>,
    verifyNetwork: (seq<string>, string, nat) -> (bool, string),
    propagate: Volumes.Propagation,
    mirror: Conditions -> Detail)

  // ---------- one pass's surroundings ----------

  datatype Call =
    | GetInstance
    | PutServiceAccount
    | PutRole
    | PutRoleBinding
    | GetOpenStackSecret
    | GetMemcached
    | GetCABundle
    | GetCert
    | GetKeystoneAPI
    | PutConfigData
    | PutScripts
    | GetHorizonSecret
    | GenerateKey
    | PutHorizonSecret
    | HashInputs
    | GetKeystoneService(service: string)
    | NewService
    | PutService
    | GetNAD(nad: string)
    | BuildAnnotation
    | ReleaseTopology
    | AcquireTopology
    | BuildTLS
    | PutDeployment
    | VerifyNetwork
    | PatchInstance

  const PASSWORD_LENGTH := 50

  type Password = s: string | |s| == PASSWORD_LENGTH witness seq(PASSWORD_LENGTH, _ => 'x')

  datatype Oracle = Oracle(
    fail: set<Call>,        // calls that return an error
    wait: set<Call>,        // writes that ask to be tried again later
    text: string,           // the text of every error of the pass
    now: int,
    stray: Conditions,      // what `Init` leaves of the types it does not list
    newKey: Password)

  /** A pass during which every call succeeds. */
  predicate Calm(o: Oracle) {
    o.fail == {} && o.wait == {}
  }

  /** A pass during which no call fails but the reads of network attachments, and perhaps the patch. */
  predicate Smooth(o: Oracle) {
    o.wait == {} && forall c | c in o.fail :: c.GetNAD? || c == PatchInstance
  }

  /** Calls with an effect outside the pass, in the order in which they happened. */
  datatype Action =
    | WroteSecret(data: map<string, string>)
    | Released(topology: Key)
    | Acquired(topology: Key)
    | WroteDeployment(spec: Pods.DeploymentSpec)
    | Verified(ready: bool)

  // ---------- writes ----------

  /** A resource may take over an object that nobody controls, but not one that another controls. */
  predicate Controllable(owner: Option<Key>, self: Key) {
    owner == None || owner == Some(self)
  }
}
