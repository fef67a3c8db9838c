/** Admission of a Horizon resource (horizon_webhook.go), and what the reconciler owes to it. */
module Webhook {
  import opened Wrappers
  import opened Api
  import opened Clusters
  import opened Passes
  import opened Watches
  import opened TopologyProtocol

  /** The package variable that holds the defaults; it is set once, when the operator starts. */
  class HorizonDefaults {
    var containerImageURL: string

    constructor (url: string)
      ensures containerImageURL == url
    {
      containerImageURL := url;
    }
  }

  /** A resource on its way into the cluster. */
  class Submission {
    const key: Key
    var spec: Spec

    constructor (key: Key, spec: Spec)
      ensures this.key == key && this.spec == spec
    {
      this.key, this.spec := key, spec;
    }

    /** Only an empty image is replaced, so a second call changes nothing more. */
    method Default(defaults: HorizonDefaults)
      modifies this
      ensures old(spec).containerImage != "" ==> spec == old(spec)
      ensures old(spec).containerImage == "" ==> spec == old(spec).(containerImage := defaults.containerImageURL)
      ensures Admitted(key, spec) <==> Admitted(key, old(spec))
    {
      if spec.containerImage == "" {
        spec := spec.(containerImage := defaults.containerImageURL);
      }
    }

    method ValidateTopology() returns (allErrs: seq<string>)
      ensures allErrs == [] <==> Admitted(key, spec)
      ensures allErrs == [] <==> (spec.topologyRef.Some? ==> spec.topologyRef.value.ns in {"", key.ns})
    {
      allErrs := [];
      if spec.topologyRef.Some? {
        var ns := spec.topologyRef.value.ns;
        if ns != "" && ns != key.ns {
          allErrs := allErrs + ["Customizing namespace field is not supported"];
        }
      }
    }

    /** Creation and update are judged alike; the old object plays no part. */
    method ValidateCreate() returns (err: Option<seq<string>>)
      ensures err == None <==> Admitted(key, spec)
      ensures err == None <==> (spec.topologyRef.Some? ==> spec.topologyRef.value.ns in {"", key.ns})
    {
      var allErrs: seq<string> := [];
      var topologyErrs := ValidateTopology();
      allErrs := allErrs + topologyErrs;
      err := if |allErrs| != 0 then Some(allErrs) else None;
    }

    method ValidateUpdate(before: Spec) returns (err: Option<seq<string>>)
      ensures err == None <==> Admitted(key, spec)
      ensures err == None <==> (spec.topologyRef.Some? ==> spec.topologyRef.value.ns in {"", key.ns})
    {
      var allErrs: seq<string> := [];
      var topologyErrs := ValidateTopology();
      allErrs := allErrs + topologyErrs;
      err := if |allErrs| != 0 then Some(allErrs) else None;
    }
  }

  /**
    Why finalizers need admission: letting a topology go takes the hold away from every resource of
    the same name, in whatever namespace. The others keep theirs.
    */
  lemma ReleaseHitsNamesakes(cr: CR, ts: Topologies, t: Key, k: Key)
    requires cr.status.lastAppliedTopology == Some(t)
    ensures Holds(TopologiesAfter(cr, ts, Dropped), t, k) <==> Holds(ts, t, k) && k.name != cr.key.name
  {
    WithoutHolds(ts, t, cr.key, t, k);
  }

  /**
    Why the watch needs it: a change of the topology that a resource refers to is mapped back to the
    resource exactly if the reference stays in its namespace.
    */
  lemma TopologyIsWatchedIff(cr: CR, a: Option<TopologyObject>, b: Option<TopologyObject>)
    requires cr.spec.topologyRef.Some? && a.Some? != b.Some?
    ensures TopologyEvent(cr, cr.TopologyRef().value, a, b) <==> Admitted(cr.key, cr.spec)
  {
    assert cr.spec.topologyRef.value.name in IndexValues(TopologyName, cr.spec);
  }
}
