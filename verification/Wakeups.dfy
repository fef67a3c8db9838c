/**
  No wakeup is lost: a resource that is neither queued nor due for a retry is in a state in which
  another pass has nothing to do. The proof needs a frame: a steady resource stays steady under every
  change that no watch maps back to it. And the other way round: a settled resource that is not Ready
  wakes itself without end.
  */
module Wakeups {
  import opened Wrappers
  import opened Conditions
  import opened Api
  import opened Clusters
  import opened Passes
  import opened Reading
  import opened Facts
  import opened Safety
  import opened Steadiness
  import opened Quiet
  import opened Watches
  import opened Runs
  import opened TopologyProtocol

  // ---------- the frame: what no watch reports does not matter ----------

  /** The resource holds the topologies that it refers to or remembers as it did before. */
  ghost predicate SameHolds(cr: CR, a: Cluster, b: Cluster) {
    forall t: Key | Some(t) == cr.TopologyRef() || Some(t) == cr.status.lastAppliedTopology ::
      Holds(a.topologies, t, cr.key) == Holds(b.topologies, t, cr.key)
  }

  lemma SecretUnchanged(cr: CR, a: Cluster, b: Cluster, f: Field, name: string)
    requires !Wakes(cr, a, b) && name in IndexValues(f, cr.spec)
    ensures SecretOf(cr, a, name) == SecretOf(cr, b, name)
  {
    var k := Key(cr.key.ns, name);
    assert !SecretEvent(cr, k, Get(a.secrets, k), Get(b.secrets, k));
    assert RefersTo(cr, k);
  }

  lemma SecretsUnchanged(lib: Lib, cr: CR, a: Cluster, b: Cluster)
    requires !Wakes(cr, a, b)
    ensures OpenStackVars(lib, cr, a) == OpenStackVars(lib, cr, b)
    ensures CAVars(lib, cr, a) == CAVars(lib, cr, b) && CertVars(lib, cr, a) == CertVars(lib, cr, b)
    ensures TLSMissing(lib, cr, a) == TLSMissing(lib, cr, b) && TLSMissingDetail(cr, a) == TLSMissingDetail(cr, b)
  {
    hide Wakes, SecretOf;
    if cr.spec.secret != "" {
      SecretUnchanged(cr, a, b, PasswordSecret, cr.spec.secret);
    }
    if cr.spec.tls.caBundleSecretName != "" {
      SecretUnchanged(cr, a, b, CABundleSecret, cr.spec.tls.caBundleSecretName);
    }
    if cr.spec.tls.Enabled() {
      SecretUnchanged(cr, a, b, TLSSecret, cr.spec.tls.secretName.value);
    }
  }

  lemma ObjectsUnchanged(cr: CR, a: Cluster, b: Cluster)
    requires !Wakes(cr, a, b)
    ensures MemcachedOf(cr, a) == MemcachedOf(cr, b)
    ensures Get(a.keystones, cr.key.ns) == Get(b.keystones, cr.key.ns)
    ensures ServicesOf(cr, a) == ServicesOf(cr, b)
    ensures forall n | n in cr.spec.networkAttachments :: Get(a.nads, Key(cr.key.ns, n)) == Get(b.nads, Key(cr.key.ns, n))
  {
    assert UsesMemcached(cr, Key(cr.key.ns, cr.spec.memcachedInstance));
    assert UsesKeystoneService(cr, Key(cr.key.ns, "cloudkitty")) by { assert KEYSTONE_SERVICES_WATCH[0] == "cloudkitty"; }
    assert UsesKeystoneService(cr, Key(cr.key.ns, "watcher")) by { assert KEYSTONE_SERVICES_WATCH[1] == "watcher"; }
    forall n | n in cr.spec.networkAttachments
      ensures Get(a.nads, Key(cr.key.ns, n)) == Get(b.nads, Key(cr.key.ns, n))
    {
      assert UsesNAD(cr, Key(cr.key.ns, n));
    }
  }

  lemma {:induction false} FindingUnchanged(a: map<Key, string>, b: map<Key, string>, ns: string, names: seq<string>)
    requires forall n | n in names :: Get(a, Key(ns, n)) == Get(b, Key(ns, n))
    ensures FindNADs({}, a, ns, names) == FindNADs({}, b, ns, names)
  {
    if names != [] {
      var last := names[|names| - 1];
      FindingUnchanged(a, b, ns, names[..|names| - 1]);
      assert Get(a, Key(ns, last)) == Get(b, Key(ns, last));
    }
  }

  lemma OwnedUnchanged(cr: CR, a: Cluster, b: Cluster, k: OwnedKey, content: Content)
    requires !Wakes(cr, a, b) && IsOwned(a, k, content, cr.key)
    ensures IsOwned(b, k, content, cr.key)
  {
    assert !OwnedEvent(cr, Get(a.owned, k), Get(b.owned, k));
  }

  lemma FilesUnchanged(lib: Lib, cr: CR, a: Cluster, b: Cluster)
    requires !Wakes(cr, a, b)
    ensures RbacInPlace(cr, a) ==> RbacInPlace(cr, b)
    ensures forall text | ConfigInPlace(lib, cr, a, text) :: ConfigInPlace(lib, cr, b, text)
    ensures Served(lib, cr, a) ==> Served(lib, cr, b)
  {
    hide Wakes, IsOwned;
    forall k, content | IsOwned(a, k, content, cr.key)
      ensures IsOwned(b, k, content, cr.key)
    {
      OwnedUnchanged(cr, a, b, k, content);
    }
  }

  lemma InputsUnchanged(lib: Lib, cr: CR, a: Cluster, b: Cluster)
    requires !Wakes(cr, a, b)
    ensures AllVars(lib, cr, a) == AllVars(lib, cr, b) && MemcachedOf(cr, a) == MemcachedOf(cr, b)
    ensures forall m :: ConfigText(lib, cr, a, m) == ConfigText(lib, cr, b, m)
  {
    hide Wakes, OpenStackVars, CAVars, CertVars, TLSMissing, TLSMissingDetail, MemcachedOf, ServicesOf;
    SecretsUnchanged(lib, cr, a, b);
    ObjectsUnchanged(cr, a, b);
  }

  lemma DescriptionUnchanged(lib: Lib, cr: CR, a: Cluster, b: Cluster, hash: string, m: MemcachedObject)
    requires !Wakes(cr, a, b) && Admitted(cr.key, cr.spec)
    ensures DesiredSpec(lib, {}, cr, a, hash, m) == DesiredSpec(lib, {}, cr, b, hash, m)
  {
    hide Wakes, FindNADs, ServicesOf, MemcachedOf, Pods.BuildDeployment;
    ObjectsUnchanged(cr, a, b);
    FindingUnchanged(a.nads, b.nads, cr.key.ns, cr.spec.networkAttachments);
    TopologyUnchanged(cr, a, b);
  }

  lemma TopologyUnchanged(cr: CR, a: Cluster, b: Cluster)
    requires !Wakes(cr, a, b) && Admitted(cr.key, cr.spec)
    ensures TopologySpec(cr, a) == TopologySpec(cr, b)
  {
    if cr.TopologyRef().Some? {
      var t := cr.TopologyRef().value;
      assert cr.spec.topologyRef.value.name in IndexValues(TopologyName, cr.spec);
      assert RefersTo(cr, t);
      assert !TopologyEvent(cr, t, Get(a.topologies, t), Get(b.topologies, t));
    }
  }

  lemma DeploymentUnchanged(cr: CR, a: Cluster, b: Cluster)
    requires !Wakes(cr, a, b)
    requires var k := DeploymentKey(cr.key.ns); k in a.deployments && a.deployments[k].owner == Some(cr.key)
    ensures Get(a.deployments, DeploymentKey(cr.key.ns)) == Get(b.deployments, DeploymentKey(cr.key.ns))
  {
    var k := DeploymentKey(cr.key.ns);
    assert !DeploymentEvent(cr, Get(a.deployments, k), Get(b.deployments, k));
  }

  lemma ConfiguredUnlessSecret(lib: Lib, cr: CR, a: Cluster, b: Cluster)
    requires Configured(lib, cr, a) && !Wakes(cr, a, b)
    ensures Configured(lib, cr, b) <==> HasValidSecret(b.secrets, cr.key.ns)
    ensures AllVars(lib, cr, b).Some? && MemcachedOf(cr, a) == MemcachedOf(cr, b)
  {
    hide Wakes, AllVars, MemcachedOf, ConfigText, RbacInPlace, ConfigInPlace, HasValidSecret, Served;
    ConfiguredReads(lib, cr, a);
    InputsThere(lib, cr, a);
    InputsUnchanged(lib, cr, a, b);
    FilesUnchanged(lib, cr, a, b);
  }

  lemma RolledOutUnchanged(lib: Lib, cr: CR, a: Cluster, b: Cluster)
    requires MemcachedOf(cr, a).Some? && MemcachedOf(cr, a) == MemcachedOf(cr, b)
    requires RolledOut(lib, {}, cr, a) && !Wakes(cr, a, b) && Admitted(cr.key, cr.spec)
    ensures RolledOut(lib, {}, cr, b)
    ensures Get(a.deployments, DeploymentKey(cr.key.ns)) == Get(b.deployments, DeploymentKey(cr.key.ns))
  {
    hide Wakes, MemcachedOf, DesiredSpec;
    DeploymentUnchanged(cr, a, b);
    DescriptionUnchanged(lib, cr, a, b, StoredHash(cr).GetOr(""), MemcachedOf(cr, a).value);
  }

  /**
    The frame of a complete resource: under a change that wakes nobody it depends on exactly two things
    that no watch covers, the validity of the Horizon secret and the network of its pods.
    */
  lemma CompleteUnlessWoken(lib: Lib, cr: CR, a: Cluster, b: Cluster)
    requires Complete(lib, {}, cr, a) && Admitted(cr.key, cr.spec)
    requires !Wakes(cr, a, b) && SameHolds(cr, a, b)
    ensures Complete(lib, {}, cr, b) <==> HasValidSecret(b.secrets, cr.key.ns) && NetworkVerified(lib, cr, b)
    ensures !WaitsForTLS(lib, cr, a) && !WaitsForTLS(lib, cr, b)
    ensures Get(a.deployments, DeploymentKey(cr.key.ns)) == Get(b.deployments, DeploymentKey(cr.key.ns))
  {
    hide Wakes, Configured, RolledOut, Served, Settles, MemcachedOf, HasValidSecret, NetworkVerified, SameHolds, AllVars, WaitsForTLS;
    ConfiguredReads(lib, cr, a);
    InputsThere(lib, cr, a);
    ConfiguredUnlessSecret(lib, cr, a, b);
    NotWaiting(lib, cr, a);
    NotWaiting(lib, cr, b);
    FilesUnchanged(lib, cr, a, b);
    RolledOutUnchanged(lib, cr, a, b);
    SettlesUnchanged(cr, a, b);
  }

  lemma SettlesUnchanged(cr: CR, a: Cluster, b: Cluster)
    requires Settles(cr, a) && SameHolds(cr, a, b)
    ensures Settles(cr, b)
  {
  }

  /** What a change that wakes nobody must leave of a complete resource. */
  predicate Spares(lib: Lib, cr: CR, a: Cluster, b: Cluster) {
    Works(cr) && Complete(lib, {}, cr, a) ==> HasValidSecret(b.secrets, cr.key.ns) && NetworkVerified(lib, cr, b)
  }

  /** A steady resource stays steady under a change that wakes nobody exactly if the change spares it. */
  lemma SteadyUnlessWokenIff(lib: Lib, cr: CR, a: Cluster, b: Cluster)
    requires Steady(lib, {}, cr, a) && Admitted(cr.key, cr.spec)
    requires !Wakes(cr, a, b) && SameHolds(cr, a, b)
    ensures Steady(lib, {}, cr, b) <==> Spares(lib, cr, a, b)
    ensures Steady(lib, {}, cr, b) ==> SteadyStop(lib, cr, b) == SteadyStop(lib, cr, a)
  {
    hide Wakes, Complete, HasValidSecret, NetworkVerified, OpenStackVars, TLSMissing, TLSMissingDetail, MemcachedOf, RbacInPlace;
    hide DeploymentObject.IsReady, SameHolds, Served;
    DepartedUnchanged(cr, a, b);
    hide Departed;
    if Works(cr) {
      if Complete(lib, {}, cr, a) {
        CompleteUnlessWoken(lib, cr, a, b);
      } else {
        SecretsUnchanged(lib, cr, a, b);
        ObjectsUnchanged(cr, a, b);
        FilesUnchanged(lib, cr, a, b);
      }
    }
  }

  lemma DepartedUnchanged(cr: CR, a: Cluster, b: Cluster)
    requires SameHolds(cr, a, b)
    ensures Departed(cr, a) == Departed(cr, b)
    ensures Departed(cr, a) ==> cr.deleting && !Works(cr)
  {
    var last := cr.status.lastAppliedTopology;
    if last.Some? {
      assert Holds(a.topologies, last.value, cr.key) == Holds(b.topologies, last.value, cr.key);
    }
  }

  // ---------- a pass that nobody notices ----------

  /** Nothing brings the resource back after the pass: no error, no delay, no change that it watches. */
  ghost predicate Unnoticed(lib: Lib, o: Oracle, cr: CR, cl: Cluster) {
    var out := Pass(lib, o, cr, cl);
    out.ctl == Done && out.cr == cr && !Wakes(cr, cl, out.cl)
  }

  /** A resource that its pass leaves as it was is at work, or has departed. */
  lemma UnnoticedWorks(lib: Lib, o: Oracle, cr: CR, cl: Cluster)
    requires Lives(cr) && PatchInstance !in o.fail
    requires Pass(lib, o, cr, cl).ctl == Done && Pass(lib, o, cr, cl).cr == cr
    ensures Works(cr) || (Departed(cr, Pass(lib, o, cr, cl).cl) && Body(lib, o, cr, cl).1 == Stop(AtStart, None, Done))
    ensures cr.status.observedGeneration == cr.generation
  {
    hide Normal, ConditionsAt, Epilogue, Delete, Departed;
    var (w, stop) := Body(lib, o, cr, cl);
    ReportIsNotEmpty(lib, o, w.cr, stop, cr.status.conditions);
    if Works(cr) {
      NormalOnTheSame(lib, o, Start(cr, cl));
    } else if !StopsEarly(cr) {
      DeleteDeparts(o, Start(cr, cl));
      StillDeparted(w.cr, cr, w.cl);
    }
  }

  lemma DeleteDeparts(o: Oracle, w: World)
    requires Delete(o, w).1.ctl == Done && w.cr.deleting && !IsNew(w.cr)
    ensures var (w', stop) := Delete(o, w);
      && Departed(w'.cr, w'.cl) && w'.cr == w.cr.(finalizer := false) && stop == Stop(AtStart, None, Done)
  {
  }

  lemma StillDeparted(a: CR, b: CR, cl: Cluster)
    requires Departed(a, cl) && SameButConditions(a, b) && !IsNew(b)
    ensures Departed(b, cl)
  {
  }

  /** A pass that creates the secret wakes its resource. */
  lemma NewSecretWakes(lib: Lib, o: Oracle, cr: CR, cl: Cluster)
    requires !HasValidSecret(cl.secrets, cr.key.ns) && Pass(lib, o, cr, cl).cl.secrets == SecretsAfter(o, cr, cl)
    ensures Wakes(cr, cl, Pass(lib, o, cr, cl).cl)
  {
    hide Pass;
    var k, b := HorizonSecretKey(cr.key.ns), Pass(lib, o, cr, cl).cl;
    assert SecretEvent(cr, k, Get(cl.secrets, k), Get(b.secrets, k));
  }

  lemma UnnoticedFinds(lib: Lib, o: Oracle, cr: CR, cl: Cluster)
    requires Unnoticed(lib, o, cr, cl) && Works(cr) && PatchInstance !in o.fail
    ensures ReachedGate(lib, o, cr, cl) ==> HasValidSecret(cl.secrets, cr.key.ns)
    ensures Body(lib, o, cr, cl).1.position in {AtTLS, AtEnd}
  {
    hide Normal, Wakes, BeforeGate, SecretsAfter, HasValidSecret, ConditionsAt, Epilogue, Prepare, Continues;
    hide HashRead, AllVars, Inputs, HashGate, Rollout;
    var w := Start(cr, cl);
    SecretIsStable(lib, o, cr, cl);
    if ReachedGate(lib, o, cr, cl) && !HasValidSecret(cl.secrets, cr.key.ns) {
      NormalSecrets(lib, o, w);
      NewSecretIsValid(o, cr, cl);
      NewSecretWakes(lib, o, cr, cl);
    }
    NormalMeaning(lib, o, w);
    GateMeaning(lib, o, w);
    if Prepare(lib, o, w).Next? {
      DoneMeansEnd(lib, o, Prepare(lib, o, w).value.0, Prepare(lib, o, w).value.2, Normal(lib, o, w).0, Normal(lib, o, w).1);
    }
  }

  lemma DoneMeansEnd(lib: Lib, o: Oracle, g: World, m: MemcachedObject, w: World, stop: Stop)
    requires Continues(lib, o, g, m, w, stop) && stop.ctl == Done
    ensures stop.position == AtEnd
  {
    hide Rolled, GateDeployment, Unfinished, TopologyUsable, MayDeploy, Checked, Verification;
  }

  lemma UnnoticedWaits(lib: Lib, o: Oracle, cr: CR, cl: Cluster)
    requires Unnoticed(lib, o, cr, cl) && Works(cr) && PatchInstance !in o.fail
    requires Body(lib, o, cr, cl).1.position == AtTLS
    ensures var out := Pass(lib, o, cr, cl);
      WaitsForTLS(lib, cr, out.cl) && Body(lib, o, cr, cl).1 == SteadyStop(lib, cr, out.cl)
  {
    hide Normal, Wakes, HashRead, AllVars, Inputs, Prepare, Continues, RbacInPlace, TLSMissing;
    hide TLSMissingDetail, OpenStackVars;
    hide MemcachedOf, ConditionsAt, Epilogue;
    var w := Start(cr, cl);
    NormalMeaning(lib, o, w);
    GateMeaning(lib, o, w);
    if Prepare(lib, o, w).Next? {
      DoneMeansEnd(lib, o, Prepare(lib, o, w).value.0, Prepare(lib, o, w).value.2, Normal(lib, o, w).0, Normal(lib, o, w).1);
      assert false;
    }
    InputsMeaning(lib, o, w);
    RbacMeaning(o, w);
    assert w.cr == cr by { SameStart(lib, o, cr, cl); }
    SourcesDecide(lib, cr, cl, cr, Normal(lib, o, w).0.cl);
  }

  /** A resource that its pass leaves as it was had observed its generation. */
  lemma SameStart(lib: Lib, o: Oracle, cr: CR, cl: Cluster)
    requires Works(cr) && Pass(lib, o, cr, cl).cr == cr && PatchInstance !in o.fail
    ensures Start(cr, cl).cr == cr
  {
    hide Normal, ConditionsAt, Epilogue;
    NormalOnTheSame(lib, o, Start(cr, cl));
  }

  lemma EndReads(lib: Lib, o: Oracle, cr: CR, cl: Cluster)
    requires Works(cr) && Body(lib, o, cr, cl).1.position == AtEnd
    ensures ReachedGate(lib, o, cr, cl) && AllVars(lib, cr, cl).Some?
  {
    hide Body, ReachedGate, AllVars;
    EndReachedGate(lib, o, cr, cl);
    FinishedHas(lib, o, cr, cl);
  }

  /** The Deployment in the cluster tells which attachments its pass was able to read. */
  lemma AttachmentsTold(lib: Lib, o: Oracle, cr: CR, cl: Cluster)
    requires Works(cr) && Body(lib, o, cr, cl).1.position == AtEnd
    requires var w := Body(lib, o, cr, cl).0; MemcachedOf(w.cr, w.cl).Some? && RolledOut(lib, {}, w.cr, w.cl)
    ensures AttachmentsAgree(lib, o, cr, cl)
  {
    hide Body, DesiredSpec, MemcachedOf, FindNADs;
    var w := Body(lib, o, cr, cl).0;
    FinishedShows(lib, o, cr, cl);
    AnnotationsShow(lib, {}, w.cr, w.cl, StoredHash(w.cr).GetOr(""), MemcachedOf(w.cr, w.cl).value);
  }

  lemma UnnoticedEnds(lib: Lib, o: Oracle, cr: CR, cl: Cluster)
    requires Unnoticed(lib, o, cr, cl) && Works(cr) && PatchInstance !in o.fail
    requires Body(lib, o, cr, cl).1.position == AtEnd && AttachmentsAgree(lib, o, cr, cl)
    ensures Steady(lib, {}, cr, Pass(lib, o, cr, cl).cl)
    ensures Body(lib, o, cr, cl).1 == SteadyStop(lib, cr, Pass(lib, o, cr, cl).cl)
  {
    hide Body, Wakes, AttachmentsAgree, Steady, SteadyStop, ReachedGate, HasValidSecret, ConditionsAt;
    hide Epilogue, Rereads;
    UnnoticedFinds(lib, o, cr, cl);
    EndReads(lib, o, cr, cl);
    ValidRereads(lib, o, cr, cl);
    FinishedIsSteady(lib, o, cr, cl);
    PassFrame(lib, o, cr, cl);
    SteadyDespite(lib, o, cr, cl, cr, Pass(lib, o, cr, cl).cl);
  }

  lemma UnnoticedDiffers(lib: Lib, o: Oracle, cr: CR, cl: Cluster)
    requires Unnoticed(lib, o, cr, cl) && Works(cr) && PatchInstance !in o.fail
    requires Body(lib, o, cr, cl).1.position == AtEnd && Steady(lib, {}, cr, Pass(lib, o, cr, cl).cl)
    ensures AttachmentsAgree(lib, o, cr, cl)
  {
    hide Body, Wakes, AttachmentsAgree, ReachedGate, HasValidSecret, ConditionsAt, Epilogue, WaitsForTLS;
    hide Configured, RolledOut;
    hide Served, Settles, NetworkVerified, AllVars, MemcachedOf;
    var out := Pass(lib, o, cr, cl);
    UnnoticedFinds(lib, o, cr, cl);
    EndReads(lib, o, cr, cl);
    StillReads(lib, o, cr, cl);
    NotWaiting(lib, cr, out.cl);
    assert Complete(lib, {}, cr, out.cl);
    ConfiguredReads(lib, cr, out.cl);
    InputsThere(lib, cr, out.cl);
    RolledOutInBody(lib, o, cr, cl);
    AttachmentsTold(lib, o, cr, cl);
  }

  lemma NotWaiting(lib: Lib, cr: CR, cl: Cluster)
    requires AllVars(lib, cr, cl).Some?
    ensures !WaitsForTLS(lib, cr, cl)
  {
    InputsThere(lib, cr, cl);
  }

  /** A pass that found its secret valid changes nothing that is read. */
  lemma StillReads(lib: Lib, o: Oracle, cr: CR, cl: Cluster)
    requires HasValidSecret(cl.secrets, cr.key.ns)
    ensures AllVars(lib, cr, Pass(lib, o, cr, cl).cl) == AllVars(lib, cr, cl)
  {
    hide Pass, HasValidSecret;
    SecretIsStable(lib, o, cr, cl);
    PassFrame(lib, o, cr, cl);
    SourcesDecide(lib, cr, cl, cr, Pass(lib, o, cr, cl).cl);
  }

  lemma RolledOutInBody(lib: Lib, o: Oracle, cr: CR, cl: Cluster)
    requires Works(cr) && PatchInstance !in o.fail && Pass(lib, o, cr, cl).cr == cr
    requires MemcachedOf(cr, Pass(lib, o, cr, cl).cl).Some? && RolledOut(lib, {}, cr, Pass(lib, o, cr, cl).cl)
    ensures var w := Body(lib, o, cr, cl).0; MemcachedOf(w.cr, w.cl).Some? && RolledOut(lib, {}, w.cr, w.cl)
  {
    hide Body, ConditionsAt, Epilogue, DesiredSpec;
    var w := Body(lib, o, cr, cl).0;
    RolloutIgnoresConditions(lib, cr, w.cr, w.cl);
  }

  /**
    Exactly when the missing wakeup of an unnoticed pass does no harm: a pass that came to its end
    must have read the attachments as they are. Any other pass leaves a steady resource.
    */
  lemma UnnoticedIsSteadyIff(lib: Lib, o: Oracle, cr: CR, cl: Cluster)
    requires Unnoticed(lib, o, cr, cl) && Lives(cr) && PatchInstance !in o.fail
    ensures Steady(lib, {}, cr, Pass(lib, o, cr, cl).cl)
       <==> (Body(lib, o, cr, cl).1.position == AtEnd ==> AttachmentsAgree(lib, o, cr, cl))
    ensures Steady(lib, {}, cr, Pass(lib, o, cr, cl).cl)
        ==> Concluded(lib, cr, SteadyStop(lib, cr, Pass(lib, o, cr, cl).cl))
  {
    hide Body, Wakes, AttachmentsAgree, WaitsForTLS, Complete, Departed, Concluded, ConditionsAt, Epilogue, DeploymentObject.IsReady;
    UnnoticedWorks(lib, o, cr, cl);
    PassConcludes(lib, o, cr, cl);
    if Works(cr) {
      hide SteadyStop;
      UnnoticedFinds(lib, o, cr, cl);
      if Body(lib, o, cr, cl).1.position == AtTLS {
        UnnoticedWaits(lib, o, cr, cl);
      } else if AttachmentsAgree(lib, o, cr, cl) {
        UnnoticedEnds(lib, o, cr, cl);
      } else if Steady(lib, {}, cr, Pass(lib, o, cr, cl).cl) {
        UnnoticedDiffers(lib, o, cr, cl);
        assert false;
      }
    } else {
      DepartedUnchanged(cr, Pass(lib, o, cr, cl).cl, Pass(lib, o, cr, cl).cl);
    }
  }

  lemma SameClusterWakesNobody(cr: CR, cl: Cluster)
    ensures !Wakes(cr, cl, cl)
  {
  }

  /** What the condition is for: a resource that is not steady does not sit through a calm pass. */
  lemma UnsteadyIsNotQuiet(lib: Lib, o: Oracle, cr: CR, cl: Cluster)
    requires Lives(cr) && !Steady(lib, {}, cr, cl) && Calm(o)
    ensures !IsQuiet(lib, o, cr, cl) || Pass(lib, o, cr, cl).ctl != Done
  {
    hide Pass, Body, Steady, Annotations, Wakes;
    if IsQuiet(lib, o, cr, cl) && Pass(lib, o, cr, cl).ctl == Done {
      SameClusterWakesNobody(cr, cl);
      UnnoticedIsSteadyIff(lib, o, cr, cl);
      assert false;
    }
  }

  // ---------- nothing to do ----------

  /**
    A calm pass leaves the cluster alone and stores the resource as it is, but for the transition time
    of a Ready that is not True, and for conditions that `Init` does not keep.
    */
  ghost predicate NothingToDo(lib: Lib, cr: CR, cl: Cluster) {
    forall o | Calm(o) ::
      var out := Pass(lib, o, cr, cl);
      && out.ctl == Done && out.cl == cl && SameButConditions(cr, out.cr)
      && (forall t | Rank(t) < STAGES :: Get(out.cr.status.conditions, t) == Get(cr.status.conditions, t))
      && (KeepsStray(o, cr, SteadyStop(lib, cr, cl)) ==>
          out.cr.status.conditions == Remirrored(cr.status.conditions, o.now))
  }

  lemma StageRepeats(lib: Lib, o1: Oracle, o2: Oracle, cr: CR, stop: Stop, saved: Conditions, t: Type)
    requires Rank(t) < STAGES
    requires cr.status.conditions == Epilogue(lib, o1, ConditionsAt(o1, cr, stop), saved)
    ensures Get(Report(lib, o2, cr, stop, cr.status.conditions).status.conditions, t) == Get(cr.status.conditions, t)
  {
    hide ConditionsAt, Expected, Epilogue;
    StageAt(o1, cr, stop, t);
    StageAt(o2, cr, stop, t);
    EpilogueAt(lib, o1, ConditionsAt(o1, cr, stop), saved, t);
    EpilogueAt(lib, o2, ConditionsAt(o2, cr, stop), cr.status.conditions, t);
  }

  lemma SettledHasNothingToDo(lib: Lib, cr: CR, cl: Cluster)
    requires Settled(lib, cr, cl)
    ensures NothingToDo(lib, cr, cl)
  {
    hide Body, Steady, Epilogue, ConditionsAt, SteadyStop, KeepsStray;
    var stop := SteadyStop(lib, cr, cl);
    var o1, saved := ConcludedBy(lib, cr, stop);
    SteadyStopIsDone(lib, cr, cl);
    forall o | Calm(o)
      ensures var out := Pass(lib, o, cr, cl);
        && out.ctl == Done && out.cl == cl && SameButConditions(cr, out.cr)
        && (forall t | Rank(t) < STAGES :: Get(out.cr.status.conditions, t) == Get(cr.status.conditions, t))
        && (KeepsStray(o, cr, stop) ==> out.cr.status.conditions == Remirrored(cr.status.conditions, o.now))
    {
      SteadyIsKept(lib, o, cr, cl);
      forall t | Rank(t) < STAGES
        ensures Get(Pass(lib, o, cr, cl).cr.status.conditions, t) == Get(cr.status.conditions, t)
      {
        StageRepeats(lib, o1, o, cr, stop, saved, t);
      }
      if KeepsStray(o, cr, stop) {
        SameConditions(lib, o1, o, cr, stop, saved);
      }
    }
  }

  // ---------- the loop that triggers itself ----------

  /** A pass reads no Horizon resource but its own. */
  lemma HorizonsAreNotRead(lib: Lib, cr: CR, a: Cluster, b: Cluster)
    requires b == a.(horizons := b.horizons)
    ensures Complete(lib, {}, cr, a) ==> Complete(lib, {}, cr, b)
    ensures Steady(lib, {}, cr, a) ==> Steady(lib, {}, cr, b)
    ensures SteadyStop(lib, cr, b) == SteadyStop(lib, cr, a)
  {
    hide AllVars, MemcachedOf, ConfigText, DesiredSpec, Verification, OpenStackVars, TLSMissing, TLSMissingDetail;
    SourcesDecide(lib, cr, a, cr, b);
    SamePods(lib, cr, a, b);
    if Complete(lib, {}, cr, a) {
      InputsThere(lib, cr, a);
      SameTopology(cr, a, b);
      SameDescription(lib, {}, cr, cr, a, b, StoredHash(cr).GetOr(""), MemcachedOf(cr, a).value);
    }
  }

  lemma SameTopology(cr: CR, a: Cluster, b: Cluster)
    requires a.topologies == b.topologies
    ensures TopologySpec(cr, a) == TopologySpec(cr, b)
  {
  }

  /** What has settled stays settled under calm passes, whatever they make of its conditions. */
  lemma SettledStaysSettled(lib: Lib, o: Oracle, cr: CR, cl: Cluster)
    requires Settled(lib, cr, cl) && Calm(o)
    ensures var out := Pass(lib, o, cr, cl);
      Settled(lib, out.cr, cl) && out.cl == cl && out.ctl == Done && SteadyStop(lib, out.cr, cl) == SteadyStop(lib, cr, cl)
  {
    hide Body, ConditionsAt, Epilogue, SteadyStop, Complete, WaitsForTLS, Departed, Concluded;
    var out := Pass(lib, o, cr, cl);
    SteadyIsKept(lib, o, cr, cl);
    SteadyStopIsDone(lib, cr, cl);
    PassConcludes(lib, o, cr, cl);
    ReportIsNotEmpty(lib, o, cr, SteadyStop(lib, cr, cl), cr.status.conditions);
    CompleteIgnoresConditions(lib, cr, out.cr, cl);
    if Departed(cr, cl) {
      StillDeparted(cr, out.cr, cl);
    }
  }

  lemma SettledAnywhere(lib: Lib, cr: CR, a: Cluster, b: Cluster)
    requires b == a.(horizons := b.horizons) && Settled(lib, cr, a)
    ensures Settled(lib, cr, b)
  {
    hide Steady, SteadyStop, Concluded;
    HorizonsAreNotRead(lib, cr, a, b);
  }

  /** A calm pass puts its own settled resource back on the queue exactly if it is not quiet. */
  lemma ComesBackIff(lib: Lib, s: System, k: Key, o: Oracle)
    requires WellFormed(s.cl) && k in s.cl.horizons && Lives(s.cl.horizons[k])
    requires Settled(lib, s.cl.horizons[k], s.cl) && Calm(o)
    ensures var s', cr := Successor(lib, s, Reconciled(k, o)), s.cl.horizons[k];
      && k in s'.cl.horizons && s'.cl.horizons[k] == Pass(lib, o, cr, s.cl).cr
      && s'.cl == s.cl.(horizons := s'.cl.horizons) && Settled(lib, s'.cl.horizons[k], s'.cl)
      && SteadyStop(lib, s'.cl.horizons[k], s'.cl) == SteadyStop(lib, cr, s.cl)
      && (k in s'.queue <==> !IsQuiet(lib, o, cr, s.cl)) && k !in s'.delayed
  {
    hide Pass, Settled, Ledger, SteadyStop, Wakes;
    var cr, s' := s.cl.horizons[k], Successor(lib, s, Reconciled(k, o));
    PassFrame(lib, o, cr, s.cl);
    SettledStaysSettled(lib, o, cr, s.cl);
    var out := Pass(lib, o, cr, s.cl);
    StaysAlive(lib, o, cr, s.cl);
    assert s'.cl == s.cl.(horizons := s.cl.horizons[k := out.cr]);
    SettledAnywhere(lib, out.cr, s.cl, s'.cl);
    HorizonsAreNotRead(lib, out.cr, s.cl, s'.cl);
    OnlyItself(out.cr, s.cl, s'.cl);
  }

  lemma OnlyItself(cr: CR, a: Cluster, b: Cluster)
    requires b == a.(horizons := b.horizons)
    ensures Wakes(cr, a, b) <==> Get(a.horizons, cr.key) != Get(b.horizons, cr.key)
  {
  }

  /** A calm pass takes the last finalizer from no settled resource. */
  lemma StaysAlive(lib: Lib, o: Oracle, cr: CR, cl: Cluster)
    requires Settled(lib, cr, cl) && Calm(o) && Lives(cr)
    ensures Lives(Pass(lib, o, cr, cl).cr)
  {
    hide Body, Steady, SteadyStop, Concluded, ConditionsAt, Epilogue;
    SteadyIsKept(lib, o, cr, cl);
  }

  /** A calm pass of the resource that `Init` disturbs nothing in, at another time than the last. */
  ghost predicate Ticks(lib: Lib, s: System, e: Event, k: Key)
    requires k in s.cl.horizons
  {
    var cr := s.cl.horizons[k];
    && e.Reconciled? && e.key == k && Calm(e.o) && KeepsStray(e.o, cr, SteadyStop(lib, cr, s.cl))
    && (Ready in cr.status.conditions ==> cr.status.conditions[Ready].time != e.o.now)
  }

  /**
    The loop without end: a settled resource that is not Ready is put back on the queue by every one of
    its own passes, for as long as the clock goes on between them and nobody else intervenes.
    */
  lemma {:induction false} MirrorNeverRests(lib: Lib, states: seq<System>, events: seq<Event>, i: nat, k: Key)
    requires IsRun(lib, states, events) && i < |states|
    requires WellFormed(states[0].cl) && k in states[0].cl.horizons && Lives(states[0].cl.horizons[k])
    requires Settled(lib, states[0].cl.horizons[k], states[0].cl)
    requires !Is(states[0].cl.horizons[k].status.conditions, Ready, IsTrue)
    requires forall j | 0 <= j < i :: k in states[j].cl.horizons ==> Ticks(lib, states[j], events[j], k)
    ensures WellFormed(states[i].cl) && k in states[i].cl.horizons && Lives(states[i].cl.horizons[k])
    ensures Settled(lib, states[i].cl.horizons[k], states[i].cl)
    ensures !Is(states[i].cl.horizons[k].status.conditions, Ready, IsTrue)
    ensures i > 0 ==> k in states[i].queue
  {
    hide WellFormed, Successor, Possible, Settled, Ticks;
    if i > 0 {
      MirrorNeverRests(lib, states, events, i - 1, k);
      TickComesBack(lib, states[i - 1], events[i - 1], k);
      WellFormedNext(lib, states[i - 1], events[i - 1]);
    }
  }

  lemma TickComesBack(lib: Lib, s: System, e: Event, k: Key)
    requires WellFormed(s.cl) && k in s.cl.horizons && Lives(s.cl.horizons[k]) && Ticks(lib, s, e, k)
    requires Settled(lib, s.cl.horizons[k], s.cl) && !Is(s.cl.horizons[k].status.conditions, Ready, IsTrue)
    ensures var s' := Successor(lib, s, e);
      && k in s'.cl.horizons && Lives(s'.cl.horizons[k]) && Settled(lib, s'.cl.horizons[k], s'.cl)
      && !Is(s'.cl.horizons[k].status.conditions, Ready, IsTrue) && k in s'.queue
  {
    hide Successor, Settled, KeepsStray, SteadyStop, IsQuiet, WellFormed, Pass;
    var cr := s.cl.horizons[k];
    ComesBackIff(lib, s, k, e.o);
    SettledIsQuietIff(lib, e.o, cr, s.cl);
    StaysAlive(lib, e.o, cr, s.cl);
    StaysMirrored(lib, e.o, cr, s.cl);
  }

  lemma StaysMirrored(lib: Lib, o: Oracle, cr: CR, cl: Cluster)
    requires Settled(lib, cr, cl) && Calm(o) && KeepsStray(o, cr, SteadyStop(lib, cr, cl))
    ensures Is(Pass(lib, o, cr, cl).cr.status.conditions, Ready, IsTrue) <==> Is(cr.status.conditions, Ready, IsTrue)
  {
    hide Pass, Settled, KeepsStray, SteadyStop;
    SettledHasNothingToDo(lib, cr, cl);
  }

  // ---------- runs ----------

  /** The resource will be looked at again, or there is nothing to do for it. */
  ghost predicate Attended(lib: Lib, s: System, k: Key) {
    k in s.cl.horizons && k !in s.queue + s.delayed ==> Settled(lib, s.cl.horizons[k], s.cl)
  }

  ghost predicate AllLive(cl: Cluster) {
    forall k | k in cl.horizons :: Lives(cl.horizons[k])
  }

  /** The resource exists after the event, and neither the queue nor a retry will bring it back. */
  ghost predicate Idle(s: System, k: Key) {
    k in s.cl.horizons && k !in s.queue && k !in s.delayed
  }

  /**
    The events that the watches miss: an idle resource was complete and has now lost its Horizon
    secret or the network of its pods, or its own pass ended without knowing its attachments.
    */
  ghost predicate Misses(lib: Lib, s: System, e: Event, k: Key) {
    && Idle(Successor(lib, s, e), k)
    && match e
       case Environment(cl) => !Spares(lib, cl.horizons[k], s.cl, cl)
       case Reconciled(key, o) =>
         && k == key && k in s.cl.horizons
         && Body(lib, o, s.cl.horizons[k], s.cl).1.position == AtEnd
         && !AttachmentsAgree(lib, o, s.cl.horizons[k], s.cl)
  }

  lemma AllLiveNext(lib: Lib, s: System, e: Event)
    requires WellFormed(s.cl) && AllLive(s.cl) && Possible(s, e)
    ensures AllLive(Successor(lib, s, e).cl)
  {
    hide Woken, Ledger, Pass, TopologiesStep;
    if e.Reconciled? && e.key in s.cl.horizons {
      PassFrame(lib, e.o, s.cl.horizons[e.key], s.cl);
    }
  }

  lemma PassKeepsValidSecrets(lib: Lib, o: Oracle, cr: CR, cl: Cluster, ns: string)
    requires HasValidSecret(cl.secrets, ns)
    ensures HasValidSecret(Pass(lib, o, cr, cl).cl.secrets, ns)
  {
    hide Pass;
    SecretIsStable(lib, o, cr, cl);
  }

  lemma SettledUnlessWoken(lib: Lib, cr: CR, a: Cluster, b: Cluster)
    requires Settled(lib, cr, a) && Admitted(cr.key, cr.spec)
    requires !Wakes(cr, a, b) && SameHolds(cr, a, b)
    ensures Settled(lib, cr, b) <==> Spares(lib, cr, a, b)
  {
    hide Steady, SteadyStop, Wakes, Concluded, SameHolds, Spares;
    SteadyUnlessWokenIff(lib, cr, a, b);
  }

  /** A pass over one resource leaves the others attended. */
  lemma OthersAttended(lib: Lib, s: System, key: Key, o: Oracle, k: Key)
    requires WellFormed(s.cl) && Attended(lib, s, k) && k != key
    ensures Attended(lib, Successor(lib, s, Reconciled(key, o)), k)
  {
    hide Pass, SecretEvent, OwnedEvent, DeploymentEvent, TopologyEvent, UsesMemcached, UsesNAD, UsesKeystoneService;
    hide Settled, Ledger, WellFormed, SameHolds, Spares;
    var s' := Successor(lib, s, Reconciled(key, o));
    OthersStored(lib, o, s, key, k);
    if Idle(s', k) && key in s.cl.horizons && GetInstance !in o.fail {
      var cr := s.cl.horizons[k];
      assert !Wakes(cr, s.cl, s'.cl);
      OthersStay(lib, s, key, o, k);
      SettledUnlessWoken(lib, cr, s.cl, s'.cl);
    }
  }

  lemma OthersStay(lib: Lib, s: System, key: Key, o: Oracle, k: Key)
    requires WellFormed(s.cl) && k != key && key in s.cl.horizons && k in s.cl.horizons
    ensures var s' := Successor(lib, s, Reconciled(key, o));
      Spares(lib, s.cl.horizons[k], s.cl, s'.cl) && SameHolds(s.cl.horizons[k], s.cl, s'.cl)
    ensures s.cl.horizons[k].key == k && Admitted(k, s.cl.horizons[k].spec)
  {
    hide Pass, Woken, Holds, HasValidSecret, Ledger, Verification, RolledOut, Served, Settles;
    var cr := s.cl.horizons[k];
    PassFrame(lib, o, s.cl.horizons[key], s.cl);
    if HasValidSecret(s.cl.secrets, cr.key.ns) {
      PassKeepsValidSecrets(lib, o, s.cl.horizons[key], s.cl, cr.key.ns);
    }
    SamePods(lib, cr, s.cl, Successor(lib, s, Reconciled(key, o)).cl);
    forall t: Key | Some(t) == cr.TopologyRef() || Some(t) == cr.status.lastAppliedTopology
      ensures Holds(s.cl.topologies, t, k) == Holds(Successor(lib, s, Reconciled(key, o)).cl.topologies, t, k)
    {
      OthersHold(lib, o, s, key, k, t);
    }
  }

  lemma SamePods(lib: Lib, cr: CR, a: Cluster, b: Cluster)
    requires a.pods == b.pods
    ensures Verification(lib, cr, a) == Verification(lib, cr, b)
  {
  }

  /** A pass leaves its own resource settled, or due again, or notices its own change; or it misses something. */
  lemma OwnAttended(lib: Lib, s: System, key: Key, o: Oracle)
    requires WellFormed(s.cl) && AllLive(s.cl)
    ensures Attended(lib, Successor(lib, s, Reconciled(key, o)), key) <==> !Misses(lib, s, Reconciled(key, o), key)
  {
    hide Pass, Wakes, Steady, SteadyStop, Concluded, AttachmentsAgree, Ledger, Body;
    var s' := Successor(lib, s, Reconciled(key, o));
    if Idle(s', key) {
      var cr := s.cl.horizons[key];
      LostPatchFails(lib, o, cr, s.cl);
      PassFrame(lib, o, cr, s.cl);
      StoredAsIs(lib, s, key, o);
      UnnoticedIsSteadyIff(lib, o, cr, s.cl);
    }
  }

  lemma LostPatchFails(lib: Lib, o: Oracle, cr: CR, cl: Cluster)
    ensures PatchInstance in o.fail ==> Pass(lib, o, cr, cl).ctl.Failed?
  {
  }

  lemma StoredAsIs(lib: Lib, s: System, key: Key, o: Oracle)
    requires WellFormed(s.cl) && key in s.cl.horizons && Idle(Successor(lib, s, Reconciled(key, o)), key)
    ensures GetInstance !in o.fail && Unnoticed(lib, o, s.cl.horizons[key], s.cl)
    ensures Successor(lib, s, Reconciled(key, o)).cl == Pass(lib, o, s.cl.horizons[key], s.cl).cl
  {
    hide Pass, Ledger, SecretEvent, OwnedEvent, DeploymentEvent, TopologyEvent, UsesMemcached, UsesNAD, UsesKeystoneService;
    var cr := s.cl.horizons[key];
    PassFrame(lib, o, cr, s.cl);
    var out, s' := Pass(lib, o, cr, s.cl), Successor(lib, s, Reconciled(key, o));
    assert !Wakes(s'.cl.horizons[key], s.cl, s'.cl);
    assert s.cl.horizons[key := cr] == s.cl.horizons;
  }

  lemma EnvironmentAttended(lib: Lib, s: System, cl: Cluster, k: Key)
    requires WellFormed(s.cl) && Attended(lib, s, k) && EnvironmentStep(s.cl, cl)
    ensures Attended(lib, Successor(lib, s, Environment(cl)), k) <==> !Misses(lib, s, Environment(cl), k)
  {
    hide Settled, Spares, SecretEvent, OwnedEvent, DeploymentEvent, TopologyEvent;
    hide UsesMemcached, UsesNAD, UsesKeystoneService, TopologiesStep, SameHolds;
    var s' := Successor(lib, s, Environment(cl));
    if Idle(s', k) {
      var cr := cl.horizons[k];
      assert !Wakes(cr, s.cl, cl);
      assert Get(s.cl.horizons, k) == Get(cl.horizons, k);
      EnvironmentHolds(cr, s.cl, cl);
      SettledUnlessWoken(lib, cr, s.cl, cl);
    }
  }

  lemma EnvironmentHolds(cr: CR, a: Cluster, b: Cluster)
    requires TopologiesStep(a.topologies, b.topologies)
    ensures SameHolds(cr, a, b)
  {
  }

  /** Exactly when a step of the system loses a wakeup: an attended resource stays attended unless it is missed. */
  lemma AttendedNextIff(lib: Lib, s: System, e: Event, k: Key)
    requires WellFormed(s.cl) && AllLive(s.cl) && Possible(s, e) && Attended(lib, s, k)
    ensures Attended(lib, Successor(lib, s, e), k) <==> !Misses(lib, s, e, k)
  {
    hide WellFormed, AllLive, Attended, Successor, Idle;
    match e
    case Environment(cl) => EnvironmentAttended(lib, s, cl, k);
    case Reconciled(key, o) =>
      if k == key {
        OwnAttended(lib, s, key, o);
      } else {
        OthersAttended(lib, s, key, o, k);
      }
  }

  lemma {:induction false} AttendedOverRuns(lib: Lib, states: seq<System>, events: seq<Event>, i: nat, k: Key)
    requires IsRun(lib, states, events) && i < |states|
    requires forall j | 0 <= j < i :: !Misses(lib, states[j], events[j], k)
    requires WellFormed(states[0].cl) && AllLive(states[0].cl) && Attended(lib, states[0], k)
    ensures WellFormed(states[i].cl) && AllLive(states[i].cl) && Attended(lib, states[i], k)
  {
    hide WellFormed, AllLive, Successor, Possible, Misses, Attended;
    if i > 0 {
      AttendedOverRuns(lib, states, events, i - 1, k);
      WellFormedNext(lib, states[i - 1], events[i - 1]);
      AllLiveNext(lib, states[i - 1], events[i - 1]);
      AttendedNextIff(lib, states[i - 1], events[i - 1], k);
    }
  }

  /**
    No wakeup is lost: along every run, until an event misses it, each resource is on the queue, due
    for a retry, or in a state in which another pass changes nothing but the time of a mirrored Ready.
    */
  lemma NoWakeupIsLost(lib: Lib, states: seq<System>, events: seq<Event>, i: nat, k: Key)
    requires IsRun(lib, states, events) && i < |states|
    requires forall j | 0 <= j < i :: !Misses(lib, states[j], events[j], k)
    requires WellFormed(states[0].cl) && AllLive(states[0].cl) && Attended(lib, states[0], k)
    requires k in states[i].cl.horizons
    ensures k in states[i].queue || k in states[i].delayed || NothingToDo(lib, states[i].cl.horizons[k], states[i].cl)
  {
    hide IsRun, WellFormed, AllLive, Misses, NothingToDo, Settled;
    AttendedOverRuns(lib, states, events, i, k);
    if k !in states[i].queue && k !in states[i].delayed {
      SettledHasNothingToDo(lib, states[i].cl.horizons[k], states[i].cl);
    }
  }

  /** And the first event that misses a resource leaves it idle in a state that is not settled. */
  lemma FirstMissIsLost(lib: Lib, states: seq<System>, events: seq<Event>, i: nat, k: Key)
    requires IsRun(lib, states, events) && i < |events| && Misses(lib, states[i], events[i], k)
    requires forall j | 0 <= j < i :: !Misses(lib, states[j], events[j], k)
    requires WellFormed(states[0].cl) && AllLive(states[0].cl) && Attended(lib, states[0], k)
    ensures Idle(states[i + 1], k) && !Settled(lib, states[i + 1].cl.horizons[k], states[i + 1].cl)
  {
    hide WellFormed, AllLive, Settled, Successor, Possible;
    AttendedOverRuns(lib, states, events, i, k);
    AttendedNextIff(lib, states[i], events[i], k);
  }
}
