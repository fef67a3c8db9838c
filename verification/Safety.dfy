/** Safety of single passes: stages, the hash gate, Ready, the secret key, deletion. */
module Safety {
  import opened Wrappers
  import opened Conditions
  import opened Api
  import opened Clusters
  import opened Passes
  import opened Reading
  import opened Facts
  import Pods

  // ---------- conditions at the end of a pass ----------

  /** The stage at which a pass stopped; 9 when no stage is left. */
  function StopRank(stop: Stop): nat {
    if stop.position == AtEnd && stop.failure.None? then STAGES
    else if Order(stop.position) < STAGES then Order(stop.position)
    else STAGES - 1
  }

  lemma EpilogueKeepsStates(lib: Lib, o: Oracle, cs: Conditions, saved: Conditions, t: Type)
    ensures t in Epilogue(lib, o, cs, saved) <==> t in cs
    ensures t in cs && (t != Ready || cs[t].state != IsUnknown) ==>
      Epilogue(lib, o, cs, saved)[t].state == cs[t].state && Epilogue(lib, o, cs, saved)[t].detail == cs[t].detail
    ensures t in cs && t == Ready && cs[t].state == IsUnknown ==>
      Epilogue(lib, o, cs, saved)[t] == Condition(MirrorState(RestoreLastTransitionTimes(cs, saved)), lib.mirror(RestoreLastTransitionTimes(cs, saved) - {Ready}), o.now)
  {
  }

  /**
    What the deferred end of a pass does to conditions: away from Ready it changes transition times
    only, and takes the saved one exactly when nothing else changed; a decided Ready stays decided; an
    undecided one becomes False with any other condition, and stays Unknown only with one that is.
    */
  lemma EpilogueDecides(lib: Lib, o: Oracle, cs: Conditions, saved: Conditions)
    requires Ready in cs
    ensures var e := Epilogue(lib, o, cs, saved);
      && e.Keys == cs.Keys
      && (forall t | t in cs && t != Ready :: SameState(e[t], cs[t]))
      && (forall t | t in cs && t != Ready ::
          e[t].time == if t in saved && SameState(cs[t], saved[t]) then saved[t].time else cs[t].time)
      && (cs[Ready].state != IsUnknown ==> SameState(e[Ready], cs[Ready]))
      && (cs[Ready].state == IsUnknown ==>
          && (e[Ready].state == IsFalse <==> exists t :: t in cs && t != Ready && cs[t].state == IsFalse)
          && (e[Ready].state == IsTrue <==> forall t | t in cs && t != Ready :: cs[t].state == IsTrue))
  {
    hide MirrorState, RestoreLastTransitionTimes;
    var rs := RestoreLastTransitionTimes(cs, saved);
    RestoringTimes(cs, saved);
    MirrorDecides(rs);
    assert forall t | t in cs :: t in rs && rs[t].state == cs[t].state;
  }

  lemma RestoringTimes(cs: Conditions, saved: Conditions)
    ensures var rs := RestoreLastTransitionTimes(cs, saved);
      && rs.Keys == cs.Keys
      && forall t | t in cs ::
        && SameState(rs[t], cs[t])
        && rs[t].time == if t in saved && SameState(cs[t], saved[t]) then saved[t].time else cs[t].time
  {
  }

  lemma MirrorDecides(cs: Conditions)
    ensures MirrorState(cs) == IsFalse <==> exists t :: t in cs && t != Ready && cs[t].state == IsFalse
    ensures MirrorState(cs) == IsTrue <==> forall t | t in cs && t != Ready :: cs[t].state == IsTrue
  {
  }

  /** The state and detail of a stage at the end of a pass. */
  function Expected(stop: Stop, t: Type): (Truth, Detail) {
    if Rank(t) < StopRank(stop) then (IsTrue, TrueDetail)
    else if stop.failure.Some? && Subject(stop.position) == t then (IsFalse, stop.failure.value)
    else (IsUnknown, InitDetail)
  }

  lemma StageAt(o: Oracle, cr: CR, stop: Stop, t: Type)
    requires Rank(t) < STAGES
    ensures t in ConditionsAt(o, cr, stop)
    ensures ConditionsAt(o, cr, stop)[t] == Condition(Expected(stop, t).0, Expected(stop, t).1, o.now)
    ensures Rank(t) > StopRank(stop) ==> Expected(stop, t) == (IsUnknown, InitDetail)
  {
    hide ConditionsDuring, Init, AllSubConditionIsTrue;
    LookupDuring(o, cr, stop.position, t);
  }

  /** The nine stages speak of the place where a pass stopped. */
  ghost predicate Reported(cs: Conditions, stop: Stop) {
    forall t | Rank(t) < STAGES :: t in cs && (cs[t].state, cs[t].detail) == Expected(stop, t)
  }

  lemma PassReports(lib: Lib, o: Oracle, cr: CR, cl: Cluster)
    requires PatchInstance !in o.fail
    ensures Reported(Pass(lib, o, cr, cl).cr.status.conditions, Body(lib, o, cr, cl).1)
  {
    hide Body, ConditionsAt, Epilogue, Expected;
    var (w, stop) := Body(lib, o, cr, cl);
    forall t | Rank(t) < STAGES
      ensures var cs := Pass(lib, o, cr, cl).cr.status.conditions;
        t in cs && (cs[t].state, cs[t].detail) == Expected(stop, t)
    {
      StageAt(o, w.cr, stop, t);
      EpilogueKeepsStates(lib, o, ConditionsAt(o, w.cr, stop), cr.status.conditions, t);
    }
  }

  /**
    At the end of every pass one stage separates the True stages from the Unknown ones, and a stage
    is False only if it is the one that stopped the pass.
    */
  lemma StagePrefix(lib: Lib, o: Oracle, cr: CR, cl: Cluster)
    requires PatchInstance !in o.fail
    ensures var cs, stop := Pass(lib, o, cr, cl).cr.status.conditions, Body(lib, o, cr, cl).1;
      && StoppedAt(cs, StopRank(stop))
      && (forall t | Rank(t) < STAGES && cs[t].state == IsFalse :: stop.failure.Some? && t == Subject(stop.position))
  {
    hide Pass, Body;
    PassReports(lib, o, cr, cl);
    var cs, stop := Pass(lib, o, cr, cl).cr.status.conditions, Body(lib, o, cr, cl).1;
    forall t | Rank(t) < STAGES && Rank(t) > StopRank(stop)
      ensures Expected(stop, t) == (IsUnknown, InitDetail)
    {
    }
  }

  // ---------- the hash gate ----------

  /** Recording the observed generation changes nothing that is read. */
  lemma StartReads(lib: Lib, cr: CR, cl: Cluster)
    ensures var w := Start(cr, cl);
      && AllVars(lib, w.cr, w.cl) == AllVars(lib, cr, cl)
      && MemcachedOf(w.cr, w.cl) == MemcachedOf(cr, cl)
      && w.cr.key == cr.key && w.cr.spec == cr.spec && StoredHash(w.cr) == StoredHash(cr)
      && w.cr.TopologyRef() == cr.TopologyRef()
      && w.cr.status.lastAppliedTopology == cr.status.lastAppliedTopology
  {
    SourcesDecide(lib, Start(cr, cl).cr, cl, cr, cl);
    hide AllVars, MemcachedOf;
  }

  predicate NoDeployment(trace: seq<Action>) {
    forall a | a in trace :: !a.WroteDeployment?
  }

  /**
    A Deployment is written only by a pass that found the hash of the inputs it reads already
    stored in the status it started from; the pods carry that very hash.
    */
  lemma GateIsDurable(lib: Lib, o: Oracle, cr: CR, cl: Cluster, a: Action)
    requires a in Pass(lib, o, cr, cl).trace && a.WroteDeployment?
    ensures Works(cr) && AllVars(lib, cr, cl).Some?
    ensures StoredHash(cr) == Some(HashRead(lib, o, cr, cl))
    ensures "CONFIG_HASH" in a.spec.horizonContainer.env
    ensures StoredHash(cr) == Some(a.spec.horizonContainer.env["CONFIG_HASH"])
  {
    hide Normal, Prepare, Continues, Delete, Report, AllVars, RbacInPlace, ConfigInPlace, ConfigText;
    hide MemcachedOf, SecretsAfter;
    hide TraceAfter;
    var w := Start(cr, cl);
    StartReads(lib, cr, cl);
    GateWritesNone(o, w);
    if StopsEarly(cr) {
    } else if cr.deleting {
      DeleteTrace(o, w);
    } else {
      NormalMeaning(lib, o, w);
      GateMeaning(lib, o, w);
      var p := Prepare(lib, o, w);
      assert a in Normal(lib, o, w).0.trace;
      if p.Next? {
        OnlyWrite(lib, o, p.value.0, p.value.2, Normal(lib, o, w).0, Normal(lib, o, w).1, a);
      }
    }
  }

  lemma GateWritesNone(o: Oracle, w: World)
    ensures NoDeployment(w.trace) ==> NoDeployment(TraceAfter(o, w))
  {
  }

  lemma DeleteTrace(o: Oracle, w: World)
    ensures NoDeployment(w.trace) ==> NoDeployment(Delete(o, w).0.trace)
  {
  }

  lemma OnlyWrite(lib: Lib, o: Oracle, g: World, m: MemcachedObject, w: World, stop: Stop, a: Action)
    requires NoDeployment(g.trace) && Continues(lib, o, g, m, w, stop)
    requires a in w.trace && a.WroteDeployment?
    ensures Order(stop.position) >= 11 && a == WroteDeployment(WrittenSpec(lib, o, g, m))
    ensures "CONFIG_HASH" in a.spec.horizonContainer.env
    ensures a.spec.horizonContainer.env["CONFIG_HASH"] == StoredHash(g.cr).GetOr("")
  {
    hide DesiredSpec, GateDeployment, Deployed, ClusterDeployed, Checked, Verification, FindNADs;
    assert NoDeployment(TopologyCalls(g.cr));
    assert NoDeployment(g.trace + TopologyCalls(g.cr));
    assert a == WroteDeployment(WrittenSpec(lib, o, g, m));
    HashInSpec(lib, o.fail, g.cr, g.cl, StoredHash(g.cr).GetOr(""), m);
  }

  lemma HashInSpec(lib: Lib, fail: set<Call>, cr: CR, cl: Cluster, hash: string, m: MemcachedObject)
    ensures var env := DesiredSpec(lib, fail, cr, cl, hash, m).horizonContainer.env;
      "CONFIG_HASH" in env && env["CONFIG_HASH"] == hash
  {
    hide FindNADs, Pods.PodVolumes, Pods.PodMounts;
  }

  // ---------- Ready ----------

  /** A pass that ends with Ready True has reached its end with its Deployment found ready. */
  lemma ReadyMeansEnd(lib: Lib, o: Oracle, cr: CR, cl: Cluster)
    requires PatchInstance !in o.fail
    requires Is(Pass(lib, o, cr, cl).cr.status.conditions, Ready, IsTrue)
    ensures var stop := Body(lib, o, cr, cl).1; stop.position == AtEnd && stop.failure.None?
    ensures forall t | t in Pass(lib, o, cr, cl).cr.status.conditions ::
      Pass(lib, o, cr, cl).cr.status.conditions[t].state == IsTrue
  {
    hide Body, ConditionsDuring, Init, RestoreLastTransitionTimes;
    var (w, stop) := Body(lib, o, cr, cl);
    var cs := ConditionsAt(o, w.cr, stop);
    EpilogueKeepsStates(lib, o, cs, cr.status.conditions, Ready);
    LookupDuring(o, w.cr, stop.position, Ready);
    if cs[Ready].state == IsUnknown {
      MirrorsNoTruth(o, w.cr, stop, cr.status.conditions);
    } else {
      forall t | t in cs
        ensures cs[t].state == IsTrue
      {
      }
      forall t | t in Epilogue(lib, o, cs, cr.status.conditions) {
        EpilogueKeepsStates(lib, o, cs, cr.status.conditions, t);
      }
    }
  }

  /** Short of the end some stage is not True, so Mirror cannot make Ready True. */
  lemma MirrorsNoTruth(o: Oracle, cr: CR, stop: Stop, saved: Conditions)
    requires Is(ConditionsAt(o, cr, stop), Ready, IsUnknown)
    ensures MirrorState(RestoreLastTransitionTimes(ConditionsAt(o, cr, stop), saved)) != IsTrue
  {
    hide ConditionsDuring, Init;
    var cs := ConditionsAt(o, cr, stop);
    var rs := RestoreLastTransitionTimes(cs, saved);
    assert forall t | t in cs :: t in rs && rs[t].state == cs[t].state;
    if StopRank(stop) == STAGES {
      var t :| t in cs && t != Ready && cs[t].state != IsTrue;
      assert rs[t].state != IsTrue;
    } else {
      var t := StageOf(StopRank(stop));
      StageAt(o, cr, stop, t);
      assert rs[t].state != IsTrue;
    }
  }

  function StageOf(k: nat): (t: Type)
    requires k < STAGES
    ensures Rank(t) == k
  {
    match k
    case 0 => ServiceAccount
    case 1 => Role
    case 2 => RoleBinding
    case 3 => Input
    case 4 => Memcached
    case 5 => TLSInput
    case 6 => ServiceConfig
    case 7 => CreateService
    case _ => Deployment
  }

  /**
    Ready is True only after a pass that went all the way: over a live resource that already had its
    finalizer, for the generation it read, with the Deployment written under the stored input hash and
    observed to run as many ready replicas as are asked for, and no others, the referenced topology recorded, and with replicas the network verified
    behind that write.
    */
  lemma ReadyIsHonest(lib: Lib, o: Oracle, cr: CR, cl: Cluster)
    requires PatchInstance !in o.fail
    requires Is(Pass(lib, o, cr, cl).cr.status.conditions, Ready, IsTrue)
    ensures var out := Pass(lib, o, cr, cl);
      var k := Key(cr.key.ns, "horizon");
      && !cr.deleting && cr.finalizer && out.cr.finalizer && out.ctl == Done
      && out.cr.status.observedGeneration == cr.generation
      && out.cr.status.lastAppliedTopology == cr.TopologyRef()
      && AllVars(lib, cr, cl).Some? && StoredHash(cr) == Some(HashRead(lib, o, cr, cl))
      && StoredHash(out.cr) == StoredHash(cr)
      && k in out.cl.deployments
      && out.cl.deployments[k].generation == out.cl.deployments[k].observedGeneration
      && out.cl.deployments[k].replicas == out.cl.deployments[k].readyReplicas == cr.spec.replicas
      && out.cl.deployments[k].owner == Some(cr.key)
      && Written(out.trace, out.cl.deployments[k].spec, cr.spec.replicas)
      && (forall t | t in out.cr.status.conditions :: out.cr.status.conditions[t].state == IsTrue)
  {
    hide Normal, Prepare, Continues, Delete, ConditionsAt, Epilogue;
    ReadyMeansEnd(lib, o, cr, cl);
    var w := Start(cr, cl);
    if StopsEarly(cr) {
    } else if cr.deleting {
      DeleteStops(o, w);
    } else {
      NormalMeaning(lib, o, w);
      GateMeaning(lib, o, w);
      StartReads(lib, cr, cl);
      var p := Prepare(lib, o, w);
      EndOfRollout(lib, o, p.value.0, p.value.2, Normal(lib, o, w).0, Normal(lib, o, w).1);
    }
  }

  /** The trace ends with the write of `spec` and, with replicas, a positive verification behind it. */
  ghost predicate Written(trace: seq<Action>, spec: Pods.DeploymentSpec, replicas: nat) {
    var tail := if replicas == 0 then [WroteDeployment(spec)] else [WroteDeployment(spec), Verified(true)];
    |tail| <= |trace| && trace[|trace| - |tail|..] == tail
  }

  lemma DeleteStops(o: Oracle, w: World)
    ensures Delete(o, w).1.position == AtStart && Delete(o, w).1.failure.None?
  {
  }

  lemma AsksFor(lib: Lib, fail: set<Call>, cr: CR, cl: Cluster, hash: string, m: MemcachedObject)
    ensures DesiredSpec(lib, fail, cr, cl, hash, m).replicas == cr.spec.replicas
  {
    hide FindNADs, Pods.PodVolumes, Pods.PodMounts, Pods.EnvVars;
  }

  lemma EndOfRollout(lib: Lib, o: Oracle, g: World, m: MemcachedObject, w: World, stop: Stop)
    requires Continues(lib, o, g, m, w, stop) && stop.position == AtEnd && stop.failure.None?
    ensures stop.ctl == Done
    ensures w.cr.status.lastAppliedTopology == g.cr.TopologyRef()
    ensures StoredHash(w.cr) == StoredHash(g.cr) && w.cr.finalizer == g.cr.finalizer
    ensures w.cr.status.observedGeneration == g.cr.status.observedGeneration
    ensures var k := Key(g.cr.key.ns, "horizon");
      && k in w.cl.deployments && w.cl.deployments[k].generation == w.cl.deployments[k].observedGeneration
      && w.cl.deployments[k].replicas == w.cl.deployments[k].readyReplicas == g.cr.spec.replicas && w.cl.deployments[k].owner == Some(g.cr.key)
      && Written(w.trace, w.cl.deployments[k].spec, g.cr.spec.replicas)
  {
    hide DesiredSpec, Verification, ClusterPlaced, TopologyCalls;
    var d := GateDeployment(lib, o, g, m);
    assert w.cl.deployments[DeploymentKey(g.cr.key.ns)] == d;
    assert d.spec == WrittenSpec(lib, o, g, m);
    AsksFor(lib, o.fail, g.cr, g.cl, StoredHash(g.cr).GetOr(""), m);
  }

  // ---------- the secret key ----------

  lemma RolloutKeepsSecrets(lib: Lib, o: Oracle, g: World, m: MemcachedObject, w: World, stop: Stop)
    requires Continues(lib, o, g, m, w, stop)
    ensures w.cl.secrets == g.cl.secrets && w.cl.horizons == g.cl.horizons && w.cl.pods == g.cl.pods
    ensures w.cl.memcacheds == g.cl.memcacheds && w.cl.keystones == g.cl.keystones
    ensures w.cl.keystoneServices == g.cl.keystoneServices && w.cl.nads == g.cl.nads
    ensures forall a | a in w.trace && a.WroteSecret? :: a in g.trace
  {
    hide DesiredSpec, Verification, GateDeployment, Deployed, Checked;
    assert forall a | a in TopologyCalls(g.cr) :: !a.WroteSecret?;
  }

  /** The pass got as far as comparing the input hash. */
  predicate ReachedGate(lib: Lib, o: Oracle, cr: CR, cl: Cluster) {
    Works(cr) && BeforeGate(lib, o, Start(cr, cl)).Next?
  }

  lemma NormalSecrets(lib: Lib, o: Oracle, w: World)
    ensures var w' := Normal(lib, o, w).0;
      if BeforeGate(lib, o, w).Next? then
        w'.cl.secrets == SecretsAfter(o, w.cr, w.cl) && forall a | a in w'.trace && a.WroteSecret? :: a in TraceAfter(o, w)
      else
        w'.cl.secrets == w.cl.secrets && forall a | a in w'.trace && a.WroteSecret? :: a in w.trace
  {
    hide Normal, BeforeGate, Continues, SecretsAfter, TraceAfter;
    NormalMeaning(lib, o, w);
    GateKeepsSecrets(lib, o, w);
    var p := Prepare(lib, o, w);
    if p.Next? {
      RolloutKeepsSecrets(lib, o, p.value.0, p.value.2, Normal(lib, o, w).0, Normal(lib, o, w).1);
    }
  }

  /**
    A valid Horizon secret survives every pass; an invalid one is replaced by the time a pass
    compares the input hash; and no pass touches any other secret.
    */
  lemma SecretIsStable(lib: Lib, o: Oracle, cr: CR, cl: Cluster)
    ensures var out := Pass(lib, o, cr, cl);
      && (HasValidSecret(cl.secrets, cr.key.ns) ==>
          out.cl.secrets == cl.secrets && forall a | a in out.trace :: !a.WroteSecret?)
      && (ReachedGate(lib, o, cr, cl) ==> HasValidSecret(out.cl.secrets, cr.key.ns))
      && (out.cl.secrets == cl.secrets || out.cl.secrets == SecretsAfter(o, cr, cl))
  {
    hide Normal, Delete, BeforeGate, Report, SecretsAfter, HasValidSecret, TraceAfter;
    NewSecretIsValid(o, cr, cl);
    DeleteSecrets(o, Start(cr, cl));
    if Works(cr) {
      NormalSecrets(lib, o, Start(cr, cl));
    }
  }

  lemma DeleteSecrets(o: Oracle, w: World)
    ensures Delete(o, w).0.cl.secrets == w.cl.secrets
    ensures forall a | a in Delete(o, w).0.trace :: a in w.trace || a.Released?
  {
    hide Without;
  }

  lemma NewSecretIsValid(o: Oracle, cr: CR, cl: Cluster)
    ensures HasValidSecret(SecretsAfter(o, cr, cl), cr.key.ns)
    ensures HasValidSecret(cl.secrets, cr.key.ns) ==>
      SecretsAfter(o, cr, cl) == cl.secrets && TraceAfter(o, Start(cr, cl)) == []
    ensures SecretsAfter(o, Start(cr, cl).cr, cl) == SecretsAfter(o, cr, cl)
  {
  }

  lemma GateKeepsSecrets(lib: Lib, o: Oracle, w: World)
    ensures var p := Prepare(lib, o, w);
      var w' := if p.Next? then p.value.0 else p.world;
      && (BeforeGate(lib, o, w).Next? ==> w'.cl.secrets == SecretsAfter(o, w.cr, w.cl) && w'.trace == TraceAfter(o, w))
      && (BeforeGate(lib, o, w).Halt? ==> w'.cl.secrets == w.cl.secrets && w'.trace == w.trace)
  {
    hide BeforeGate, AllVars, ConfigText, RbacInPlace, ConfigInPlace, HashedVars;
    ReachingTheGate(lib, o, w);
  }

  // ---------- deletion ----------

  /** No pass gives a resource in deletion a finalizer, or calls it Ready. */
  lemma DeletionIsSafe(lib: Lib, o: Oracle, cr: CR, cl: Cluster)
    requires cr.deleting
    ensures var out := Pass(lib, o, cr, cl);
      && (out.cr.finalizer ==> cr.finalizer)
      && (PatchInstance !in o.fail ==> !Is(out.cr.status.conditions, Ready, IsTrue))
  {
    hide ConditionsAt, Epilogue;
    if PatchInstance !in o.fail && Is(Pass(lib, o, cr, cl).cr.status.conditions, Ready, IsTrue) {
      ReadyMeansEnd(lib, o, cr, cl);
      DeleteStops(o, Start(cr, cl));
      assert false;
    }
  }

  /** The finalizer goes only in deletion, and only once the last applied topology was released. */
  lemma ReleaseComesFirst(lib: Lib, o: Oracle, cr: CR, cl: Cluster)
    requires cr.finalizer && !Pass(lib, o, cr, cl).cr.finalizer
    ensures cr.deleting && PatchInstance !in o.fail
    ensures var out := Pass(lib, o, cr, cl);
      match cr.status.lastAppliedTopology
      case None => true
      case Some(t) =>
        && Released(t) in out.trace
        && (t in out.cl.topologies ==> TopologyFinalizer(cr.key) !in out.cl.topologies[t].finalizers)
  {
    hide Normal, Continues, ConditionsAt, Epilogue, Prepare;
    var w := Start(cr, cl);
    if Works(cr) {
      NormalOnTheSame(lib, o, w);
    }
  }

  /** What no pass over a live resource changes of it. */
  predicate SameIdentity(a: CR, b: CR) {
    && a.key == b.key && a.generation == b.generation && a.deleting == b.deleting
    && a.keptByOthers == b.keptByOthers
    && a.finalizer == b.finalizer && a.spec == b.spec
    && a.status.observedGeneration == b.status.observedGeneration
    && a.status.conditions == b.status.conditions
  }

  lemma UnfinishedOnTheSame(lib: Lib, g: World, w: World)
    requires Unfinished(lib, g, w)
    ensures SameIdentity(g.cr, w.cr)
  {
    hide TopologiesHeld, TopologiesLeft, TopologyCalls, TopologyUsable;
    if w.cr != g.cr {
      var a := w.cr.(status := w.cr.status.(lastAppliedTopology := g.cr.status.lastAppliedTopology));
      assert SameIdentity(w.cr, a) && SameIdentity(a, g.cr);
    }
  }

  lemma RolledOnTheSame(lib: Lib, o: Oracle, g: World, m: MemcachedObject)
    requires lib.apiEndpoint(g.cr.key, g.cr.spec).Some?
    ensures SameIdentity(g.cr, Rolled(lib, o, g, m).cr)
    ensures SameIdentity(g.cr, Checked(lib, Rolled(lib, o, g, m).cr, Rolled(lib, o, g, m).cl))
  {
    hide GateDeployment, ClusterDeployed, TopologyCalls, WrittenSpec, Verification;
  }

  lemma ContinuesOnTheSame(lib: Lib, o: Oracle, g: World, m: MemcachedObject, w: World, stop: Stop)
    requires Continues(lib, o, g, m, w, stop)
    ensures SameIdentity(g.cr, w.cr)
  {
    hide Unfinished, Rolled, Checked, GateDeployment, Verification, TopologyUsable, MayDeploy, SameIdentity;
    if Order(stop.position) <= 10 {
      UnfinishedOnTheSame(lib, g, w);
    } else {
      RolledOnTheSame(lib, o, g, m);
      BehindDeployment(stop.position);
    }
  }

  lemma BehindDeployment(p: Position)
    requires Order(p) > 10
    ensures p == AtNetwork || p == AtEnd
  {
  }

  lemma NormalOnTheSame(lib: Lib, o: Oracle, w: World)
    ensures SameIdentity(w.cr, Normal(lib, o, w).0.cr)
  {
    hide Normal, Prepare, Continues, AllVars, HashRead, ConfigInPlace, RbacInPlace;
    NormalMeaning(lib, o, w);
    GateMeaning(lib, o, w);
    var p := Prepare(lib, o, w);
    if p.Next? {
      ContinuesOnTheSame(lib, o, p.value.0, p.value.2, Normal(lib, o, w).0, Normal(lib, o, w).1);
    }
  }

  /** What belongs to the user or to others is the same in `w`. */
  predicate Framed(cr: CR, cl: Cluster, w: World) {
    && w.cr.key == cr.key && w.cr.spec == cr.spec && w.cr.generation == cr.generation && w.cr.deleting == cr.deleting
    && w.cr.keptByOthers == cr.keptByOthers
    && w.cl == cl.(owned := w.cl.owned, secrets := w.cl.secrets, topologies := w.cl.topologies,
                   deployments := w.cl.deployments)
  }

  lemma BodyFrame(lib: Lib, o: Oracle, cr: CR, cl: Cluster)
    ensures Framed(cr, cl, Body(lib, o, cr, cl).0)
  {
    hide Normal, Delete, Framed;
    var w := Start(cr, cl);
    if StopsEarly(cr) {
      EarlyFrame(lib, o, cr, cl);
    } else if cr.deleting {
      DeleteFrame(o, cr, cl);
    } else {
      NormalOnTheSame(lib, o, w);
      NormalFrame(lib, o, w);
      FramedFromStart(cr, cl, Normal(lib, o, w).0);
    }
  }

  lemma EarlyFrame(lib: Lib, o: Oracle, cr: CR, cl: Cluster)
    requires StopsEarly(cr)
    ensures Framed(cr, cl, Body(lib, o, cr, cl).0)
  {
    hide Normal, Delete;
  }

  lemma DeleteFrame(o: Oracle, cr: CR, cl: Cluster)
    ensures Framed(cr, cl, Delete(o, Start(cr, cl)).0)
  {
    hide Without;
  }

  lemma FramedFromStart(cr: CR, cl: Cluster, w: World)
    requires SameIdentity(Start(cr, cl).cr, w.cr)
    requires w.cl == cl.(owned := w.cl.owned, secrets := w.cl.secrets, topologies := w.cl.topologies,
                         deployments := w.cl.deployments)
    ensures Framed(cr, cl, w)
  {
  }

  lemma PassFrame(lib: Lib, o: Oracle, cr: CR, cl: Cluster)
    ensures var out := Pass(lib, o, cr, cl);
      && out.cr.key == cr.key && out.cr.spec == cr.spec
      && out.cr.generation == cr.generation && out.cr.deleting == cr.deleting
      && out.cr.keptByOthers == cr.keptByOthers
      && out.cl.horizons == cl.horizons && out.cl.memcacheds == cl.memcacheds && out.cl.keystones == cl.keystones
      && out.cl.keystoneServices == cl.keystoneServices && out.cl.nads == cl.nads && out.cl.pods == cl.pods
  {
    hide Body, Epilogue, ConditionsAt;
    BodyFrame(lib, o, cr, cl);
  }

  lemma NormalFrame(lib: Lib, o: Oracle, w: World)
    ensures var w' := Normal(lib, o, w).0;
      w'.cl == w.cl.(owned := w'.cl.owned, secrets := w'.cl.secrets, topologies := w'.cl.topologies,
                     deployments := w'.cl.deployments)
  {
    hide Normal, Prepare, Continues, HashRead, AllVars;
    NormalMeaning(lib, o, w);
    GateMeaning(lib, o, w);
    var p := Prepare(lib, o, w);
    if p.Next? {
      ContinuesFrame(lib, o, p.value.0, p.value.2, Normal(lib, o, w).0, Normal(lib, o, w).1);
    }
  }

  lemma ContinuesFrame(lib: Lib, o: Oracle, g: World, m: MemcachedObject, w: World, stop: Stop)
    requires Continues(lib, o, g, m, w, stop)
    ensures w.cl == g.cl.(owned := w.cl.owned, topologies := w.cl.topologies, deployments := w.cl.deployments)
  {
    hide DesiredSpec, GateDeployment, Verification, TopologiesHeld, TopologiesLeft, TopologyCalls, MayDeploy;
    hide Checked, Deployed;
  }

  /** With successful calls two passes let a resource in deletion go, initialised or not. */
  lemma DeletionMakesProgress(lib: Lib, o1: Oracle, o2: Oracle, cr: CR, cl: Cluster)
    requires cr.deleting && Calm(o1) && Calm(o2)
    ensures var one := Pass(lib, o1, cr, cl);
      !one.cr.finalizer || !Pass(lib, o2, one.cr, one.cl).cr.finalizer
  {
    hide ConditionsAt, Epilogue;
    var one := Pass(lib, o1, cr, cl);
    if IsNew(cr) {
      ReportIsNotEmpty(lib, o1, Body(lib, o1, cr, cl).0.cr, Body(lib, o1, cr, cl).1, cr.status.conditions);
      assert !IsNew(one.cr);
    }
  }

  lemma ReportIsNotEmpty(lib: Lib, o: Oracle, cr: CR, stop: Stop, saved: Conditions)
    ensures !IsNew(Report(lib, o, cr, stop, saved))
  {
    hide ConditionsDuring, Init, ConditionsAt;
    StageAt(o, cr, stop, Input);
    EpilogueKeepsStates(lib, o, ConditionsAt(o, cr, stop), saved, Input);
    assert Input in Epilogue(lib, o, ConditionsAt(o, cr, stop), saved);
  }
}
