/**
  The reconcile loop triggers itself through its own status patch. This module shows when that
  ends: which pass persists exactly what it found.
  */
module Quiet {
  import opened Wrappers
  import opened Conditions
  import opened Api
  import opened Clusters
  import opened Passes
  import opened Reading
  import opened Facts
  import opened Safety
  import opened Steadiness
  import Volumes

  /** The second pass stores what the first one stored. */
  predicate IsQuiet(lib: Lib, o: Oracle, cr: CR, cl: Cluster) {
    var out := Pass(lib, o, cr, cl);
    out.cr == cr && out.cl == cl
  }

  const EndStop := Stop(AtEnd, None, Done)

  // ---------- conditions at the end of a pass ----------

  predicate Truthful(cs: Conditions) {
    forall t | t in cs :: t == Ready || cs[t].state == IsTrue
  }

  lemma LookupAt(o: Oracle, cr: CR, stop: Stop, t: Type)
    requires t != Ready
    ensures var cs := ConditionsAt(o, cr, stop);
      var marked := IsPassed(cr, stop.position, t) || (stop.position == AtEnd && t == Deployment);
      && (t in cs <==> marked || Listed(t) || t in o.stray || (stop.failure.Some? && t == Subject(stop.position)))
      && (t in cs ==>
          (cs[t] == if stop.failure.Some? && t == Subject(stop.position) then Condition(IsFalse, stop.failure.value, o.now)
                    else if marked then Condition(IsTrue, TrueDetail, o.now)
                    else if Listed(t) then Condition(IsUnknown, InitDetail, o.now) else o.stray[t]))
  {
    hide ConditionsDuring, AllSubConditionIsTrue, IsPassed;
    LookupDuring(o, cr, stop.position, t);
  }

  lemma LookupAtEnd(o: Oracle, cr: CR, t: Type)
    ensures var cs := ConditionsAt(o, cr, EndStop);
      && (t != Ready ==> (t in cs <==> IsPassed(cr, AtEnd, t) || Listed(t) || t in o.stray))
      && (t != Ready && t in cs ==>
          (cs[t] == if IsPassed(cr, AtEnd, t) || t == Deployment then Condition(IsTrue, TrueDetail, o.now)
                    else if Listed(t) then Condition(IsUnknown, InitDetail, o.now) else o.stray[t]))
      && Ready in cs && cs[Ready] == Condition(if Truthful(cs) then IsTrue else IsUnknown,
                                               if Truthful(cs) then TrueDetail else InitDetail, o.now)
  {
    hide ConditionsDuring, IsPassed;
    LookupDuring(o, cr, AtEnd, t);
    LookupDuring(o, cr, AtEnd, Ready);
    assert !IsPassed(cr, AtEnd, Ready) by { NotPassed(cr); }
  }

  lemma NotPassed(cr: CR)
    ensures !IsPassed(cr, AtEnd, Ready)
  {
  }

  /** Ready is decided by a pass only at its end and by the other conditions; otherwise it is Unknown. */
  lemma ReadyAt(o: Oracle, cr: CR, stop: Stop)
    requires Subject(stop.position) != Ready
    ensures var cs := ConditionsAt(o, cr, stop);
      && Ready in cs
      && cs[Ready] == (if stop.position == AtEnd && stop.failure.None? && Truthful(cs)
                       then Condition(IsTrue, TrueDetail, o.now) else Condition(IsUnknown, InitDetail, o.now))
  {
    hide ConditionsDuring, IsPassed;
    LookupDuring(o, cr, stop.position, Ready);
    assert !IsPassed(cr, stop.position, Ready) by { ReadyIsNotPassed(cr, stop.position); }
  }

  lemma ReadyIsNotPassed(cr: CR, p: Position)
    ensures !IsPassed(cr, p, Ready) && Subject(p) != Ready
  {
  }

  lemma EpilogueAt(lib: Lib, o: Oracle, cs: Conditions, saved: Conditions, t: Type)
    requires t != Ready
    ensures t in Epilogue(lib, o, cs, saved) <==> t in cs
    ensures t in cs ==>
      (Epilogue(lib, o, cs, saved)[t] ==
       if t in saved && SameState(cs[t], saved[t]) then cs[t].(time := saved[t].time) else cs[t])
  {
  }

  lemma EndPasses(cr: CR, t: Type)
    requires Listed(t) && t !in {Ready, Deployment}
    ensures IsPassed(cr, AtEnd, t)
  {
  }

  /** Whatever else `Init` leaves is True, as far as the pass does not decide it. */
  predicate StrayIsTrue(o: Oracle, cr: CR) {
    forall t | t in o.stray && !Listed(t) && !IsPassed(cr, AtEnd, t) :: o.stray[t].state == IsTrue
  }

  /** A finished pass over a ready Deployment calls the resource Ready unless some leftover condition is not True. */
  lemma EndIsReadyIff(lib: Lib, o: Oracle, cr: CR, saved: Conditions)
    ensures Is(Epilogue(lib, o, ConditionsAt(o, cr, EndStop), saved), Ready, IsTrue) <==> StrayIsTrue(o, cr)
    ensures Truthful(ConditionsAt(o, cr, EndStop)) <==> StrayIsTrue(o, cr)
  {
    hide ConditionsAt, Epilogue, IsPassed;
    var cs := ConditionsAt(o, cr, EndStop);
    forall t | t != Ready
      ensures t in cs && cs[t].state != IsTrue <==>
        t in o.stray && !Listed(t) && !IsPassed(cr, AtEnd, t) && o.stray[t].state != IsTrue
    {
      LookupAtEnd(o, cr, t);
      if Listed(t) && t != Deployment {
        EndPasses(cr, t);
      }
    }
    LookupAtEnd(o, cr, Ready);
    assert Truthful(cs) <==> StrayIsTrue(o, cr);
    EpilogueKeepsStates(lib, o, cs, saved, Ready);
    if !Truthful(cs) {
      MirrorsNoTruth(o, cr, EndStop, saved);
    }
  }

  // ---------- conditions that repeat ----------

  /** Some pass over the resource ended with its conditions, stopped at `stop`. */
  ghost predicate Concluded(lib: Lib, cr: CR, stop: Stop) {
    exists o, saved :: cr.status.conditions == Epilogue(lib, o, ConditionsAt(o, cr, stop), saved)
  }

  /** A pass that stops there settles the condition of this type. */
  predicate Decided(cr: CR, stop: Stop, t: Type) {
    IsPassed(cr, stop.position, t) || (stop.failure.Some? && t == Subject(stop.position))
  }

  /** Of the conditions that the pass does not settle `Init` leaves those that are stored, times apart. */
  predicate KeepsStray(o: Oracle, cr: CR, stop: Stop) {
    forall t | !Listed(t) && !Decided(cr, stop, t) ::
      && (t in o.stray <==> t in cr.status.conditions)
      && (t in o.stray ==> SameState(o.stray[t], cr.status.conditions[t]))
  }

  /** The same conditions, with the time of a mirrored Ready set anew. */
  function Remirrored(cs: Conditions, now: int): Conditions {
    if Ready in cs && cs[Ready].state != IsTrue then cs[Ready := cs[Ready].(time := now)] else cs
  }

  /** Away from Ready a second pass that stops in the same place rebuilds every condition as it was. */
  lemma OthersRepeat(lib: Lib, o1: Oracle, o2: Oracle, cr: CR, stop: Stop, saved: Conditions, t: Type)
    requires cr.status.conditions == Epilogue(lib, o1, ConditionsAt(o1, cr, stop), saved) && t != Ready
    ensures var stored, c1, c2 := cr.status.conditions, ConditionsAt(o1, cr, stop), ConditionsAt(o2, cr, stop);
      && (KeepsStray(o2, cr, stop) ==>
          && Get(Epilogue(lib, o2, c2, stored), t) == Get(stored, t)
          && (t in c2 <==> t in c1) && (t in c2 ==> SameState(c2[t], c1[t])))
      && (Get(Epilogue(lib, o2, c2, stored), t) == Get(stored, t) && !Listed(t) && !Decided(cr, stop, t) ==>
          (t in o2.stray <==> t in stored) && (t in o2.stray ==> SameState(o2.stray[t], stored[t])))
  {
    hide ConditionsAt, Epilogue, IsPassed;
    var stored := cr.status.conditions;
    LookupAt(o1, cr, stop, t);
    LookupAt(o2, cr, stop, t);
    EpilogueAt(lib, o1, ConditionsAt(o1, cr, stop), saved, t);
    EpilogueAt(lib, o2, ConditionsAt(o2, cr, stop), stored, t);
  }

  /**
    A second pass that stops in the same place rebuilds every condition and every time as they were,
    but a Ready that is not True gets the time of the pass: times are restored before it is mirrored.
    */
  lemma SameConditions(lib: Lib, o1: Oracle, o2: Oracle, cr: CR, stop: Stop, saved: Conditions)
    requires cr.status.conditions == Epilogue(lib, o1, ConditionsAt(o1, cr, stop), saved)
    requires KeepsStray(o2, cr, stop)
    ensures Epilogue(lib, o2, ConditionsAt(o2, cr, stop), cr.status.conditions) == Remirrored(cr.status.conditions, o2.now)
    ensures Ready in cr.status.conditions
  {
    hide ConditionsAt, MirrorState, KeepsStray;
    var c1, c2, stored := ConditionsAt(o1, cr, stop), ConditionsAt(o2, cr, stop), cr.status.conditions;
    var again := Epilogue(lib, o2, c2, stored);
    forall t: Type | t != Ready
      ensures Get(again, t) == Get(stored, t)
      ensures t in c2 <==> t in c1
      ensures t in c2 ==> SameState(c2[t], c1[t])
    {
      OthersRepeat(lib, o1, o2, cr, stop, saved, t);
    }
    AgreeBeside(again, stored);
    ReadyIsNotPassed(cr, stop.position);
    ReadyAt(o1, cr, stop);
    ReadyAt(o2, cr, stop);
    assert Truthful(c1) == Truthful(c2);
    if c1[Ready].state == IsUnknown {
      MirrorsNoTruth(o1, cr, stop, saved);
    }
    ReadyRepeats(lib, o1, o2, c1, c2, saved, stored);
  }

  lemma AgreeBeside(a: Conditions, b: Conditions)
    requires forall t | t != Ready :: Get(a, t) == Get(b, t)
    ensures a - {Ready} == b - {Ready}
  {
    forall t | t != Ready
      ensures t in a <==> t in b
      ensures t in a ==> a[t] == b[t]
    {
      assert Get(a, t) == Get(b, t);
    }
  }

  /** What Ready becomes depends on the other conditions alone. */
  lemma ReadyRepeats(lib: Lib, o1: Oracle, o2: Oracle, c1: Conditions, c2: Conditions, saved: Conditions, stored: Conditions)
    requires stored == Epilogue(lib, o1, c1, saved)
    requires Epilogue(lib, o2, c2, stored) - {Ready} == stored - {Ready}
    requires Ready in c1 && Ready in c2 && SameState(c1[Ready], c2[Ready])
    requires c1[Ready].state != IsFalse
    requires c1[Ready].state == IsUnknown ==> MirrorState(RestoreLastTransitionTimes(c1, saved)) != IsTrue
    ensures Ready in stored && Epilogue(lib, o2, c2, stored) == Remirrored(stored, o2.now)
  {
    hide MirrorState, RestoreLastTransitionTimes;
    var r1, r2 := RestoreLastTransitionTimes(c1, saved), RestoreLastTransitionTimes(c2, stored);
    var again := Epilogue(lib, o2, c2, stored);
    RestoredReady(c1, saved);
    RestoredReady(c2, stored);
    if c1[Ready].state == IsUnknown {
      assert stored - {Ready} == r1 - {Ready} && again - {Ready} == r2 - {Ready};
      MirrorAgrees(r1, r2);
    }
    assert again == (again - {Ready})[Ready := again[Ready]];
    assert Remirrored(stored, o2.now) == (stored - {Ready})[Ready := Remirrored(stored, o2.now)[Ready]];
  }

  lemma RestoredReady(cs: Conditions, saved: Conditions)
    requires Ready in cs
    ensures var rs := RestoreLastTransitionTimes(cs, saved);
      && Ready in rs && SameState(rs[Ready], cs[Ready])
      && (Ready in saved && SameState(cs[Ready], saved[Ready]) ==> rs[Ready] == saved[Ready])
  {
  }

  lemma MirrorAgrees(a: Conditions, b: Conditions)
    requires a - {Ready} == b - {Ready}
    ensures MirrorState(a) == MirrorState(b)
  {
    forall t | t != Ready
      ensures t in a <==> t in b
      ensures t in a ==> a[t] == b[t]
    {
      assert t in a - {Ready} <==> t in a;
      assert t in b - {Ready} <==> t in b;
    }
  }

  /** Conditions that come out as they were were left alone by `Init`. */
  lemma StrayWasKept(lib: Lib, o1: Oracle, o2: Oracle, cr: CR, stop: Stop, saved: Conditions)
    requires cr.status.conditions == Epilogue(lib, o1, ConditionsAt(o1, cr, stop), saved)
    requires Epilogue(lib, o2, ConditionsAt(o2, cr, stop), cr.status.conditions) == cr.status.conditions
    ensures KeepsStray(o2, cr, stop)
  {
    hide ConditionsAt, Epilogue, Decided;
    forall t | !Listed(t) && !Decided(cr, stop, t)
      ensures t in o2.stray <==> t in cr.status.conditions
      ensures t in o2.stray ==> SameState(o2.stray[t], cr.status.conditions[t])
    {
      OthersRepeat(lib, o1, o2, cr, stop, saved, t);
    }
  }

  lemma PassConcludes(lib: Lib, o: Oracle, cr: CR, cl: Cluster)
    requires PatchInstance !in o.fail
    ensures Concluded(lib, Pass(lib, o, cr, cl).cr, Body(lib, o, cr, cl).1)
  {
    hide Body, Epilogue, ConditionsAt;
    var (w, stop) := Body(lib, o, cr, cl);
    var out := Pass(lib, o, cr, cl);
    SameConditionsAt(o, w.cr, out.cr, stop);
    assert out.cr.status.conditions == Epilogue(lib, o, ConditionsAt(o, out.cr, stop), cr.status.conditions);
  }

  lemma SameConditionsAt(o: Oracle, a: CR, b: CR, stop: Stop)
    requires a.spec == b.spec
    ensures ConditionsAt(o, a, stop) == ConditionsAt(o, b, stop)
  {
    hide ConditionsDuring, AllSubConditionIsTrue;
    forall t: Type
      ensures Get(ConditionsDuring(o, a, stop.position), t) == Get(ConditionsDuring(o, b, stop.position), t)
    {
      LookupDuring(o, a, stop.position, t);
      LookupDuring(o, b, stop.position, t);
    }
    SameMap(ConditionsDuring(o, a, stop.position), ConditionsDuring(o, b, stop.position));
  }

  lemma SameMap(a: Conditions, b: Conditions)
    requires forall t :: Get(a, t) == Get(b, t)
    ensures a == b
  {
    forall t
      ensures t in a <==> t in b
      ensures t in a ==> a[t] == b[t]
    {
      assert Get(a, t) == Get(b, t);
    }
  }

  // ---------- a resource that differs in its conditions ----------

  /** A resource that differs in its stored conditions only. */
  predicate SameButConditions(a: CR, b: CR) {
    b == a.(status := a.status.(conditions := b.status.conditions))
  }

  lemma WaitingDecides(a: CR, b: CR, cl: Cluster)
    requires SameButConditions(a, b)
    ensures RbacInPlace(a, cl) == RbacInPlace(b, cl)
  {
  }

  lemma RolloutIgnoresConditions(lib: Lib, a: CR, b: CR, cl: Cluster)
    requires SameButConditions(a, b)
    ensures Served(lib, a, cl) == Served(lib, b, cl) && Settles(a, cl) == Settles(b, cl)
    ensures NetworkVerified(lib, a, cl) == NetworkVerified(lib, b, cl)
    ensures forall fail, hash, m :: DesiredSpec(lib, fail, a, cl, hash, m) == DesiredSpec(lib, fail, b, cl, hash, m)
  {
    hide FindNADs, Pods.BuildDeployment;
  }

  lemma ConfiguredIgnoresConditions(lib: Lib, a: CR, b: CR, cl: Cluster)
    requires SameButConditions(a, b)
    ensures Configured(lib, a, cl) == Configured(lib, b, cl)
  {
    hide AllVars, MemcachedOf;
    SourcesDecide(lib, a, cl, b, cl);
  }

  lemma CompleteIgnoresConditions(lib: Lib, a: CR, b: CR, cl: Cluster)
    requires SameButConditions(a, b)
    ensures forall fail :: Complete(lib, fail, a, cl) == Complete(lib, fail, b, cl)
    ensures forall fail :: Steady(lib, fail, a, cl) && Works(b) ==> Steady(lib, fail, b, cl)
    ensures SteadyStop(lib, a, cl) == SteadyStop(lib, b, cl)
  {
    hide AllVars, Configured, MemcachedOf, OpenStackVars, TLSMissing, TLSMissingDetail, Served, Settles;
    hide NetworkVerified, DesiredSpec;
    hide RbacInPlace;
    SourcesDecide(lib, a, cl, b, cl);
    WaitingDecides(a, b, cl);
    ConfiguredIgnoresConditions(lib, a, b, cl);
    RolloutIgnoresConditions(lib, a, b, cl);
    if Configured(lib, a, cl) {
      assert MemcachedOf(a, cl).Some? by { InputsThere(lib, a, cl) by { ConfiguredReads(lib, a, cl); } }
    }
  }

  lemma ConfiguredReads(lib: Lib, cr: CR, cl: Cluster)
    requires Configured(lib, cr, cl)
    ensures AllVars(lib, cr, cl).Some?
  {
  }

  // ---------- when a pass is quiet ----------

  /** The resource and the cluster are what a pass would make of them, and the conditions say so. */
  ghost predicate Settled(lib: Lib, cr: CR, cl: Cluster) {
    Steady(lib, {}, cr, cl) && Concluded(lib, cr, SteadyStop(lib, cr, cl))
  }

  lemma SteadyStopIsDone(lib: Lib, cr: CR, cl: Cluster)
    ensures SteadyStop(lib, cr, cl).ctl == Done
  {
  }

  /**
    Exactly when the self-triggered loop ends: a calm pass over a settled resource stores what it found
    if and only if the resource is Ready, or the pass runs at the very time of the stored Ready. A
    Ready that is mirrored from other conditions gets a new time in every pass.
    */
  lemma SettledIsQuietIff(lib: Lib, o: Oracle, cr: CR, cl: Cluster)
    requires Settled(lib, cr, cl) && Calm(o)
    ensures Ready in cr.status.conditions
    ensures var ready := cr.status.conditions[Ready];
      IsQuiet(lib, o, cr, cl)
      <==> KeepsStray(o, cr, SteadyStop(lib, cr, cl)) && (ready.state == IsTrue || ready.time == o.now)
  {
    hide Body, Steady, Epilogue, ConditionsAt, SteadyStop, KeepsStray, Concluded;
    var stop, stored := SteadyStop(lib, cr, cl), cr.status.conditions;
    SteadyIsKept(lib, o, cr, cl);
    var o1, saved := ConcludedBy(lib, cr, stop);
    ReadyIsThere(lib, o1, cr, stop, saved);
    if KeepsStray(o, cr, stop) {
      SameConditions(lib, o1, o, cr, stop, saved);
      RemirroredIff(stored, o.now);
    } else if IsQuiet(lib, o, cr, cl) {
      StrayWasKept(lib, o1, o, cr, stop, saved);
      assert false;
    }
  }

  lemma ConcludedBy(lib: Lib, cr: CR, stop: Stop) returns (o: Oracle, saved: Conditions)
    requires Concluded(lib, cr, stop)
    ensures cr.status.conditions == Epilogue(lib, o, ConditionsAt(o, cr, stop), saved)
  {
    o, saved :| cr.status.conditions == Epilogue(lib, o, ConditionsAt(o, cr, stop), saved);
  }

  lemma ReadyIsThere(lib: Lib, o: Oracle, cr: CR, stop: Stop, saved: Conditions)
    ensures Ready in Epilogue(lib, o, ConditionsAt(o, cr, stop), saved)
  {
    hide ConditionsAt, Epilogue;
    ReadyIsNotPassed(cr, stop.position);
    ReadyAt(o, cr, stop);
    EpilogueKeepsStates(lib, o, ConditionsAt(o, cr, stop), saved, Ready);
  }

  lemma RemirroredIff(cs: Conditions, now: int)
    requires Ready in cs
    ensures Remirrored(cs, now) == cs <==> cs[Ready].state == IsTrue || cs[Ready].time == now
  {
    assert cs[Ready := cs[Ready].(time := now)][Ready].time == now;
    assert cs[Ready := cs[Ready]] == cs;
  }

  /** A finished pass that would hash the same again and leaves its endpoint leaves a steady resource. */
  lemma FinishedIsSteady(lib: Lib, o: Oracle, cr: CR, cl: Cluster)
    requires PatchInstance !in o.fail
    requires Body(lib, o, cr, cl).1.position == AtEnd && Rereads(lib, o, cr, cl)
    requires Pass(lib, o, cr, cl).cr.status.endpoint == cr.status.endpoint
    ensures var out := Pass(lib, o, cr, cl);
      Steady(lib, o.fail, out.cr, out.cl) && SteadyStop(lib, out.cr, out.cl) == Body(lib, o, cr, cl).1
  {
    hide Normal, Complete, Epilogue, ConditionsAt, WaitsForTLS, SteadyStop, Rereads;
    var (w, stop) := Body(lib, o, cr, cl);
    DeleteStops(o, Start(cr, cl));
    FinishedIsComplete(lib, o, cr, cl);
    NormalOnTheSame(lib, o, Start(cr, cl));
    ReportIsNotEmpty(lib, o, w.cr, stop, cr.status.conditions);
    CompleteIgnoresConditions(lib, w.cr, Pass(lib, o, cr, cl).cr, w.cl);
  }

  /** Glossed-over reads that made no difference do not matter to a later pass either. */
  lemma SteadyDespite(lib: Lib, o: Oracle, cr: CR, cl: Cluster, cr': CR, cl': Cluster)
    requires AttachmentsAgree(lib, o, cr, cl) && cr'.key == cr.key && cr'.spec == cr.spec && cl'.nads == cl.nads
    ensures Steady(lib, o.fail, cr', cl') == Steady(lib, {}, cr', cl')
  {
    hide WaitsForTLS, Configured, Served, Settles, NetworkVerified, FindNADs, Pods.BuildDeployment;
    hide ServicesOf, TopologySpec, MemcachedOf;
    if Configured(lib, cr', cl') {
      ConfiguredReads(lib, cr', cl');
      InputsThere(lib, cr', cl');
    }
  }

  /** A finished pass leaves a settled resource, if it leaves a steady one and read its attachments as they are. */
  lemma FinishedIsSettled(lib: Lib, o: Oracle, cr: CR, cl: Cluster)
    requires PatchInstance !in o.fail
    requires Body(lib, o, cr, cl).1.position == AtEnd && Rereads(lib, o, cr, cl) && AttachmentsAgree(lib, o, cr, cl)
    requires Pass(lib, o, cr, cl).cr.status.endpoint == cr.status.endpoint
    ensures var out := Pass(lib, o, cr, cl);
      Settled(lib, out.cr, out.cl) && SteadyStop(lib, out.cr, out.cl) == Body(lib, o, cr, cl).1
  {
    hide Body, Pass, Steady, SteadyStop, Rereads, AttachmentsAgree, Concluded;
    FinishedIsSteady(lib, o, cr, cl);
    PassConcludes(lib, o, cr, cl);
    PassFrame(lib, o, cr, cl);
    SteadyDespite(lib, o, cr, cl, Pass(lib, o, cr, cl).cr, Pass(lib, o, cr, cl).cl);
  }

  /**
    Once a pass has made a resource Ready with a hash that holds, without changing the endpoint that it
    rendered from and with its attachments read as they are, every calm pass persists the same resource,
    with every condition and every transition time, and the same cluster.
    */
  lemma ReadyIsQuiet(lib: Lib, o1: Oracle, o2: Oracle, cr: CR, cl: Cluster)
    requires PatchInstance !in o1.fail && AttachmentsAgree(lib, o1, cr, cl) && Calm(o2)
    requires Is(Pass(lib, o1, cr, cl).cr.status.conditions, Ready, IsTrue)
    requires Rereads(lib, o1, cr, cl) && Pass(lib, o1, cr, cl).cr.status.endpoint == cr.status.endpoint
    ensures var out := Pass(lib, o1, cr, cl);
      IsQuiet(lib, o2, out.cr, out.cl) <==> KeepsStray(o2, out.cr, EndStop)
  {
    hide Pass, Body, Settled, SteadyStop, Rereads, AttachmentsAgree, KeepsStray, IsQuiet;
    var out := Pass(lib, o1, cr, cl);
    ReadyMeansEnd(lib, o1, cr, cl);
    FinishedIsSettled(lib, o1, cr, cl);
    SteadyStopIsDone(lib, out.cr, out.cl);
    SettledIsQuietIff(lib, o2, out.cr, out.cl);
  }

  /**
    A complete resource is called Ready exactly while its Deployment is observed to run as many ready
    replicas as are asked for, and no others, and no leftover condition objects.
    */
  lemma CompleteIsReadyIff(lib: Lib, o: Oracle, cr: CR, cl: Cluster)
    requires Calm(o) && Works(cr) && Steady(lib, {}, cr, cl) && Complete(lib, {}, cr, cl)
    ensures Is(Pass(lib, o, cr, cl).cr.status.conditions, Ready, IsTrue)
       <==> (var d := cl.deployments[Key(cr.key.ns, "horizon")];
             && d.generation == d.observedGeneration && d.replicas == d.readyReplicas == cr.spec.replicas
             && StrayIsTrue(o, cr))
  {
    hide Body, ConditionsAt, Epilogue, DeploymentObject.IsReady, Complete, Steady, SteadyStop, StrayIsTrue;
    CompleteAsksFor(lib, cr, cl);
    CompleteStop(lib, cr, cl);
    SteadyIsKept(lib, o, cr, cl);
    if cl.deployments[DeploymentKey(cr.key.ns)].IsReady() {
      EndIsReadyIff(lib, o, cr, cr.status.conditions);
    } else if Is(Pass(lib, o, cr, cl).cr.status.conditions, Ready, IsTrue) {
      ReadyMeansEnd(lib, o, cr, cl);
      assert false;
    }
  }

  lemma CompleteStop(lib: Lib, cr: CR, cl: Cluster)
    requires Complete(lib, {}, cr, cl) && !cr.deleting
    ensures DeploymentKey(cr.key.ns) in cl.deployments
    ensures SteadyStop(lib, cr, cl)
         == Stop(AtEnd, if cl.deployments[DeploymentKey(cr.key.ns)].IsReady() then None else Some(RunningDetail), Done)
  {
    hide Configured, Served, Settles, NetworkVerified, WaitsForTLS, DeploymentObject.IsReady;
    ConfiguredIsNoWait(lib, cr, cl);
  }

  lemma CompleteAsksFor(lib: Lib, cr: CR, cl: Cluster)
    requires Complete(lib, {}, cr, cl)
    ensures var k := Key(cr.key.ns, "horizon");
      && DeploymentKey(cr.key.ns) == k && k in cl.deployments
      && (cl.deployments[k].IsReady() <==>
          && cl.deployments[k].generation == cl.deployments[k].observedGeneration
          && cl.deployments[k].replicas == cl.deployments[k].readyReplicas == cr.spec.replicas)
  {
    hide DesiredSpec, MemcachedOf, AllVars, ConfigText;
    InputsThere(lib, cr, cl) by { ConfiguredReads(lib, cr, cl); }
    AsksFor(lib, {}, cr, cl, StoredHash(cr).GetOr(""), MemcachedOf(cr, cl).value);
  }

  // ---------- and only then ----------

  /** Different parameters render differently. */
  ghost predicate RendersApart(lib: Lib) {
    forall p, q, c :: lib.render(p, c) == lib.render(q, c) ==> p == q
  }

  ghost predicate HashesApart(lib: Lib) {
    forall a, b :: lib.objectHash(a) == lib.objectHash(b) ==> a == b
  }

  lemma VariablesRead(lib: Lib, cr: CR, cl: Cluster)
    requires AllVars(lib, cr, cl).Some? && cr.spec.secret != Volumes.SERVICE_NAME
    ensures Volumes.SERVICE_NAME !in AllVars(lib, cr, cl).value
  {
    hide ConfigText, MemcachedOf, OpenStackVars, CAVars, CertVars;
    Shapes(lib, cr, cl);
    assert |ConfigDataName(cr)| >= 12 && |ScriptsName(cr)| >= 8 && |Volumes.SERVICE_NAME| == 7;
    assert CA_BUNDLE_KEY[0] != 'h' && TLS_HASH_NAME[0] != 'h';
  }

  /**
    When a pass hashes what the next one reads: it found its secret valid; or it created it, and the
    specification names that very secret as the OpenStack secret, and otherwise as nothing that matters.
    */
  predicate FindsItsKey(lib: Lib, o: Oracle, cr: CR, cl: Cluster) {
    || HasValidSecret(cl.secrets, cr.key.ns)
    || (&& cr.spec.secret == Volumes.SERVICE_NAME
        && CAVars(lib, cr, cl) == CAVars(lib, cr, Secured(o, cr, cl))
        && CertVars(lib, cr, cl) == CertVars(lib, cr, Secured(o, cr, cl)))
  }

  /** The variables by name, where no file of the resource has the name. */
  lemma VariableAt(lib: Lib, cr: CR, cl: Cluster, name: string)
    requires AllVars(lib, cr, cl).Some? && name in {Volumes.SERVICE_NAME, CA_BUNDLE_KEY, TLS_HASH_NAME}
    ensures InputVars(lib, cr, cl).Some? && Get(AllVars(lib, cr, cl).value, name) == Get(InputVars(lib, cr, cl).value, name)
  {
    hide InputVars, ConfigText, MemcachedOf;
    NamesApart(cr);
  }

  lemma NamesApart(cr: CR)
    ensures ConfigDataName(cr) !in {Volumes.SERVICE_NAME, CA_BUNDLE_KEY, TLS_HASH_NAME}
    ensures ScriptsName(cr) !in {Volumes.SERVICE_NAME, CA_BUNDLE_KEY, TLS_HASH_NAME}
  {
    var a, b := ConfigDataName(cr), ScriptsName(cr);
    assert a[|a| - 1] == 'a' && b[|b| - 1] == 's' && |b| >= 8 && |TLS_HASH_NAME| == 5;
    assert TLS_HASH_NAME[4] == 's' && CA_BUNDLE_KEY[|CA_BUNDLE_KEY| - 1] == 'm';
    assert Volumes.SERVICE_NAME[|Volumes.SERVICE_NAME| - 1] == 'n';
  }

  lemma InputAt(lib: Lib, cr: CR, cl: Cluster)
    requires InputVars(lib, cr, cl).Some? && cr.spec.secret == Volumes.SERVICE_NAME
    ensures CAVars(lib, cr, cl).Some? && CertVars(lib, cr, cl).Some?
    ensures Get(InputVars(lib, cr, cl).value, CA_BUNDLE_KEY) == Get(CAVars(lib, cr, cl).value, CA_BUNDLE_KEY)
    ensures Get(InputVars(lib, cr, cl).value, TLS_HASH_NAME) == Get(CertVars(lib, cr, cl).value, TLS_HASH_NAME)
    ensures CAVars(lib, cr, cl).value.Keys <= {CA_BUNDLE_KEY} && CertVars(lib, cr, cl).value.Keys <= {TLS_HASH_NAME}
  {
    hide CAVars, CertVars, OpenStackVars, MemcachedOf;
    Shapes(lib, cr, cl);
    assert CA_BUNDLE_KEY[0] == 't' && TLS_HASH_NAME[0] == 'c' && Volumes.SERVICE_NAME[0] == 'h';
  }

  lemma SameAt(a: Vars, b: Vars, name: string)
    requires a.Keys <= {name} && b.Keys <= {name} && Get(a, name) == Get(b, name)
    ensures a == b
  {
    assert name in a <==> name in b;
  }

  lemma SelfSecret(lib: Lib, o: Oracle, cr: CR, cl: Cluster)
    requires !HasValidSecret(cl.secrets, cr.key.ns) && cr.spec.secret == Volumes.SERVICE_NAME
    ensures OpenStackVars(lib, cr, Secured(o, cr, cl)) == Some(map[Volumes.SERVICE_NAME := lib.secretHash(NewSecretData(o))])
    ensures MemcachedOf(cr, Secured(o, cr, cl)) == MemcachedOf(cr, cl)
  {
  }

  lemma ReplaceFirst(first: Vars, ca: Vars, cert: Vars, name: string, value: string)
    requires first.Keys == {name} && name !in ca && name !in cert
    ensures map[name := value] + ca + cert == (first + ca + cert)[name := value]
  {
  }

  lemma SelfInput(lib: Lib, o: Oracle, cr: CR, cl: Cluster)
    requires InputVars(lib, cr, cl).Some? && !HasValidSecret(cl.secrets, cr.key.ns) && FindsItsKey(lib, o, cr, cl)
    ensures InputVars(lib, cr, Secured(o, cr, cl)).Some?
    ensures InputVars(lib, cr, Secured(o, cr, cl)).value
         == InputVars(lib, cr, cl).value[Volumes.SERVICE_NAME := lib.secretHash(NewSecretData(o))]
  {
    hide ConfigText, CAVars, CertVars, OpenStackVars, MemcachedOf, HasValidSecret, Secured;
    Shapes(lib, cr, cl);
    SelfSecret(lib, o, cr, cl);
    assert CA_BUNDLE_KEY[0] == 't' && TLS_HASH_NAME[0] == 'c' && Volumes.SERVICE_NAME[0] == 'h';
    ReplaceFirst(OpenStackVars(lib, cr, cl).value, CAVars(lib, cr, cl).value, CertVars(lib, cr, cl).value,
                 Volumes.SERVICE_NAME, lib.secretHash(NewSecretData(o)));
  }

  lemma VariableChange(lib: Lib, cr: CR, text: string, vars: Vars, value: string)
    ensures ConfigVars(lib, cr, text, vars[Volumes.SERVICE_NAME := value])
         == ConfigVars(lib, cr, text, vars)[Volumes.SERVICE_NAME := value]
  {
    NamesApart(cr);
  }

  /** Under the name of the Horizon secret the next reading finds what the pass has just hashed. */
  lemma SelfReading(lib: Lib, o: Oracle, cr: CR, cl: Cluster)
    requires AllVars(lib, cr, cl).Some? && !HasValidSecret(cl.secrets, cr.key.ns) && FindsItsKey(lib, o, cr, cl)
    ensures AllVars(lib, cr, Secured(o, cr, cl)) == Some(HashedVars(lib, o, cr, cl))
  {
    hide MemcachedOf, ConfigText, ConfigVars, FindsItsKey, OpenStackVars, CAVars, CertVars;
    SelfInput(lib, o, cr, cl);
    InputsThere(lib, cr, cl);
    TextKeeps(lib, cr, cl, Secured(o, cr, cl));
    VariableChange(lib, cr, ConfigText(lib, cr, cl, MemcachedOf(cr, cl).value).value, InputVars(lib, cr, cl).value,
                   lib.secretHash(NewSecretData(o)));
  }

  lemma RereadsIff(lib: Lib, o: Oracle, cr: CR, cl: Cluster)
    requires AllVars(lib, cr, cl).Some?
    ensures Rereads(lib, o, cr, cl) <==> FindsItsKey(lib, o, cr, cl)
  {
    hide AllVars, InputVars, CAVars, CertVars, HasValidSecret;
    var after, name := Secured(o, cr, cl), Volumes.SERVICE_NAME;
    if HasValidSecret(cl.secrets, cr.key.ns) {
      ValidRereads(lib, o, cr, cl);
    } else if FindsItsKey(lib, o, cr, cl) {
      SelfReading(lib, o, cr, cl);
    } else if Rereads(lib, o, cr, cl) {
      assert name in AllVars(lib, cr, after).value;
      if cr.spec.secret != name {
        VariablesRead(lib, cr, after);
        assert false;
      }
      RereadsInputs(lib, o, cr, cl);
      assert false;
    }
  }

  lemma RereadsInputs(lib: Lib, o: Oracle, cr: CR, cl: Cluster)
    requires AllVars(lib, cr, cl).Some? && Rereads(lib, o, cr, cl) && !HasValidSecret(cl.secrets, cr.key.ns)
    requires cr.spec.secret == Volumes.SERVICE_NAME
    ensures CAVars(lib, cr, cl) == CAVars(lib, cr, Secured(o, cr, cl))
    ensures CertVars(lib, cr, cl) == CertVars(lib, cr, Secured(o, cr, cl))
  {
    hide AllVars, InputVars, CAVars, CertVars, HasValidSecret;
    var after := Secured(o, cr, cl);
    assert CA_BUNDLE_KEY[0] == 't' && TLS_HASH_NAME[0] == 'c' && Volumes.SERVICE_NAME[0] == 'h';
    VariableAt(lib, cr, cl, CA_BUNDLE_KEY);
    VariableAt(lib, cr, after, CA_BUNDLE_KEY);
    VariableAt(lib, cr, cl, TLS_HASH_NAME);
    VariableAt(lib, cr, after, TLS_HASH_NAME);
    InputAt(lib, cr, cl);
    InputAt(lib, cr, after);
    SameAt(CAVars(lib, cr, cl).value, CAVars(lib, cr, after).value, CA_BUNDLE_KEY);
    SameAt(CertVars(lib, cr, cl).value, CertVars(lib, cr, after).value, TLS_HASH_NAME);
  }

  /** What a finished pass shows: the text it wrote, and the variables it hashed. */
  lemma FinishedHas(lib: Lib, o: Oracle, cr: CR, cl: Cluster)
    requires Body(lib, o, cr, cl).1.position == AtEnd
    ensures Works(cr) && AllVars(lib, cr, cl).Some? && MemcachedOf(cr, cl).Some?
    ensures ConfigText(lib, cr, cl, MemcachedOf(cr, cl).value).Some?
    ensures var w := Body(lib, o, cr, cl).0;
      && IsOwned(w.cl, ConfigMapKey(cr, ConfigDataName(cr)), Text(ConfigText(lib, cr, cl, MemcachedOf(cr, cl).value).value), cr.key)
      && StoredHash(w.cr) == Some(lib.objectHash(HashedVars(lib, o, cr, cl)))
  {
    hide Normal, Prepare, Continues, AllVars, MemcachedOf, ConfigText, HashedVars, SecretsAfter;
    var w := Start(cr, cl);
    DeleteStops(o, w);
    NormalMeaning(lib, o, w);
    GateMeaning(lib, o, w);
    StartReads(lib, cr, cl);
    StartHashes(lib, o, cr, cl);
    var p := Prepare(lib, o, w);
    GateThere(lib, o, w, p.value.0);
    EndKeeps(lib, o, p.value.0, p.value.2, Normal(lib, o, w).0, Normal(lib, o, w).1);
  }

  lemma StartHashes(lib: Lib, o: Oracle, cr: CR, cl: Cluster)
    requires AllVars(lib, cr, cl).Some? && AllVars(lib, Start(cr, cl).cr, cl) == AllVars(lib, cr, cl)
    ensures HashedVars(lib, o, Start(cr, cl).cr, cl) == HashedVars(lib, o, cr, cl)
    ensures forall m :: ConfigText(lib, Start(cr, cl).cr, cl, m) == ConfigText(lib, cr, cl, m)
  {
    hide AllVars;
  }

  lemma GateThere(lib: Lib, o: Oracle, w: World, g: World)
    requires AtGate(lib, o, w, g)
    ensures MemcachedOf(w.cr, w.cl).Some? && ConfigText(lib, w.cr, w.cl, MemcachedOf(w.cr, w.cl).value).Some?
  {
    hide RbacInPlace, ConfigInPlace;
    InputsThere(lib, w.cr, w.cl);
  }

  lemma EndKeeps(lib: Lib, o: Oracle, g: World, m: MemcachedObject, w: World, stop: Stop)
    requires Continues(lib, o, g, m, w, stop) && stop.position == AtEnd
    ensures StoredHash(w.cr) == StoredHash(g.cr)
    ensures forall k: OwnedKey | k.kind == ConfigMapKind :: Get(w.cl.owned, k) == Get(g.cl.owned, k)
  {
    hide DesiredSpec, Verification, TopologiesHeld, TopologyCalls, GateDeployment;
  }

  lemma AnnotationsShow(lib: Lib, fail: set<Call>, cr: CR, cl: Cluster, hash: string, m: MemcachedObject)
    ensures DesiredSpec(lib, fail, cr, cl, hash, m).annotations == Annotations(lib, fail, cr, cl)
  {
    hide FindNADs, Pods.PodVolumes, Pods.PodMounts, Pods.EnvVars;
  }

  lemma AnnotationsWritten(lib: Lib, o: Oracle, g: World, m: MemcachedObject, w: World, stop: Stop)
    requires Continues(lib, o, g, m, w, stop) && stop.position == AtEnd
    ensures DeploymentKey(g.cr.key.ns) in w.cl.deployments
    ensures w.cl.deployments[DeploymentKey(g.cr.key.ns)].spec.annotations == Annotations(lib, o.fail, g.cr, g.cl)
    ensures w.cr.key == g.cr.key && w.cr.spec == g.cr.spec && w.cl.nads == g.cl.nads
  {
    hide DesiredSpec, Annotations, TopologiesHeld, TopologyCalls, Verification, TopologyUsable, MayDeploy;
    AnnotationsShow(lib, o.fail, g.cr, g.cl, StoredHash(g.cr).GetOr(""), m);
  }

  /** The Deployment that a finished pass leaves tells which attachments it was able to read. */
  lemma FinishedShows(lib: Lib, o: Oracle, cr: CR, cl: Cluster)
    requires Body(lib, o, cr, cl).1.position == AtEnd
    ensures var w := Body(lib, o, cr, cl).0;
      && DeploymentKey(cr.key.ns) in w.cl.deployments
      && w.cl.deployments[DeploymentKey(cr.key.ns)].spec.annotations == Annotations(lib, o.fail, cr, cl)
      && w.cr.key == cr.key && w.cr.spec == cr.spec && w.cl.nads == cl.nads
  {
    hide Normal, Prepare, Continues, AllVars, HashRead, RbacInPlace, ConfigInPlace, FindNADs, SecretsAfter;
    var w := Start(cr, cl);
    DeleteStops(o, w);
    NormalMeaning(lib, o, w);
    GateMeaning(lib, o, w);
    var (g, hash, m) := Prepare(lib, o, w).value;
    AnnotationsWritten(lib, o, g, m, Normal(lib, o, w).0, Normal(lib, o, w).1);
  }

  /** If the second pass is quiet, the first one read the attachments as they are. */
  lemma QuietMeansAgree(lib: Lib, o1: Oracle, o2: Oracle, cr: CR, cl: Cluster)
    requires PatchInstance !in o1.fail && Calm(o2)
    requires Is(Pass(lib, o1, cr, cl).cr.status.conditions, Ready, IsTrue)
    requires IsQuiet(lib, o2, Pass(lib, o1, cr, cl).cr, Pass(lib, o1, cr, cl).cl)
    ensures AttachmentsAgree(lib, o1, cr, cl)
  {
    hide Body, ConditionsAt, Epilogue, FindNADs;
    var out := Pass(lib, o1, cr, cl);
    ReadyMeansEnd(lib, o1, cr, cl);
    ReadyMeansEnd(lib, o2, out.cr, out.cl);
    FinishedShows(lib, o1, cr, cl);
    FinishedShows(lib, o2, out.cr, out.cl);
    PassFrame(lib, o1, cr, cl);
  }

  /** If the second pass is quiet, the first one rendered from the endpoint that it stored and hashed what is there. */
  lemma QuietMeansSettled(lib: Lib, o1: Oracle, o2: Oracle, cr: CR, cl: Cluster)
    requires RendersApart(lib) && HashesApart(lib) && PatchInstance !in o1.fail && Calm(o2)
    requires Is(Pass(lib, o1, cr, cl).cr.status.conditions, Ready, IsTrue)
    requires IsQuiet(lib, o2, Pass(lib, o1, cr, cl).cr, Pass(lib, o1, cr, cl).cl)
    ensures Pass(lib, o1, cr, cl).cr.status.endpoint == cr.status.endpoint
    ensures Rereads(lib, o1, cr, cl)
  {
    hide Body, ConditionsAt, Epilogue, AllVars, MemcachedOf, ConfigText, SecretsAfter, HasValidSecret;
    var out := Pass(lib, o1, cr, cl);
    ReadyMeansEnd(lib, o1, cr, cl);
    ReadyMeansEnd(lib, o2, out.cr, out.cl);
    FinishedHas(lib, o1, cr, cl);
    FinishedHas(lib, o2, out.cr, out.cl);
    PassFrame(lib, o1, cr, cl);
    TextTellsEndpoint(lib, cr, cl, out.cr, out.cl);
    EndSecrets(lib, o1, cr, cl);
    SourcesDecide(lib, out.cr, out.cl, cr, Secured(o1, cr, cl));
  }

  /** A finished pass leaves the secrets of its secret stage, and a valid one among them. */
  lemma EndSecrets(lib: Lib, o: Oracle, cr: CR, cl: Cluster)
    requires Body(lib, o, cr, cl).1.position == AtEnd
    ensures Pass(lib, o, cr, cl).cl.secrets == SecretsAfter(o, cr, cl) && HasValidSecret(Pass(lib, o, cr, cl).cl.secrets, cr.key.ns)
  {
    hide Body, Pass, HasValidSecret, BeforeGate;
    EndReachedGate(lib, o, cr, cl);
    SecretIsStable(lib, o, cr, cl);
  }

  lemma EndReachedGate(lib: Lib, o: Oracle, cr: CR, cl: Cluster)
    requires Body(lib, o, cr, cl).1.position == AtEnd
    ensures ReachedGate(lib, o, cr, cl)
  {
    hide BeforeGate, HashGate, Rollout;
    DeleteStops(o, Start(cr, cl));
    ReachingTheGate(lib, o, Start(cr, cl));
  }

  lemma TextTellsEndpoint(lib: Lib, a: CR, acl: Cluster, b: CR, bcl: Cluster)
    requires RendersApart(lib) && MemcachedOf(a, acl).Some? && MemcachedOf(b, bcl).Some? && a.spec == b.spec
    requires ConfigText(lib, a, acl, MemcachedOf(a, acl).value).Some?
    requires ConfigText(lib, a, acl, MemcachedOf(a, acl).value) == ConfigText(lib, b, bcl, MemcachedOf(b, bcl).value)
    ensures a.status.endpoint == b.status.endpoint
  {
    hide MemcachedOf;
    var (m, n) := (MemcachedOf(a, acl).value, MemcachedOf(b, bcl).value);
    var p := Parameters(a, Get(acl.keystones, a.key.ns).GetOr(None).value, lib.parseUrl(a.status.endpoint).value, m);
    var q := Parameters(b, Get(bcl.keystones, b.key.ns).GetOr(None).value, lib.parseUrl(b.status.endpoint).value, n);
    assert lib.render(p, CustomData(a.spec)) == lib.render(q, CustomData(a.spec));
  }

  /**
    Exactly when the loop ends behind a Ready pass: its secret was valid when it came, or the one that it
    created is an input already; it stored the very endpoint that its configuration was rendered from; it
    read the attachments as they are; and `Init` keeps the conditions that the next pass leaves alone.
    */
  lemma ReadyIsQuietIff(lib: Lib, o1: Oracle, o2: Oracle, cr: CR, cl: Cluster)
    requires RendersApart(lib) && HashesApart(lib) && PatchInstance !in o1.fail && Calm(o2)
    requires Is(Pass(lib, o1, cr, cl).cr.status.conditions, Ready, IsTrue)
    ensures var out := Pass(lib, o1, cr, cl);
      IsQuiet(lib, o2, out.cr, out.cl)
      <==> (&& FindsItsKey(lib, o1, cr, cl)
            && lib.apiEndpoint(cr.key, cr.spec) == Some(cr.status.endpoint)
            && AttachmentsAgree(lib, o1, cr, cl)
            && KeepsStray(o2, out.cr, EndStop))
  {
    hide Pass, Body, RendersApart, HashesApart, FindsItsKey, IsQuiet, AttachmentsAgree, KeepsStray, Rereads, AllVars;
    var out := Pass(lib, o1, cr, cl);
    EndpointStored(lib, o1, cr, cl);
    ReadyMeansEnd(lib, o1, cr, cl);
    FinishedHas(lib, o1, cr, cl);
    RereadsIff(lib, o1, cr, cl);
    if IsQuiet(lib, o2, out.cr, out.cl) {
      QuietMeansSettled(lib, o1, o2, cr, cl);
      QuietMeansAgree(lib, o1, o2, cr, cl);
    }
    if Rereads(lib, o1, cr, cl) && AttachmentsAgree(lib, o1, cr, cl) && out.cr.status.endpoint == cr.status.endpoint {
      ReadyIsQuiet(lib, o1, o2, cr, cl);
    }
  }

  /** A pass that ends Ready stores the endpoint of its service. */
  lemma EndpointStored(lib: Lib, o: Oracle, cr: CR, cl: Cluster)
    requires PatchInstance !in o.fail && Is(Pass(lib, o, cr, cl).cr.status.conditions, Ready, IsTrue)
    ensures lib.apiEndpoint(cr.key, cr.spec) == Some(Pass(lib, o, cr, cl).cr.status.endpoint)
  {
    hide Normal, Prepare, Continues, ConditionsAt, Epilogue;
    ReadyMeansEnd(lib, o, cr, cl);
    var w := Start(cr, cl);
    DeleteStops(o, w);
    NormalMeaning(lib, o, w);
    GateMeaning(lib, o, w);
    EndEndpoint(lib, o, Prepare(lib, o, w).value.0, Prepare(lib, o, w).value.2, Normal(lib, o, w).0, Normal(lib, o, w).1);
  }

  lemma EndEndpoint(lib: Lib, o: Oracle, g: World, m: MemcachedObject, w: World, stop: Stop)
    requires Continues(lib, o, g, m, w, stop) && stop.position == AtEnd
    ensures lib.apiEndpoint(g.cr.key, g.cr.spec) == Some(w.cr.status.endpoint)
  {
    hide DesiredSpec, Verification, TopologiesHeld, TopologyCalls, GateDeployment, ClusterDeployed;
  }
}
