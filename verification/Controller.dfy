/**
  The reconciler as the program runs it: an instance whose fields are assigned stage by stage, a
  cluster that is written through, and early returns (horizon_controller.go). Every method is
  proved to compute the function of the same stage in module Passes.
  */
module Controller {
  import opened Wrappers
  import opened Conditions
  import opened Api
  import opened Clusters
  import opened Passes
  import opened Safety
  import Volumes
  import Pods
  import PodBuilder

  /** The fetched instance. */
  class Horizon {
    const key: Key
    const generation: nat
    const deleting: bool
    const keptByOthers: bool
    const spec: Spec
    var finalizer: bool
    var conditions: Conditions
    var hash: map<string, string>
    var endpoint: string
    var readyCount: nat
    var observedGeneration: nat
    var networkAttachments: string
    var lastAppliedTopology: Option<Key>

    function Value(): CR
      reads this
    {
      CR(key, generation, deleting, finalizer, keptByOthers, spec,
         Status(conditions, hash, endpoint, readyCount, observedGeneration, networkAttachments, lastAppliedTopology))
    }

    constructor (cr: CR)
      ensures Value() == cr
    {
      key, generation, deleting, spec := cr.key, cr.generation, cr.deleting, cr.spec;
      finalizer, keptByOthers := cr.finalizer, cr.keptByOthers;
      conditions, hash, endpoint := cr.status.conditions, cr.status.hash, cr.status.endpoint;
      readyCount, observedGeneration := cr.status.readyCount, cr.status.observedGeneration;
      networkAttachments, lastAppliedTopology := cr.status.networkAttachments, cr.status.lastAppliedTopology;
    }

    method Set(t: Type, s: Truth, d: Detail, now: int)
      modifies this`conditions
      ensures conditions == old(conditions)[t := Condition(s, d, now)]
    {
      conditions := conditions[t := Condition(s, d, now)];
    }
  }

  /** An instance with the conditions of the position `p`, and otherwise the one in `w`. */
  function StandingAt(o: Oracle, cr: CR, p: Position): CR {
    cr.(status := cr.status.(conditions := ConditionsDuring(o, cr, p)))
  }

  function StoppedWith(o: Oracle, cr: CR, stop: Stop): CR {
    cr.(status := cr.status.(conditions := ConditionsAt(o, cr, stop)))
  }

  /** The position behind `p` once its condition was marked True. */
  function After(cr: CR, p: Position): Position {
    match p
    case AtStart => AtRole
    case AtServiceAccount => AtRole
    case AtRole => AtRoleBinding
    case AtRoleBinding => AtInput
    case AtInput => AtMemcached
    case AtMemcached => AtTLS
    case AtTLS => AtConfig
    case AtConfig => AtService
    case AtService => AtAttachments
    case AtAttachments => AtTopology
    case AtTopology => AtDeployment
    case AtDeployment => AtNetwork
    case AtNetwork => AtEnd
    case AtEnd => AtEnd
  }

  lemma PassedBehind(cr: CR, p: Position, t: Type)
    requires p !in {AtStart, AtDeployment, AtNetwork, AtEnd}
    requires p == AtTopology ==> cr.spec.topologyRef.Some?
    ensures IsPassed(cr, After(cr, p), t) <==> IsPassed(cr, p, t) || t == Subject(p)
  {
  }

  /** Marking the condition of a position True is what moves the conditions to the next one. */
  lemma MarkingAdvances(o: Oracle, cr: CR, p: Position)
    requires p !in {AtStart, AtDeployment, AtNetwork, AtEnd}
    requires p == AtTopology ==> cr.spec.topologyRef.Some?
    ensures ConditionsDuring(o, cr, p)[Subject(p) := Condition(IsTrue, TrueDetail, o.now)]
         == ConditionsDuring(o, cr, After(cr, p))
  {
    hide ConditionsDuring, IsPassed, Init;
    var a := ConditionsDuring(o, cr, p)[Subject(p) := Condition(IsTrue, TrueDetail, o.now)];
    var b := ConditionsDuring(o, cr, After(cr, p));
    forall t: Type
      ensures t in a <==> t in b
      ensures t in a ==> a[t] == b[t]
    {
      PassedBehind(cr, p, t);
      LookupDuring(o, cr, p, t);
      LookupDuring(o, cr, After(cr, p), t);
    }
  }

  /** The conditions of a position depend on the specification alone. */
  lemma ConditionsOfSpec(o: Oracle, a: CR, b: CR, p: Position)
    requires a.spec == b.spec
    ensures ConditionsDuring(o, a, p) == ConditionsDuring(o, b, p)
  {
    hide ConditionsDuring;
    var cs, ds := ConditionsDuring(o, a, p), ConditionsDuring(o, b, p);
    forall t: Type
      ensures t in cs <==> t in ds
      ensures t in cs ==> cs[t] == ds[t]
    {
      LookupDuring(o, a, p, t);
      LookupDuring(o, b, p, t);
    }
  }

  /** Loops stop where their specification stops: what halts on a prefix halts on the whole. */
  lemma {:induction false} ServicesHalt(o: Oracle, w: World, names: seq<string>, i: nat)
    requires i <= |names| && EnabledServices(o, w, names[..i]).Halt?
    ensures EnabledServices(o, w, names) == EnabledServices(o, w, names[..i])
    decreases |names|
  {
    if i == |names| {
      assert names[..i] == names;
    } else {
      assert names[..|names| - 1][..i] == names[..i];
      ServicesHalt(o, w, names[..|names| - 1], i);
    }
  }

  lemma {:induction false} LookupHalts(fail: set<Call>, stored: map<Key, string>, ns: string, names: seq<string>, i: nat)
    requires i <= |names| && !FindNADs(fail, stored, ns, names[..i]).AllFound?
    ensures FindNADs(fail, stored, ns, names) == FindNADs(fail, stored, ns, names[..i])
    decreases |names|
  {
    if i == |names| {
      assert names[..i] == names;
    } else {
      assert names[..|names| - 1][..i] == names[..i];
      LookupHalts(fail, stored, ns, names[..|names| - 1], i);
    }
  }

  /** Positions between which no condition is settled. */
  lemma SamePassed(cr: CR, p: Position, q: Position, t: Type)
    requires (p == AtTopology && q == AtDeployment && cr.spec.topologyRef.None?)
          || (p == AtDeployment && q == AtNetwork) || (p == AtNetwork && q == AtEnd)
          || (p == AtStart && q == AtServiceAccount)
    ensures IsPassed(cr, p, t) <==> IsPassed(cr, q, t)
  {
  }

  lemma SameConditionsDuring(o: Oracle, cr: CR, p: Position, q: Position)
    requires (p == AtTopology && q == AtDeployment && cr.spec.topologyRef.None?)
          || (p == AtDeployment && q == AtNetwork) || (p == AtNetwork && q == AtEnd)
          || (p == AtStart && q == AtServiceAccount)
    ensures ConditionsDuring(o, cr, p) == ConditionsDuring(o, cr, q)
  {
    hide ConditionsDuring, IsPassed;
    var cs, ds := ConditionsDuring(o, cr, p), ConditionsDuring(o, cr, q);
    forall t: Type
      ensures t in cs <==> t in ds
      ensures t in cs ==> cs[t] == ds[t]
    {
      SamePassed(cr, p, q, t);
      LookupDuring(o, cr, p, t);
      LookupDuring(o, cr, q, t);
    }
  }

  /** A verified network only confirms what the pass has reported before. */
  lemma NetworkIsMarked(o: Oracle, cr: CR)
    ensures ConditionsDuring(o, cr, AtEnd)[NetworkAttachments := Condition(IsTrue, TrueDetail, o.now)]
         == ConditionsDuring(o, cr, AtEnd)
  {
    LookupDuring(o, cr, AtEnd, NetworkAttachments);
  }

  lemma StartConditions(o: Oracle, cr: CR)
    ensures ConditionsDuring(o, cr, AtStart) == Init(o.stray, o.now)
  {
  }

  /** What the stages in between store in the status does not reach the description of the Deployment. */
  lemma SameDesired(lib: Lib, o: Oracle, w: World, w1: World, w2: World, hash: string, m: MemcachedObject,
                    services: map<string, string>, annotations: map<string, string>, topology: Option<string>)
    requires ServiceInit(lib, o, w) == Next(w1) && EnsureTopology(o, w1).Next? && EnsureTopology(o, w1).value.0 == w2
    ensures Desired(lib, w2.cr, hash, m, services, annotations, topology)
         == Desired(lib, w.cr, hash, m, services, annotations, topology)
  {
    hide Pods.BuildDeployment;
    ServiceStage(lib, o, w);
    TopologyStage(o, w1);
    hide ServiceInit, EnsureTopology;
  }

  lemma ServiceStage(lib: Lib, o: Oracle, w: World)
    ensures ServiceInit(lib, o, w).Next? ==>
      ServiceInit(lib, o, w).value.cr.key == w.cr.key && ServiceInit(lib, o, w).value.cr.spec == w.cr.spec
  {
  }

  lemma SilentStop(o: Oracle, cr: CR, p: Position, ctl: Ctl)
    requires p != AtEnd
    ensures StoppedWith(o, cr, Stop(p, None, ctl)) == StandingAt(o, cr, p)
  {
  }

  lemma TopologyStage(o: Oracle, w: World)
    ensures var s := EnsureTopology(o, w);
      && (s.Halt? ==> s.stop == Stop(AtTopology, Some(ErrorDetail(o)), Failed(o.text)) && s.world.cr == w.cr)
      && (s.Next? ==> s.value.0.cr == w.cr.(status := w.cr.status.(lastAppliedTopology := w.cr.TopologyRef())))
  {
  }

  class HorizonReconciler {
    const lib: Lib
    var cl: Cluster
    var trace: seq<Action>

    constructor (lib: Lib, cl: Cluster)
      ensures this.lib == lib && this.cl == cl && trace == []
    {
      this.lib, this.cl, trace := lib, cl, [];
    }

    ghost predicate Stands(h: Horizon, o: Oracle, w: World, p: Position)
      reads this, h
    {
      h.Value() == StandingAt(o, w.cr, p) && cl == w.cl && trace == w.trace
    }

    ghost predicate Halted(h: Horizon, o: Oracle, w: World, stop: Stop)
      reads this, h
    {
      h.Value() == StoppedWith(o, w.cr, stop) && cl == w.cl && trace == w.trace
    }

    /** A method agrees with a step: it went on to the position `p`, or returned as the step halts. */
    ghost predicate Follows(h: Horizon, o: Oracle, s: Step<World>, p: Position, r: Option<Ctl>)
      reads this, h
    {
      match s
      case Next(w) => r == None && Stands(h, o, w, p)
      case Halt(w, stop) => r == Some(stop.ctl) && Halted(h, o, w, stop)
    }

    /** The same for a step that hands on a value and leaves the world alone. */
    ghost predicate FollowsWith<T>(h: Horizon, o: Oracle, w: World, s: Step<T>, p: Position, r: Option<Ctl>, v: T)
      reads this, h
    {
      match s
      case Next(value) => r == None && v == value && Stands(h, o, w, p)
      case Halt(w', stop) => r == Some(stop.ctl) && Halted(h, o, w', stop)
    }

    /** The same for a step that hands on a world and a value. */
    ghost predicate FollowsTo<T>(h: Horizon, o: Oracle, s: Step<(World, T)>, p: Position, r: Option<Ctl>, v: T)
      reads this, h
    {
      match s
      case Next((w, value)) => r == None && v == value && Stands(h, o, w, p)
      case Halt(w, stop) => r == Some(stop.ctl) && Halted(h, o, w, stop)
    }

    /** Report a failure in the condition of `p`. */
    method Report(h: Horizon, o: Oracle, p: Position, d: Detail, ctl: Ctl, ghost w: World) returns (r: Option<Ctl>)
      requires p != AtEnd && Stands(h, o, w, p)
      modifies h`conditions
      ensures r == Some(ctl) && Halted(h, o, w, Stop(p, Some(d), ctl))
    {
      hide ConditionsDuring;
      h.Set(Subject(p), IsFalse, d, o.now);
      return Some(ctl);
    }

    method CreateOrPatch(o: Oracle, self: Key, call: Call, k: OwnedKey, content: Content) returns (r: Ctl)
      modifies this`cl
      ensures match PutOwned(o, old(cl), self, call, k, content)
              case Stored(c) => r == Done && cl == c
              case Deferred => r == RequeueAfter && cl == old(cl)
              case Refused => r == Failed(o.text) && cl == old(cl)
    {
      if call in o.fail {
        return Failed(o.text);
      }
      if k in cl.owned && !Controllable(cl.owned[k].owner, self) {
        return Failed(o.text);
      }
      if call in o.wait {
        return RequeueAfter;
      }
      cl := cl.(owned := cl.owned[k := Owned(content, Some(self))]);
      return Done;
    }

    /** Write an object and report a failure in the condition of `p`. */
    method Ensure(h: Horizon, o: Oracle, call: Call, k: OwnedKey, content: Content, p: Position, ghost w: World)
      returns (r: Option<Ctl>)
      requires p != AtEnd && Stands(h, o, w, p)
      modifies this`cl, h`conditions
      ensures Follows(h, o, EnsureOwned(o, w, call, k, content, p), p, r)
    {
      hide ConditionsDuring, PutOwned;
      var ctl := CreateOrPatch(o, h.key, call, k, content);
      if ctl.Failed? {
        h.Set(Subject(p), IsFalse, ErrorDetail(o), o.now);
        return Some(ctl);
      } else if ctl != Done {
        h.Set(Subject(p), IsFalse, RunningDetail, o.now);
        return Some(ctl);
      }
      return None;
    }

    /** The condition of `p` is settled. */
    method MarkTrue(h: Horizon, o: Oracle, p: Position, ghost w: World)
      requires p !in {AtStart, AtDeployment, AtNetwork, AtEnd}
      requires p == AtTopology ==> h.spec.topologyRef.Some?
      requires Stands(h, o, w, p)
      modifies h`conditions
      ensures Stands(h, o, w, After(w.cr, p))
    {
      hide ConditionsDuring;
      MarkingAdvances(o, w.cr, p);
      h.Set(Subject(p), IsTrue, TrueDetail, o.now);
    }

    method EnsureRbacObject(h: Horizon, o: Oracle, call: Call, kind: OwnedKind, p: Position, ghost w: World)
      returns (r: Option<Ctl>)
      requires p in {AtServiceAccount, AtRole, AtRoleBinding} && Stands(h, o, w, p)
      modifies this`cl, h`conditions
      ensures Follows(h, o, EnsureOwned(o, w, call, RbacKey(w.cr, kind), Rules, p), After(w.cr, p), r)
    {
      hide ConditionsDuring;
      r := Ensure(h, o, call, RbacKey(h.Value(), kind), Rules, p, w);
      if r == None {
        MarkTrue(h, o, p, EnsureOwned(o, w, call, RbacKey(w.cr, kind), Rules, p).value);
      }
    }

    method ConfigureHorizonRbac(h: Horizon, o: Oracle, ghost w: World) returns (r: Option<Ctl>)
      requires Stands(h, o, w, AtServiceAccount)
      modifies this`cl, h`conditions
      ensures Follows(h, o, Rbac(o, w), AtInput, r)
    {
      hide ConditionsDuring, EnsureOwned;
      r := EnsureRbacObject(h, o, PutServiceAccount, ServiceAccountKind, AtServiceAccount, w);
      if r != None {
        return;
      }
      ghost var w1 := EnsureOwned(o, w, PutServiceAccount, RbacKey(w.cr, ServiceAccountKind), Rules, AtServiceAccount).value;
      r := EnsureRbacObject(h, o, PutRole, RoleKind, AtRole, w1);
      if r != None {
        return;
      }
      ghost var w2 := EnsureOwned(o, w1, PutRole, RbacKey(w.cr, RoleKind), Rules, AtRole).value;
      r := EnsureRbacObject(h, o, PutRoleBinding, RoleBindingKind, AtRoleBinding, w2);
    }

    // ---------- inputs ----------

    method ReadOpenStackSecret(h: Horizon, o: Oracle, ghost w: World) returns (r: Option<Ctl>, vars: Vars)
      requires Stands(h, o, w, AtInput)
      modifies h`conditions
      ensures FollowsWith(h, o, w, OpenStackSecret(lib, o, w), AtMemcached, r, vars)
    {
      hide ConditionsDuring, ConditionsAt;
      vars := map[];
      var name := h.spec.secret;
      if name == "" {
        r := Report(h, o, AtInput, MissingSecretDetail, Failed(NO_SECRET), w);
        return;
      }
      if GetOpenStackSecret in o.fail {
        r := Report(h, o, AtInput, ErrorDetail(o), Failed(o.text), w);
        return;
      }
      if Key(h.key.ns, name) !in cl.secrets {
        r := Report(h, o, AtInput, Detail(ErrorReason, Warning, WaitingMessage(name)), RequeueAfter, w);
        return;
      }
      vars := vars[name := lib.secretHash(cl.secrets[Key(h.key.ns, name)].data)];
      MarkTrue(h, o, AtInput, w);
      r := None;
    }

    method ReadMemcached(h: Horizon, o: Oracle, ghost w: World) returns (r: Option<Ctl>, m: MemcachedObject)
      requires Stands(h, o, w, AtMemcached)
      modifies h`conditions
      ensures FollowsWith(h, o, w, ReadyMemcached(o, w), AtTLS, r, m)
    {
      hide ConditionsDuring, ConditionsAt;
      var name := h.spec.memcachedInstance;
      m := *;
      if GetMemcached in o.fail {
        r := Report(h, o, AtMemcached, ErrorDetail(o), Failed(o.text), w);
        return;
      }
      if Key(h.key.ns, name) !in cl.memcacheds {
        r := Report(h, o, AtMemcached, Detail(ErrorReason, Warning, WaitingMessage(name)), RequeueAfter, w);
        return;
      }
      m := cl.memcacheds[Key(h.key.ns, name)];
      if !m.ready {
        r := Report(h, o, AtMemcached, Detail(RequestedReason, Info, WaitingMessage(name)), RequeueAfter, w);
        return;
      }
      MarkTrue(h, o, AtMemcached, w);
      r := None;
    }

    /** The CA bundle is checked first; the condition is not settled before the certificate is checked too. */
    method ValidateCABundle(h: Horizon, o: Oracle, configMapVars: Vars, ghost w: World) returns (r: Option<Ctl>, vars: Vars)
      requires Stands(h, o, w, AtTLS)
      modifies h`conditions
      ensures FollowsWith(h, o, w, CABundle(lib, o, w, configMapVars), AtTLS, r, vars)
    {
      hide ConditionsDuring, ConditionsAt;
      vars, r := configMapVars, None;
      var name := h.spec.tls.caBundleSecretName;
      if name != "" {
        if GetCABundle in o.fail {
          r := Report(h, o, AtTLS, ErrorDetail(o), Failed(o.text), w);
          return;
        }
        if Key(h.key.ns, name) !in cl.secrets {
          r := Report(h, o, AtTLS, Detail(ErrorReason, Warning, WaitingMessage(name)), Done, w);
          return;
        }
        var hash := lib.caHash(cl.secrets[Key(h.key.ns, name)].data);
        if hash == None {
          r := Report(h, o, AtTLS, ErrorDetail(o), Failed(o.text), w);
          return;
        }
        if hash.value != "" {
          vars := vars[CA_BUNDLE_KEY := hash.value];
        }
      }
    }

    method ValidateCert(h: Horizon, o: Oracle, configMapVars: Vars, ghost w: World) returns (r: Option<Ctl>, vars: Vars)
      requires Stands(h, o, w, AtTLS)
      modifies h`conditions
      ensures FollowsWith(h, o, w, Cert(lib, o, w, configMapVars), AtConfig, r, vars)
    {
      hide ConditionsDuring, ConditionsAt;
      vars := configMapVars;
      if h.spec.tls.Enabled() {
        var name := h.spec.tls.secretName.value;
        if GetCert in o.fail {
          r := Report(h, o, AtTLS, ErrorDetail(o), Failed(o.text), w);
          return;
        }
        if Key(h.key.ns, name) !in cl.secrets {
          r := Report(h, o, AtTLS, Detail(RequestedReason, Info, WaitingMessage(name)), Done, w);
          return;
        }
        var hash := lib.certHash(cl.secrets[Key(h.key.ns, name)].data);
        if hash == None {
          r := Report(h, o, AtTLS, ErrorDetail(o), Failed(o.text), w);
          return;
        }
        vars := vars[TLS_HASH_NAME := hash.value];
      }
      MarkTrue(h, o, AtTLS, w);
      r := None;
    }

    // ---------- configuration ----------

    /** Write a rendered file; the caller reports a failure. */
    method EnsureConfigMap(h: Horizon, o: Oracle, call: Call, name: string, text: string) returns (ok: bool)
      modifies this`cl
      ensures match PutOwned(o, old(cl), h.key, call, ConfigMapKey(h.Value(), name), Text(text))
              case Stored(c) => ok && cl == c
              case _ => !ok && cl == old(cl)
    {
      var ctl := CreateOrPatch(o, h.key, call, ConfigMapKey(h.Value(), name), Text(text));
      ok := ctl == Done;
    }

    method GenerateServiceConfigMaps(h: Horizon, o: Oracle, configMapVars: Vars, m: MemcachedObject, ghost w: World)
      returns (r: Option<Ctl>, vars: Vars)
      requires Stands(h, o, w, AtConfig)
      modifies this`cl, h`conditions
      ensures FollowsTo(h, o, ConfigMaps(lib, o, w, m, configMapVars), AtConfig, r, vars)
    {
      hide ConditionsDuring, ConditionsAt, PutOwned;
      vars := configMapVars;
      var failed := Failed(o.text);
      if GetKeystoneAPI in o.fail {
        r := Report(h, o, AtConfig, ErrorDetail(o), failed, w);
        return;
      }
      var endpoint := Get(cl.keystones, h.key.ns).GetOr(None);
      if endpoint == None {
        r := Report(h, o, AtConfig, ErrorDetail(o), failed, w);
        return;
      }
      var url := lib.parseUrl(h.endpoint);
      if url == None {
        r := Report(h, o, AtConfig, ErrorDetail(o), failed, w);
        return;
      }
      var text := lib.render(Parameters(h.Value(), endpoint.value, url.value, m), CustomData(h.spec));
      assert ConfigText(lib, w.cr, w.cl, m) == Some(text);
      var ok := EnsureConfigMap(h, o, PutConfigData, ConfigDataName(h.Value()), text);
      if !ok {
        r := Report(h, o, AtConfig, ErrorDetail(o), failed, w);
        return;
      }
      ghost var w1 := w.(cl := cl);
      ok := EnsureConfigMap(h, o, PutScripts, ScriptsName(h.Value()), lib.scripts);
      if !ok {
        r := Report(h, o, AtConfig, ErrorDetail(o), failed, w1);
        return;
      }
      vars := vars[ConfigDataName(h.Value()) := lib.textHash(text)];
      vars := vars[ScriptsName(h.Value()) := lib.textHash(lib.scripts)];
      r := None;
    }

    method EnsureHorizonSecret(h: Horizon, o: Oracle, configMapVars: Vars, ghost w: World) returns (r: Option<Ctl>, vars: Vars)
      requires Stands(h, o, w, AtConfig)
      modifies this`cl, this`trace, h`conditions
      ensures FollowsTo(h, o, HorizonSecret(lib, o, w, configMapVars), AtConfig, r, vars)
    {
      hide ConditionsDuring, ConditionsAt;
      vars, r := configMapVars, None;
      var k := HorizonSecretKey(h.key.ns);
      if GetHorizonSecret in o.fail {
        r := Report(h, o, AtConfig, ErrorDetail(o), Failed(o.text), w);
        return;
      }
      if k !in cl.secrets || !ValidHorizonSecret(cl.secrets[k]) {
        if GenerateKey in o.fail || PutHorizonSecret in o.fail || (k in cl.secrets && !Controllable(cl.secrets[k].owner, h.key)) {
          r := Report(h, o, AtConfig, ErrorDetail(o), Failed(o.text), w);
          return;
        }
        var data := NewSecretData(o);
        cl := cl.(secrets := cl.secrets[k := Secret(data, Some(h.key))]);
        trace := trace + [WroteSecret(data)];
        vars := vars[Volumes.SERVICE_NAME := lib.secretHash(data)];
      }
    }

    /** A changed hash is stored in the status, and ends the pass. */
    method CreateHashOfInputHashes(h: Horizon, o: Oracle, configMapVars: Vars, ghost w: World)
      returns (r: Option<Ctl>, hash: string)
      requires Stands(h, o, w, AtConfig)
      modifies h`hash, h`conditions
      ensures FollowsWith(h, o, w, HashGate(lib, o, w, configMapVars), AtService, r, hash)
    {
      hide ConditionsDuring;
      hash := "";
      if HashInputs in o.fail {
        return Some(Failed(o.text)), hash;
      }
      hash := lib.objectHash(configMapVars);
      if Get(h.hash, INPUT_HASH_NAME) != Some(hash) {
        h.hash := h.hash[INPUT_HASH_NAME := hash];
        ghost var cr := w.cr.(status := w.cr.status.(hash := w.cr.status.hash[INPUT_HASH_NAME := hash]));
        ConditionsOfSpec(o, w.cr, cr, AtConfig);
        assert h.Value() == StandingAt(o, cr, AtConfig);
        return Some(Done), hash;
      }
      MarkTrue(h, o, AtConfig, w);
      r := None;
    }

    // ---------- behind the gate ----------

    method GetEnabledServices(h: Horizon, o: Oracle, ghost w: World) returns (r: Option<Ctl>, enabledServices: map<string, string>)
      requires Stands(h, o, w, AtService)
      ensures FollowsWith(h, o, w, EnabledServices(o, w, KEYSTONE_SERVICES_WATCH), AtService, r, enabledServices)
    {
      hide ConditionsDuring;
      enabledServices := map[];
      var names := KEYSTONE_SERVICES_WATCH;
      assert names[..0] == [];
      for i := 0 to |names|
        invariant EnabledServices(o, w, names[..i]) == Next(enabledServices)
      {
        var service := names[i];
        assert names[..i + 1][..i] == names[..i];
        if GetKeystoneService(service) in o.fail {
          ServicesHalt(o, w, names, i + 1);
          return Some(Failed(o.text)), enabledServices;
        }
        ghost var before := enabledServices;
        enabledServices := enabledServices[service := "no"];
        if Key(h.key.ns, service) in cl.keystoneServices {
          enabledServices := enabledServices[service := "yes"];
        }
        assert enabledServices == before[service := YesNo(Key(w.cr.key.ns, service) in w.cl.keystoneServices)];
      }
      assert names[..|names|] == names;
      r := None;
    }

    method ReconcileInit(h: Horizon, o: Oracle, ghost w: World) returns (r: Option<Ctl>)
      requires Stands(h, o, w, AtService)
      modifies this`cl, h`conditions, h`endpoint
      ensures Follows(h, o, ServiceInit(lib, o, w), AtAttachments, r)
    {
      hide ConditionsDuring, EnsureOwned, ConditionsAt;
      var port, targetPort := Pods.HORIZON_SVC_PORT, Pods.HORIZON_PORT;
      if h.spec.tls.Enabled() {
        port, targetPort := Pods.HORIZON_SVC_PORT_TLS, Pods.HORIZON_PORT_TLS;
      }
      if NewService in o.fail {
        r := Report(h, o, AtService, ErrorDetail(o), Failed(o.text), w);
        return;
      }
      r := Ensure(h, o, PutService, ServiceKey(h.key.ns), Ports(port, targetPort), AtService, w);
      if r != None {
        return;
      }
      ghost var w1 := EnsureOwned(o, w, PutService, ServiceKey(w.cr.key.ns), ServicePorts(w.cr.spec), AtService).value;
      var endpoint := lib.apiEndpoint(h.key, h.spec);
      if endpoint == None {
        assert StoppedWith(o, w1.cr, Stop(AtService, None, Failed(o.text))) == StandingAt(o, w1.cr, AtService) by {
          SilentStop(o, w1.cr, AtService, Failed(o.text));
        }
        return Some(Failed(o.text));
      }
      MarkTrue(h, o, AtService, w1);
      ghost var cr := w1.cr.(status := w1.cr.status.(endpoint := endpoint.value));
      ConditionsOfSpec(o, w1.cr, cr, AtAttachments);
      h.endpoint := endpoint.value;
    }

    /** A missing attachment is only a condition and a request to come back: not an error. */
    method EnsureNAD(h: Horizon, o: Oracle, nAttach: seq<string>)
      returns (serviceAnnotations: map<string, string>, requeue: bool, err: bool)
      modifies h`conditions
      ensures match FindNADs(o.fail, cl.nads, h.key.ns, nAttach)
              case AllFound(nads) =>
                && !requeue && err == (BuildAnnotation in o.fail) && h.conditions == old(h.conditions)
                && (!err ==> serviceAnnotations == lib.networksAnnotation(nads))
              case _ =>
                && requeue && !err && serviceAnnotations == map[] && Is(h.conditions, NetworkAttachments, IsFalse)
                && h.conditions == old(h.conditions)[NetworkAttachments := h.conditions[NetworkAttachments]]
    {
      serviceAnnotations, requeue, err := map[], false, false;
      var nadList: seq<string> := [];
      assert nAttach[..0] == [];
      for i := 0 to |nAttach|
        invariant FindNADs(o.fail, cl.nads, h.key.ns, nAttach[..i]) == AllFound(nadList)
        invariant h.conditions == old(h.conditions) && !requeue && !err && serviceAnnotations == map[]
      {
        var netAtt := nAttach[i];
        assert nAttach[..i + 1][..i] == nAttach[..i];
        if GetNAD(netAtt) in o.fail {
          LookupHalts(o.fail, cl.nads, h.key.ns, nAttach, i + 1);
          h.Set(NetworkAttachments, IsFalse, ErrorDetail(o), o.now);
          return map[], true, false;
        }
        if Key(h.key.ns, netAtt) !in cl.nads {
          LookupHalts(o.fail, cl.nads, h.key.ns, nAttach, i + 1);
          h.Set(NetworkAttachments, IsFalse, Detail(ErrorReason, Warning, WaitingMessage(netAtt)), o.now);
          return map[], true, false;
        }
        nadList := nadList + [cl.nads[Key(h.key.ns, netAtt)]];
      }
      assert nAttach[..|nAttach|] == nAttach;
      if BuildAnnotation in o.fail {
        return map[], false, true;
      }
      serviceAnnotations := lib.networksAnnotation(nadList);
    }

    /** The caller looks at the error only: it overwrites the condition and drops the requeue. */
    method AttachNetworks(h: Horizon, o: Oracle, ghost w: World) returns (r: Option<Ctl>, annotations: map<string, string>)
      requires Stands(h, o, w, AtAttachments)
      modifies h`conditions
      ensures FollowsWith(h, o, w, Attachments(lib, o, w), AtTopology, r, annotations)
    {
      hide ConditionsDuring, ConditionsAt, FindNADs;
      var requeue, err;
      annotations, requeue, err := EnsureNAD(h, o, h.spec.networkAttachments);
      if err {
        r := Report(h, o, AtAttachments, ErrorDetail(o), Failed(o.text), w);
        return;
      }
      MarkingAdvances(o, w.cr, AtAttachments);
      h.Set(NetworkAttachments, IsTrue, TrueDetail, o.now);
      r := None;
    }

    /** The topology library: leave the previous topology, then take the one referred to. */
    method EnsureServiceTopology(o: Oracle, name: Key, ref: Option<Key>, last: Option<Key>, ghost w: World)
      returns (ok: bool, topology: Option<string>)
      requires cl == w.cl && trace == w.trace
      requires name == w.cr.key && ref == w.cr.TopologyRef() && last == w.cr.status.lastAppliedTopology
      modifies this`cl, this`trace
      ensures match EnsureTopology(o, w)
              case Next((w', t)) => ok && cl == w'.cl && trace == w'.trace && topology == t
              case Halt(w', _) => !ok && cl == w'.cl && trace == w'.trace
    {
      var finalizer := TopologyFinalizer(name);
      topology := None;
      if last.Some? && last != ref {
        if ReleaseTopology in o.fail {
          return false, None;
        }
        cl := cl.(topologies := Without(cl.topologies, last.value, finalizer));
        trace := trace + [Released(last.value)];
      }
      if ref.Some? {
        if AcquireTopology in o.fail || ref.value !in cl.topologies {
          return false, None;
        }
        topology := Some(cl.topologies[ref.value].spec);
        cl := cl.(topologies := With(cl.topologies, ref.value, finalizer));
        trace := trace + [Acquired(ref.value)];
      }
      ok := true;
    }

    method HandleTopology(h: Horizon, o: Oracle, ghost w: World) returns (r: Option<Ctl>, topology: Option<string>)
      requires Stands(h, o, w, AtTopology)
      modifies this`cl, this`trace, h`conditions, h`lastAppliedTopology
      ensures FollowsTo(h, o, EnsureTopology(o, w), AtDeployment, r, topology)
    {
      hide ConditionsDuring, ConditionsAt, EnsureTopology;
      TopologyStage(o, w);
      var ok;
      ok, topology := EnsureServiceTopology(o, h.key, h.Value().TopologyRef(), h.lastAppliedTopology, w);
      if !ok {
        r := Report(h, o, AtTopology, ErrorDetail(o), Failed(o.text), EnsureTopology(o, w).world);
        return;
      }
      ghost var w' := EnsureTopology(o, w).value.0;
      ConditionsOfSpec(o, w.cr, w'.cr, AtTopology);
      if h.spec.topologyRef.Some? {
        h.lastAppliedTopology := h.Value().TopologyRef();
        MarkTrue(h, o, AtTopology, w');
      } else {
        h.lastAppliedTopology := None;
        SameConditionsDuring(o, w'.cr, AtTopology, AtDeployment);
      }
      r := None;
    }

    /** Build the Deployment and write it. */
    method ApplyDeployment(h: Horizon, o: Oracle, hash: string, m: MemcachedObject, services: map<string, string>,
                           annotations: map<string, string>, topology: Option<string>, ghost w: World)
      returns (r: Option<Ctl>, d: DeploymentObject)
      requires Stands(h, o, w, AtDeployment)
      modifies this`cl, this`trace, h`conditions, h`readyCount
      ensures FollowsTo(h, o, WriteDeployment(o, w, Desired(lib, w.cr, hash, m, services, annotations, topology)), AtNetwork, r, d)
    {
      hide ConditionsDuring, ConditionsAt, Pods.BuildDeployment, PutDeploymentObject;
      var spec := PodBuilder.Deployment(lib.propagate, h.key, h.spec, hash, Labels(h.key), annotations, services, topology,
                                        m.mtls, BuildTLS in o.fail);
      if spec == None {
        r := Report(h, o, AtDeployment, ErrorDetail(o), Failed(o.text), w);
        d := *;
        return;
      }
      r, d := WriteDeploymentObject(h, o, spec.value, w);
    }

    /** Write the Deployment, and take over its ready count once it is up to date. */
    method WriteDeploymentObject(h: Horizon, o: Oracle, spec: Pods.DeploymentSpec, ghost w: World)
      returns (r: Option<Ctl>, d: DeploymentObject)
      requires Stands(h, o, w, AtDeployment) && !(BuildTLS in o.fail && w.cr.spec.tls.Enabled())
      modifies this`cl, this`trace, h`conditions, h`readyCount
      ensures FollowsTo(h, o, WriteDeployment(o, w, spec), AtNetwork, r, d)
    {
      hide ConditionsDuring, ConditionsAt, PutDeploymentObject;
      var k := DeploymentKey(h.key.ns);
      if PutDeployment in o.fail || (k in cl.deployments && !Controllable(cl.deployments[k].owner, h.key)) {
        r := Report(h, o, AtDeployment, ErrorDetail(o), Failed(o.text), w);
        d := *;
        return;
      }
      if PutDeployment in o.wait {
        r := Report(h, o, AtDeployment, RunningDetail, RequeueAfter, w);
        d := *;
        return;
      }
      d := PutDeploymentObject(Get(cl.deployments, k), h.key, spec);
      cl := cl.(deployments := cl.deployments[k := d]);
      trace := trace + [WroteDeployment(spec)];
      SameConditionsDuring(o, w.cr, AtDeployment, AtNetwork);
      if d.generation == d.observedGeneration {
        ConditionsOfSpec(o, w.cr, w.cr.(status := w.cr.status.(readyCount := d.readyReplicas)), AtNetwork);
        h.readyCount := d.readyReplicas;
      }
      r := None;
    }

    method VerifyNetworkStatus(h: Horizon, o: Oracle, ghost w: World) returns (r: Option<Ctl>)
      requires Stands(h, o, w, AtNetwork)
      modifies this`trace, h`conditions, h`networkAttachments
      ensures Follows(h, o, CheckNetwork(lib, o, w), AtEnd, r)
    {
      hide ConditionsDuring, ConditionsAt;
      if h.spec.replicas > 0 {
        if VerifyNetwork in o.fail {
          r := Report(h, o, AtNetwork, ErrorDetail(o), Failed(o.text), w);
          return;
        }
        var (networkReady, status) := lib.verifyNetwork(
          h.spec.networkAttachments, Get(cl.pods, h.key).GetOr(""), h.readyCount);
        ghost var cr := w.cr.(status := w.cr.status.(networkAttachments := status));
        ghost var w1 := w.(cr := cr, trace := w.trace + [Verified(networkReady)]);
        ConditionsOfSpec(o, w.cr, cr, AtNetwork);
        h.networkAttachments := status;
        trace := trace + [Verified(networkReady)];
        if !networkReady {
          r := Report(h, o, AtNetwork, ErrorDetail(o), Failed(o.text), w1);
          return;
        }
        SameConditionsDuring(o, cr, AtNetwork, AtEnd);
        NetworkIsMarked(o, cr);
        h.Set(NetworkAttachments, IsTrue, TrueDetail, o.now);
      } else {
        SameConditionsDuring(o, w.cr, AtNetwork, AtEnd);
      }
      r := None;
    }

    /** The end of the pass: the Deployment is ready or not, and Ready follows the other conditions. */
    method Finish(h: Horizon, o: Oracle, ready: bool, ghost w: World)
      requires Stands(h, o, w, AtEnd)
      modifies h`conditions
      ensures Halted(h, o, w, Stop(AtEnd, if ready then None else Some(RunningDetail), Done))
    {
      hide ConditionsDuring;
      if ready {
        h.Set(Deployment, IsTrue, TrueDetail, o.now);
      } else {
        h.Set(Deployment, IsFalse, RunningDetail, o.now);
        assert Deployment in h.conditions && h.conditions[Deployment].state == IsFalse;
      }
      if AllSubConditionIsTrue(h.conditions) {
        h.Set(Ready, IsTrue, TrueDetail, o.now);
      }
    }

    // ---------- the pass ----------

    /** The stages in front of the hash gate and the gate itself. */
    method PrepareInputs(h: Horizon, o: Oracle, ghost w: World) returns (r: Option<Ctl>, hash: string, m: MemcachedObject)
      requires Stands(h, o, w, AtServiceAccount)
      modifies this, h
      ensures match Prepare(lib, o, w)
              case Next((w', hash', m')) => r == None && hash == hash' && m == m' && Stands(h, o, w', AtService)
              case Halt(w', stop) => r == Some(stop.ctl) && Halted(h, o, w', stop)
    {
      hide ConditionsDuring, ConditionsAt, Rbac, OpenStackSecret, ReadyMemcached, CABundle, Cert, ConfigMaps;
      hide HorizonSecret, HashGate;
      hide StandingAt, StoppedWith;
      hash, m := "", *;
      r := ConfigureHorizonRbac(h, o, w);
      if r != None { return; }
      ghost var w1 := Rbac(o, w).value;
      var vars;
      r, vars := ReadOpenStackSecret(h, o, w1);
      if r != None { return; }
      r, m := ReadMemcached(h, o, w1);
      if r != None { return; }
      r, vars := ValidateCABundle(h, o, vars, w1);
      if r != None { return; }
      r, vars := ValidateCert(h, o, vars, w1);
      if r != None { return; }
      ghost var before := vars;
      r, vars := GenerateServiceConfigMaps(h, o, vars, m, w1);
      if r != None { return; }
      ghost var w2 := ConfigMaps(lib, o, w1, m, before).value.0;
      before := vars;
      r, vars := EnsureHorizonSecret(h, o, vars, w2);
      if r != None { return; }
      ghost var w3 := HorizonSecret(lib, o, w2, before).value.0;
      r, hash := CreateHashOfInputHashes(h, o, vars, w3);
    }

    /** The stages from the gate to the written Deployment. */
    method DeployHorizon(h: Horizon, o: Oracle, hash: string, m: MemcachedObject, ghost w: World)
      returns (r: Option<Ctl>, d: DeploymentObject)
      requires Stands(h, o, w, AtService)
      modifies this, h
      ensures FollowsTo(h, o, Deploy(lib, o, w, hash, m), AtNetwork, r, d)
    {
      hide ConditionsDuring, ConditionsAt, EnabledServices, ServiceInit, Attachments, EnsureTopology;
      hide WriteDeployment, Pods.BuildDeployment;
      hide StandingAt, StoppedWith, Desired;
      d := *;
      var services, annotations, topology;
      r, services := GetEnabledServices(h, o, w);
      if r != None { return; }
      r := ReconcileInit(h, o, w);
      if r != None { return; }
      ghost var w1 := ServiceInit(lib, o, w).value;
      r, annotations := AttachNetworks(h, o, w1);
      if r != None { return; }
      r, topology := HandleTopology(h, o, w1);
      if r != None { return; }
      ghost var w2 := EnsureTopology(o, w1).value.0;
      SameDesired(lib, o, w, w1, w2, hash, m, services, annotations, topology);
      r, d := ApplyDeployment(h, o, hash, m, services, annotations, topology, w2);
    }

    method ReconcileNormal(h: Horizon, o: Oracle, ghost w: World) returns (r: Ctl)
      requires Stands(h, o, w, AtServiceAccount)
      modifies this, h
      ensures var (w', stop) := Normal(lib, o, w); r == stop.ctl && Halted(h, o, w', stop)
    {
      hide ConditionsDuring, ConditionsAt, Prepare, Deploy, CheckNetwork, StandingAt, StoppedWith;
      var stopped, hash, m := PrepareInputs(h, o, w);
      if stopped.Some? {
        return stopped.value;
      }
      ghost var w1 := Prepare(lib, o, w).value.0;
      var d;
      stopped, d := DeployHorizon(h, o, hash, m, w1);
      if stopped.Some? {
        return stopped.value;
      }
      ghost var w2 := Deploy(lib, o, w1, hash, m).value.0;
      stopped := VerifyNetworkStatus(h, o, w2);
      if stopped.Some? {
        return stopped.value;
      }
      Finish(h, o, d.IsReady(), CheckNetwork(lib, o, w2).value);
      return Done;
    }

    method ReconcileDelete(h: Horizon, o: Oracle, ghost w: World) returns (r: Ctl)
      requires Stands(h, o, w, AtStart)
      modifies this, h
      ensures var (w', stop) := Delete(o, w); r == stop.ctl && Halted(h, o, w', stop)
    {
      hide ConditionsDuring;
      var last := h.lastAppliedTopology;
      if last.Some? {
        if ReleaseTopology in o.fail {
          return Failed(o.text);
        }
        cl := cl.(topologies := Without(cl.topologies, last.value, TopologyFinalizer(h.key)));
        trace := trace + [Released(last.value)];
      }
      ConditionsOfSpec(o, w.cr, w.cr.(finalizer := false), AtStart);
      h.finalizer := false;
      return Done;
    }

    /** Fetch the instance, run the pass on it, restore times, mirror Ready, and patch what changed. */
    method Reconcile(key: Key, o: Oracle) returns (r: Ctl)
      requires key in cl.horizons ==> cl.horizons[key].key == key && Lives(cl.horizons[key])
      modifies this
      ensures (cl, r) == Passes.Reconcile(lib, o, key, old(cl))
    {
      hide ConditionsDuring, ConditionsAt, Normal, Passes.Delete, Epilogue, StandingAt;
      if GetInstance in o.fail {
        return Failed(o.text);
      }
      if key !in cl.horizons {
        return Done;
      }
      ghost var fetched, before := cl.horizons[key], cl;
      var h := new Horizon(cl.horizons[key]);
      var isNewInstance := h.conditions == map[];
      var savedConditions := h.conditions;
      trace := [];
      r := RunPass(h, o, isNewInstance, fetched);
      PatchDeferred(h, o, savedConditions);
      ReportedAs(lib, o, fetched, before, h.Value());
      PassFrame(lib, o, fetched, before);
      if PatchInstance in o.fail {
        assert before.horizons[key := fetched] == before.horizons;
        return Failed(o.text);
      }
      cl := Store(cl, h.Value());
    }

    /** What every return from a pass runs through: restore transition times, mirror an undecided Ready. */
    method PatchDeferred(h: Horizon, o: Oracle, savedConditions: Conditions)
      modifies h`conditions
      ensures h.conditions == Epilogue(lib, o, old(h.conditions), savedConditions)
    {
      hide RestoreLastTransitionTimes, MirrorState;
      h.conditions := RestoreLastTransitionTimes(h.conditions, savedConditions);
      if Is(h.conditions, Ready, IsUnknown) {
        h.Set(Ready, MirrorState(h.conditions), lib.mirror(h.conditions - {Ready}), o.now);
      }
    }

    /** The pass without its epilogue. */
    method RunPass(h: Horizon, o: Oracle, isNewInstance: bool, ghost fetched: CR) returns (r: Ctl)
      requires h.Value() == fetched && isNewInstance == IsNew(fetched) && trace == []
      modifies this, h
      ensures var (w, stop) := Body(lib, o, fetched, old(cl)); r == stop.ctl && Halted(h, o, w, stop)
    {
      hide ConditionsDuring, Normal, Passes.Delete;
      ghost var w := Start(fetched, cl);
      h.conditions := Init(o.stray, o.now);
      h.observedGeneration := h.generation;
      StartConditions(o, w.cr);
      var added := false;
      if !h.deleting {
        added := !h.finalizer;
        h.finalizer := true;
      }
      if added || isNewInstance {
        ConditionsOfSpec(o, w.cr, w.cr.(finalizer := true), AtStart);
        return Done;
      }
      if h.deleting {
        r := ReconcileDelete(h, o, w);
        return;
      }
      SameConditionsDuring(o, w.cr, AtStart, AtServiceAccount);
      r := ReconcileNormal(h, o, w);
    }
  }

  /** What the epilogue makes of a halted instance is what the pass reports. */
  lemma ReportedAs(lib: Lib, o: Oracle, fetched: CR, cl: Cluster, h: CR)
    requires var (w, stop) := Body(lib, o, fetched, cl);
      h == w.cr.(status := w.cr.status.(conditions := Epilogue(lib, o, ConditionsAt(o, w.cr, stop), fetched.status.conditions)))
    ensures PatchInstance !in o.fail ==> Pass(lib, o, fetched, cl).cr == h
  {
    hide Body, Epilogue, ConditionsAt;
  }
}
