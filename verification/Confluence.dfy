/**
  The end of calm runs: which endpoint, input hash, topology and Deployment they reach, when they
  reach it, what of it the random key decides, and that nothing is left to do behind it.
  */
module Confluence {
  import opened Wrappers
  import opened Conditions
  import opened Api
  import opened Clusters
  import opened Passes
  import opened Reading
  import opened Facts
  import opened Safety
  import opened Steadiness
  import opened Quiet
  import opened Watches
  import opened Runs
  import opened TopologyProtocol
  import opened Wakeups
  import opened Changes
  import opened Convergence
  import Volumes
  import Pods

  // ---------- the goal ----------

  function WithEndpoint(cr: CR, endpoint: string): CR {
    cr.(status := cr.status.(endpoint := endpoint))
  }

  function KeyData(key: Password): map<string, string> {
    map[SECRET_KEY_FIELD := key]
  }

  /** A Horizon secret with this key is as good a CA bundle or certificate as the specification takes it for. */
  predicate KeyServes(lib: Lib, spec: Spec, key: Password) {
    && (spec.tls.caBundleSecretName == Volumes.SERVICE_NAME ==> lib.caHash(KeyData(key)).Some?)
    && (spec.tls.secretName.GetOr("") == Volumes.SERVICE_NAME ==> lib.certHash(KeyData(key)).Some?)
  }

  /** Nothing in the environment stands in the way of a Deployment. */
  predicate Usable(lib: Lib, cr: CR, cl: Cluster) {
    && MayPrepare(cr, cl) && Serviceable(lib, cr, cl) && TopologyUsable(cr, cl) && MayDeploy(cr, cl)
    && AllVars(lib, WithEndpoint(cr, lib.apiEndpoint(cr.key, cr.spec).value), cl).Some?
  }

  datatype Goal = Goal(endpoint: string, hash: string, topology: Option<Key>, deployment: Pods.DeploymentSpec)

  /** The end of every run, read off the specification and the cluster; of the status nothing counts. */
  function GoalOf(lib: Lib, cr: CR, cl: Cluster): Goal
    requires Usable(lib, cr, cl)
  {
    var endpoint := lib.apiEndpoint(cr.key, cr.spec).value;
    var hash := lib.objectHash(AllVars(lib, WithEndpoint(cr, endpoint), cl).value);
    Goal(endpoint, hash, cr.TopologyRef(),
         DesiredSpec(lib, {}, cr, cl, hash, MemcachedOf(WithEndpoint(cr, endpoint), cl).value))
  }

  predicate Reached(goal: Goal, core: Core) {
    && core.endpoint == goal.endpoint && core.hash == Some(goal.hash)
    && core.lastTopology == goal.topology && core.deployment == Some(goal.deployment)
  }

  /** The stored endpoint is the one part of the status that can keep a pass from the gate. */
  lemma EndpointDecides(lib: Lib, cr: CR, cl: Cluster, endpoint: string)
    requires AllVars(lib, WithEndpoint(cr, endpoint), cl).Some?
    ensures lib.parseUrl(endpoint).Some?
    ensures AllVars(lib, cr, cl).Some? <==> lib.parseUrl(cr.status.endpoint).Some?
    ensures MemcachedOf(WithEndpoint(cr, endpoint), cl) == MemcachedOf(cr, cl)
    ensures cr.status.endpoint == endpoint ==> WithEndpoint(cr, endpoint) == cr
  {
  }

  /** A settled resource is at the goal, unless its stored endpoint cannot be parsed. */
  lemma SettledAtGoal(lib: Lib, cr: CR, cl: Cluster)
    requires Usable(lib, cr, cl) && Distance(lib, cr, cl) == 0
    ensures Reached(GoalOf(lib, cr, cl), CoreOf(cr, cl)) <==> lib.parseUrl(cr.status.endpoint).Some?
    ensures lib.parseUrl(cr.status.endpoint).Some? ==> HasValidSecret(cl.secrets, cr.key.ns)
  {
    hide AllVars, MemcachedOf, DesiredSpec, HasValidSecret, MayPrepare, SpecIn, TopologyUsable, MayDeploy;
    EndpointDecides(lib, cr, cl, lib.apiEndpoint(cr.key, cr.spec).value);
    if AllVars(lib, cr, cl).Some? {
      InputsThere(lib, cr, cl);
    }
  }

  lemma ServiceHasEndpoint(lib: Lib, cr: CR, cl: Cluster)
    requires Serviceable(lib, cr, cl)
    ensures lib.apiEndpoint(cr.key, cr.spec).Some?
  {
  }

  lemma EndpointIsStatus(a: CR, acl: Cluster, b: CR, bcl: Cluster, e: string)
    requires SameEnvironment(a, acl, b, bcl)
    ensures SameEnvironment(WithEndpoint(a, e), acl, WithEndpoint(b, e), bcl)
    ensures HorizonSecretOf(WithEndpoint(a, e), acl) == HorizonSecretOf(a, acl)
    ensures HorizonSecretOf(WithEndpoint(b, e), bcl) == HorizonSecretOf(b, bcl)
  {
    hide SamePermissions, SameSpecs;
  }

  /** Horizon secrets that count the same in their roles lead to the same goal. */
  lemma RolesDecideGoal(lib: Lib, a: CR, acl: Cluster, b: CR, bcl: Cluster)
    requires SameEnvironment(a, acl, b, bcl) && Usable(lib, a, acl) && Usable(lib, b, bcl)
    requires SameRoles(lib, a.spec, HorizonSecretOf(a, acl), HorizonSecretOf(b, bcl))
    ensures GoalOf(lib, b, bcl) == GoalOf(lib, a, acl)
  {
    hide AllVars, MemcachedOf, DesiredSpec, MayPrepare, TopologyUsable, MayDeploy, SameRoles, SameEnvironment, Serviceable;
    hide TopologySpec, HasValidSecret, HorizonSecretOf;
    SameUser(a, acl, b, bcl);
    EnvironmentDetermines(lib, a, acl, b, bcl);
    assert lib.apiEndpoint(a.key, a.spec).Some? by { ServiceHasEndpoint(lib, a, acl); }
    var e := lib.apiEndpoint(a.key, a.spec).value;
    EndpointIsStatus(a, acl, b, bcl, e);
    InputsAgree(lib, WithEndpoint(a, e), acl, WithEndpoint(b, e), bcl);
    EndpointDecides(lib, a, acl, e);
    EndpointDecides(lib, b, bcl, e);
    InputsThere(lib, WithEndpoint(a, e), acl);
    var hash := lib.objectHash(AllVars(lib, WithEndpoint(a, e), acl).value);
    SameDescription(lib, {}, a, b, acl, bcl, hash, MemcachedOf(a, acl).value);
  }

  // ---------- a pass keeps the environment usable ----------

  /** The secret that a pass creates serves wherever the old one was read, if its key does. */
  lemma NewSecretServes(lib: Lib, o: Oracle, cr: CR, cl: Cluster, b: CR, bcl: Cluster)
    requires AllVars(lib, cr, cl).Some? && KeyServes(lib, cr.spec, o.newKey)
    requires SameEnvironment(cr, cl, b, bcl) && b.status.endpoint == cr.status.endpoint
    requires HorizonSecretOf(b, bcl) == Some(Secret(KeyData(o.newKey), Some(cr.key)))
    ensures AllVars(lib, b, bcl).Some?
  {
    hide MemcachedOf, MayPrepare, MayDeploy, SamePermissions, SameSpecs, MaySecure;
    EnvironmentDetermines(lib, cr, cl, b, bcl);
    InputsThere(lib, cr, cl);
    forall n | n != Volumes.SERVICE_NAME
      ensures SecretOf(cr, cl, n) == SecretOf(b, bcl, n)
    {
    }
  }

  /** And only then. */
  lemma ReadKeyServes(lib: Lib, cr: CR, cl: Cluster, key: Password)
    requires AllVars(lib, cr, cl).Some? && HorizonSecretOf(cr, cl) == Some(Secret(KeyData(key), Some(cr.key)))
    ensures KeyServes(lib, cr.spec, key)
  {
    hide MemcachedOf, ConfigText;
  }

  /** Nothing but the environment and the secrets decides whether it is usable. */
  lemma UsableThere(lib: Lib, a: CR, acl: Cluster, b: CR, bcl: Cluster)
    requires SameEnvironment(a, acl, b, bcl) && Usable(lib, a, acl) && bcl.secrets == acl.secrets
    ensures Usable(lib, b, bcl)
  {
    hide AllVars, SameEnvironment, MayPrepare, Serviceable, TopologyUsable, MayDeploy, HasValidSecret;
    hide HorizonSecretOf, SameRoles;
    EnvironmentDetermines(lib, a, acl, b, bcl);
    SameUser(a, acl, b, bcl);
    assert lib.apiEndpoint(a.key, a.spec).Some? by { ServiceHasEndpoint(lib, a, acl); }
    var e := lib.apiEndpoint(a.key, a.spec).value;
    EndpointIsStatus(a, acl, b, bcl, e);
    SameSecretSameRoles(lib, a, acl, b, bcl);
    InputsAgree(lib, WithEndpoint(a, e), acl, WithEndpoint(b, e), bcl);
  }

  lemma PassKeepsUsable(lib: Lib, o: Oracle, cr: CR, cl: Cluster)
    requires !cr.deleting && Usable(lib, cr, cl)
    requires Pass(lib, o, cr, cl).cl.secrets == cl.secrets || KeyServes(lib, cr.spec, o.newKey)
    ensures var out := Pass(lib, o, cr, cl); SameEnvironment(cr, cl, out.cr, out.cl) && Usable(lib, out.cr, out.cl)
  {
    hide Pass, AllVars, SameEnvironment, MayPrepare, Serviceable, TopologyUsable, MayDeploy, HasValidSecret;
    hide SecretsAfter, HorizonSecretOf, SameRoles, KeyServes;
    var out := Pass(lib, o, cr, cl);
    PassKeepsEnvironment(lib, o, cr, cl);
    EnvironmentDetermines(lib, cr, cl, out.cr, out.cl);
    SameUser(cr, cl, out.cr, out.cl);
    assert lib.apiEndpoint(cr.key, cr.spec).Some? by { ServiceHasEndpoint(lib, cr, cl); }
    var e := lib.apiEndpoint(cr.key, cr.spec).value;
    EndpointIsStatus(cr, cl, out.cr, out.cl, e);
    SecretIsStable(lib, o, cr, cl);
    NewSecretIsValid(o, cr, cl);
    if out.cl.secrets == cl.secrets {
      UsableThere(lib, cr, cl, out.cr, out.cl);
    } else {
      NewSecretIs(o, cr, cl, out.cr, out.cl);
      NewSecretServes(lib, o, WithEndpoint(cr, e), cl, WithEndpoint(out.cr, e), out.cl);
    }
  }

  lemma SameSecretSameRoles(lib: Lib, a: CR, acl: Cluster, b: CR, bcl: Cluster)
    requires a.key == b.key && acl.secrets == bcl.secrets
    ensures SameRoles(lib, a.spec, HorizonSecretOf(a, acl), HorizonSecretOf(b, bcl))
  {
  }

  lemma NewSecretIs(o: Oracle, cr: CR, cl: Cluster, b: CR, bcl: Cluster)
    requires b.key == cr.key && bcl.secrets == SecretsAfter(o, cr, cl) && bcl.secrets != cl.secrets
    ensures HorizonSecretOf(b, bcl) == Some(Secret(KeyData(o.newKey), Some(cr.key)))
    ensures !HasValidSecret(cl.secrets, cr.key.ns)
  {
  }

  // ---------- the key at the end ----------

  lemma PassKeepsKey(lib: Lib, o: Oracle, cr: CR, cl: Cluster)
    requires HasValidSecret(cl.secrets, cr.key.ns)
    ensures var out := Pass(lib, o, cr, cl);
      HorizonSecretOf(out.cr, out.cl) == HorizonSecretOf(cr, cl) && HasValidSecret(out.cl.secrets, out.cr.key.ns)
  {
    hide Pass, HasValidSecret;
    SecretIsStable(lib, o, cr, cl);
    PassFrame(lib, o, cr, cl);
  }

  lemma {:induction false} RunsKeepKey(lib: Lib, os: seq<Oracle>, cr: CR, cl: Cluster)
    requires HasValidSecret(cl.secrets, cr.key.ns)
    ensures var (cr', cl') := After(lib, os, cr, cl); HorizonSecretOf(cr', cl') == HorizonSecretOf(cr, cl)
  {
    hide Pass, HasValidSecret, HorizonSecretOf;
    if os != [] {
      PassKeepsKey(lib, os[0], cr, cl);
      RunsKeepKey(lib, os[1..], Pass(lib, os[0], cr, cl).cr, Pass(lib, os[0], cr, cl).cl);
    }
  }

  /** A run that finds no valid secret ends with the key that its first pass to the gate drew. */
  lemma FirstKeyStays(lib: Lib, os: seq<Oracle>, cr: CR, cl: Cluster)
    requires os != [] && Calm(os[0]) && Works(cr) && Unblocked(lib, cr, cl) && !HasValidSecret(cl.secrets, cr.key.ns)
    ensures var (cr', cl') := After(lib, os, cr, cl);
      HorizonSecretOf(cr', cl') == Some(Secret(KeyData(os[0].newKey), Some(cr.key)))
  {
    hide Pass, Unblocked, HashRead, SpecNext, EndpointNext, LastNext;
    CalmPass(lib, os[0], cr, cl);
    PassFrame(lib, os[0], cr, cl);
    RunsKeepKey(lib, os[1..], Pass(lib, os[0], cr, cl).cr, Pass(lib, os[0], cr, cl).cl);
  }

  /** Behind the gate the endpoint is kept, or it becomes that of the service. */
  lemma EndpointBehindGate(lib: Lib, o: Oracle, g: World, m: MemcachedObject, w: World, stop: Stop)
    requires Continues(lib, o, g, m, w, stop)
    ensures w.cr.status.endpoint == g.cr.status.endpoint || lib.apiEndpoint(g.cr.key, g.cr.spec) == Some(w.cr.status.endpoint)
  {
    hide Unfinished, Rolled, Checked, Verification, GateDeployment, TopologyUsable, MayDeploy;
    if Order(stop.position) <= 10 {
      UnfinishedEndpoint(lib, g, w);
    } else {
      RolledEndpoint(lib, o, g, m);
    }
  }

  lemma UnfinishedEndpoint(lib: Lib, g: World, w: World)
    requires Unfinished(lib, g, w)
    ensures w.cr.status.endpoint == g.cr.status.endpoint || lib.apiEndpoint(g.cr.key, g.cr.spec) == Some(w.cr.status.endpoint)
  {
    hide TopologiesHeld, TopologiesLeft, TopologyCalls, TopologyUsable, Moved;
  }

  lemma RolledEndpoint(lib: Lib, o: Oracle, g: World, m: MemcachedObject)
    requires lib.apiEndpoint(g.cr.key, g.cr.spec).Some?
    ensures var r := Rolled(lib, o, g, m);
      && lib.apiEndpoint(g.cr.key, g.cr.spec) == Some(r.cr.status.endpoint)
      && Checked(lib, r.cr, r.cl).status.endpoint == r.cr.status.endpoint
  {
    hide GateDeployment, ClusterDeployed, TopologyCalls, WrittenSpec, Verification;
  }

  lemma NormalEndpoint(lib: Lib, o: Oracle, w: World)
    ensures var e := Normal(lib, o, w).0.cr.status.endpoint;
      && (lib.parseUrl(w.cr.status.endpoint).None? ==> e == w.cr.status.endpoint)
      && (e == w.cr.status.endpoint || lib.apiEndpoint(w.cr.key, w.cr.spec) == Some(e))
  {
    hide Normal, Prepare, Continues, HashRead, RbacInPlace, ConfigInPlace, InputVars, MemcachedOf;
    NormalMeaning(lib, o, w);
    GateMeaning(lib, o, w);
    if Prepare(lib, o, w).Next? {
      var (g, hash, m) := Prepare(lib, o, w).value;
      EndpointBehindGate(lib, o, g, m, Normal(lib, o, w).0, Normal(lib, o, w).1);
    }
  }

  /**
    Whatever happens in a pass, an endpoint that cannot be parsed stays, and one that can makes way only
    for the one that the library returns.
    */
  lemma ParsingIsKept(lib: Lib, o: Oracle, cr: CR, cl: Cluster)
    ensures var before, after := cr.status.endpoint, Pass(lib, o, cr, cl).cr.status.endpoint;
      && (lib.parseUrl(before).None? ==> after == before)
      && (after == before || lib.apiEndpoint(cr.key, cr.spec) == Some(after))
      && (lib.apiEndpoint(cr.key, cr.spec).Some? && lib.parseUrl(lib.apiEndpoint(cr.key, cr.spec).value).Some? ==>
          (lib.parseUrl(after).Some? <==> lib.parseUrl(before).Some?))
  {
    hide Normal, Epilogue, ConditionsAt;
    if Works(cr) {
      NormalEndpoint(lib, o, Start(cr, cl));
    }
  }

  // ---------- endpoints over runs ----------

  /** Everything that the library returns as an endpoint can be parsed, and so can a missing one. */
  ghost predicate ParsesItsOwn(lib: Lib) {
    && lib.parseUrl("").Some?
    && forall key, spec :: lib.apiEndpoint(key, spec).Some? ==> lib.parseUrl(lib.apiEndpoint(key, spec).value).Some?
  }

  ghost predicate EndpointsParse(lib: Lib, cl: Cluster) {
    forall k | k in cl.horizons :: lib.parseUrl(cl.horizons[k].status.endpoint).Some?
  }

  lemma EndpointsParseNext(lib: Lib, s: System, e: Event)
    requires ParsesItsOwn(lib) && WellFormed(s.cl) && EndpointsParse(lib, s.cl) && Possible(s, e)
    ensures EndpointsParse(lib, Successor(lib, s, e).cl)
  {
    hide Woken, Ledger, Pass, TopologiesStep;
    if e.Reconciled? && e.key in s.cl.horizons {
      PassFrame(lib, e.o, s.cl.horizons[e.key], s.cl);
      ParsingIsKept(lib, e.o, s.cl.horizons[e.key], s.cl);
    }
  }

  /** Then no run ever stores an endpoint that cannot be parsed. */
  lemma {:induction false} EndpointsParseOverRuns(lib: Lib, states: seq<System>, events: seq<Event>, i: nat)
    requires IsRun(lib, states, events) && i < |states| && ParsesItsOwn(lib)
    requires WellFormed(states[0].cl) && EndpointsParse(lib, states[0].cl)
    ensures EndpointsParse(lib, states[i].cl)
  {
    hide WellFormed, Successor, Possible, EndpointsParse, ParsesItsOwn;
    if i > 0 {
      EndpointsParseOverRuns(lib, states, events, i - 1);
      WellFormedOverRuns(lib, states, events, i - 1);
      EndpointsParseNext(lib, states[i - 1], events[i - 1]);
    }
  }

  lemma UsableParses(lib: Lib, cr: CR, cl: Cluster)
    requires Usable(lib, cr, cl)
    ensures lib.apiEndpoint(cr.key, cr.spec).Some? && lib.parseUrl(lib.apiEndpoint(cr.key, cr.spec).value).Some?
  {
    hide AllVars, MayPrepare, TopologyUsable, MayDeploy;
    EndpointDecides(lib, cr, cl, lib.apiEndpoint(cr.key, cr.spec).value);
  }

  /** The key that a run draws when it comes to the Horizon secret: a pass that stops early draws none. */
  function DrawnKey(os: seq<Oracle>, cr: CR): Password
    requires os != []
  {
    if StopsEarly(cr) && |os| > 1 then os[1].newKey else os[0].newKey
  }

  /** The run finds a valid secret, or draws a key that serves. */
  predicate HasKey(lib: Lib, os: seq<Oracle>, cr: CR, cl: Cluster) {
    HasValidSecret(cl.secrets, cr.key.ns) || (os != [] ==> KeyServes(lib, cr.spec, DrawnKey(os, cr)))
  }

  /** A pass that creates the secret has read its inputs, so it is neither early nor blocked. */
  lemma CreationIsUnblocked(lib: Lib, o: Oracle, cr: CR, cl: Cluster)
    requires Pass(lib, o, cr, cl).cl.secrets != cl.secrets
    ensures Works(cr) && AllVars(lib, cr, cl).Some? && !HasValidSecret(cl.secrets, cr.key.ns)
  {
    hide Normal, BeforeGate, SecretsAfter, Report, AllVars, HasValidSecret, Delete, AtGate;
    NewSecretIsValid(o, cr, cl);
    SecretIsStable(lib, o, cr, cl);
    if Works(cr) {
      NormalSecrets(lib, o, Start(cr, cl));
      ReachingTheGate(lib, o, Start(cr, cl));
      StartReads(lib, cr, cl);
      GateReads(lib, o, Start(cr, cl));
    } else {
      IdleSecrets(lib, o, cr, cl);
    }
  }

  lemma GateReads(lib: Lib, o: Oracle, w: World)
    ensures forall g | AtGate(lib, o, w, g) :: AllVars(lib, w.cr, w.cl).Some?
  {
    hide AllVars;
  }

  lemma StepKeepsKey(lib: Lib, os: seq<Oracle>, cr: CR, cl: Cluster)
    requires os != [] && Calm(os[0]) && !cr.deleting && Usable(lib, cr, cl) && HasKey(lib, os, cr, cl)
    requires lib.parseUrl(cr.status.endpoint).Some?
    ensures var out := Pass(lib, os[0], cr, cl); HasKey(lib, os[1..], out.cr, out.cl)
    ensures Pass(lib, os[0], cr, cl).cl.secrets == cl.secrets || KeyServes(lib, cr.spec, os[0].newKey)
  {
    hide Pass, HasValidSecret, KeyServes, Unblocked, HashRead, SpecNext, LastNext, EndpointNext, SecretsAfter;
    var out := Pass(lib, os[0], cr, cl);
    CalmPass(lib, os[0], cr, cl);
    PassFrame(lib, os[0], cr, cl);
    NewSecretIsValid(os[0], cr, cl);
    UsableIsUnblocked(lib, cr, cl);
    if out.cl.secrets != cl.secrets {
      CreationIsUnblocked(lib, os[0], cr, cl);
    }
    if HasValidSecret(cl.secrets, cr.key.ns) {
      PassKeepsKey(lib, os[0], cr, cl);
    } else if !StopsEarly(cr) {
      SameSecret(cr, SecretsAfter(os[0], cr, cl), out.cl.secrets);
    }
  }

  lemma UsableIsUnblocked(lib: Lib, cr: CR, cl: Cluster)
    requires Usable(lib, cr, cl)
    ensures Unblocked(lib, cr, cl) <==> lib.parseUrl(cr.status.endpoint).Some?
  {
    hide AllVars, MayPrepare, TopologyUsable, MayDeploy;
    EndpointDecides(lib, cr, cl, lib.apiEndpoint(cr.key, cr.spec).value);
  }

  lemma {:induction false} RunsKeepUsable(lib: Lib, os: seq<Oracle>, cr: CR, cl: Cluster)
    requires AllCalm(os) && !cr.deleting && Usable(lib, cr, cl)
    requires lib.parseUrl(cr.status.endpoint).None? || HasKey(lib, os, cr, cl)
    ensures var (cr', cl') := After(lib, os, cr, cl);
      && Usable(lib, cr', cl') && SameEnvironment(cr, cl, cr', cl')
      && (lib.parseUrl(cr'.status.endpoint).Some? <==> lib.parseUrl(cr.status.endpoint).Some?)
  {
    hide Pass, Usable, SameEnvironment, HasKey, KeyServes, AllVars;
    if os == [] {
      EnvironmentReflexive(cr, cl);
    } else {
      var out := Pass(lib, os[0], cr, cl);
      if lib.parseUrl(cr.status.endpoint).Some? {
        StepKeepsKey(lib, os, cr, cl);
      } else if out.cl.secrets != cl.secrets {
        CreationIsUnblocked(lib, os[0], cr, cl);
        UsableReads(lib, cr, cl);
        assert false;
      }
      UsableParses(lib, cr, cl);
      ParsingIsKept(lib, os[0], cr, cl);
      PassFrame(lib, os[0], cr, cl);
      PassKeepsUsable(lib, os[0], cr, cl);
      RunsKeepUsable(lib, os[1..], out.cr, out.cl);
      EnvironmentTransitive(cr, cl, out.cr, out.cl, After(lib, os, cr, cl).0, After(lib, os, cr, cl).1);
    }
  }

  lemma UsableReads(lib: Lib, cr: CR, cl: Cluster)
    requires Usable(lib, cr, cl)
    ensures AllVars(lib, cr, cl).Some? <==> lib.parseUrl(cr.status.endpoint).Some?
  {
    hide AllVars, MayPrepare, TopologyUsable, MayDeploy;
    EndpointDecides(lib, cr, cl, lib.apiEndpoint(cr.key, cr.spec).value);
  }

  /** A run that finds no valid secret ends with the key that it drew. */
  lemma DrawnKeyStays(lib: Lib, os: seq<Oracle>, cr: CR, cl: Cluster)
    requires |os| > 1 && AllCalm(os) && !cr.deleting && Usable(lib, cr, cl) && !HasValidSecret(cl.secrets, cr.key.ns)
    requires lib.parseUrl(cr.status.endpoint).Some?
    ensures var (cr', cl') := After(lib, os, cr, cl);
      HorizonSecretOf(cr', cl') == Some(Secret(KeyData(DrawnKey(os, cr)), Some(cr.key)))
  {
    hide Pass, Usable, Unblocked, HasValidSecret, HorizonSecretOf, SameEnvironment;
    UsableIsUnblocked(lib, cr, cl);
    if StopsEarly(cr) {
      var out := Pass(lib, os[0], cr, cl);
      EarlyStart(lib, os[0], cr, cl);
      PassFrame(lib, os[0], cr, cl);
      UsableIsUnblocked(lib, out.cr, out.cl);
      FirstKeyStays(lib, os[1..], out.cr, out.cl);
    } else {
      FirstKeyStays(lib, os, cr, cl);
    }
  }

  /** A pass that stops early leaves a resource that works, and everything else as it was. */
  lemma EarlyStart(lib: Lib, o: Oracle, cr: CR, cl: Cluster)
    requires Calm(o) && !cr.deleting && StopsEarly(cr) && Usable(lib, cr, cl)
    ensures var out := Pass(lib, o, cr, cl);
      && Works(out.cr) && out.cl.secrets == cl.secrets && Usable(lib, out.cr, out.cl)
      && out.cr.status.endpoint == cr.status.endpoint
  {
    hide Pass, Usable, SameEnvironment, SpecIn;
    CalmPass(lib, o, cr, cl);
    PassFrame(lib, o, cr, cl);
    IdleSecrets(lib, o, cr, cl);
    PassKeepsEnvironment(lib, o, cr, cl);
    UsableThere(lib, cr, cl, Pass(lib, o, cr, cl).cr, Pass(lib, o, cr, cl).cl);
  }

  // ---------- the end of six passes ----------

  /**
    In an environment that lets a Deployment be made, six calm passes reach the goal exactly if the
    endpoint that was stored before the first of them can be parsed, and the key with which they end
    serves as what the specification takes the Horizon secret for. An endpoint that cannot be parsed
    keeps every pass from the hash gate, and so is never replaced.
    */
  lemma GoalIsReachedIff(lib: Lib, os: seq<Oracle>, cr: CR, cl: Cluster)
    requires |os| == 6 && AllCalm(os) && !cr.deleting && Usable(lib, cr, cl)
    ensures var (cr', cl') := After(lib, os, cr, cl);
      && ((Usable(lib, cr', cl') && Reached(GoalOf(lib, cr', cl'), CoreOf(cr', cl')))
          <==> (lib.parseUrl(cr.status.endpoint).Some? && HasKey(lib, os, cr, cl)))
      && (Usable(lib, cr', cl') && SameRoles(lib, cr.spec, HorizonSecretOf(cr, cl), HorizonSecretOf(cr', cl')) ==>
          GoalOf(lib, cr', cl') == GoalOf(lib, cr, cl))
  {
    hide After, CoreOf, Usable, GoalOf, SameEnvironment, Reached, SameRoles, KeyServes, HasValidSecret;
    RunsSettle(lib, os, cr, cl);
    RunsKeepTheEnvironment(lib, os, cr, cl);
    var (cr', cl') := After(lib, os, cr, cl);
    if lib.parseUrl(cr.status.endpoint).None? || HasKey(lib, os, cr, cl) {
      RunsKeepUsable(lib, os, cr, cl);
      SettledAtGoal(lib, cr', cl');
    } else {
      DrawnKeyStays(lib, os, cr, cl);
      SameUser(cr, cl, cr', cl');
      if Usable(lib, cr', cl') {
        UsableKeyServes(lib, cr', cl', DrawnKey(os, cr));
      }
    }
    if Usable(lib, cr', cl') && SameRoles(lib, cr.spec, HorizonSecretOf(cr, cl), HorizonSecretOf(cr', cl')) {
      RolesDecideGoal(lib, cr, cl, cr', cl');
    }
  }

  lemma UsableKeyServes(lib: Lib, cr: CR, cl: Cluster, key: Password)
    requires Usable(lib, cr, cl) && HorizonSecretOf(cr, cl) == Some(Secret(KeyData(key), Some(cr.key)))
    ensures KeyServes(lib, cr.spec, key)
  {
    hide AllVars, KeyServes;
    ReadKeyServes(lib, WithEndpoint(cr, lib.apiEndpoint(cr.key, cr.spec).value), cl, key);
  }

  /** The Horizon secrets are told apart by no hash in which the specification lets them count. */
  lemma HashTellsRoles(lib: Lib, a: CR, acl: Cluster, b: CR, bcl: Cluster)
    requires SameEnvironment(a, acl, b, bcl) && a.status.endpoint == b.status.endpoint
    requires AllVars(lib, a, acl).Some? && AllVars(lib, a, acl) == AllVars(lib, b, bcl) && Distinct(a)
    ensures SameRoles(lib, a.spec, HorizonSecretOf(a, acl), HorizonSecretOf(b, bcl))
  {
    hide AllVars, ComponentsOf, Distinct, SameEnvironment;
    SameUser(a, acl, b, bcl);
    VariablesTellComponents(lib, a, acl, b, bcl);
    ComponentsTellRoles(lib, a, acl, b, bcl);
  }

  /** What the Horizon secret contributes in each of its roles. */
  lemma RolesContribute(lib: Lib, cr: CR, cl: Cluster)
    requires AllVars(lib, cr, cl).Some?
    ensures var c, s := ComponentsOf(lib, cr, cl), HorizonSecretOf(cr, cl);
      && (!SeparateSecrets(cr.spec) ==> s.Some?)
      && (cr.spec.secret == Volumes.SERVICE_NAME ==> c.openStackSecret == lib.secretHash(s.value.data))
      && (cr.spec.tls.caBundleSecretName == Volumes.SERVICE_NAME ==>
          lib.caHash(s.value.data) == Some(c.caBundle.GetOr("")))
      && (cr.spec.tls.secretName.GetOr("") == Volumes.SERVICE_NAME ==> lib.certHash(s.value.data) == c.cert)
  {
    hide MemcachedOf, ConfigText;
  }

  lemma ComponentsTellRoles(lib: Lib, a: CR, acl: Cluster, b: CR, bcl: Cluster)
    requires b.key == a.key && b.spec == a.spec && AllVars(lib, a, acl).Some? && AllVars(lib, b, bcl).Some?
    requires ComponentsOf(lib, a, acl) == ComponentsOf(lib, b, bcl)
    ensures SameRoles(lib, a.spec, HorizonSecretOf(a, acl), HorizonSecretOf(b, bcl))
  {
    hide AllVars, ComponentsOf, HorizonSecretOf;
    RolesContribute(lib, a, acl);
    RolesContribute(lib, b, bcl);
  }

  /**
    Confluence: from two starting points that share their specification and their environment, but
    neither status, nor history, nor random key, calm runs end at the same endpoint and topology. They
    end at the same hash and Deployment exactly if the keys that they end with count the same wherever
    the specification names the Horizon secret as an input; as a rule it does not.
    */
  lemma RunsAreConfluentIff(lib: Lib, os1: seq<Oracle>, os2: seq<Oracle>, a: CR, acl: Cluster, b: CR, bcl: Cluster)
    requires |os1| == |os2| == 6 && AllCalm(os1) && AllCalm(os2) && !a.deleting
    requires SameEnvironment(a, acl, b, bcl) && Usable(lib, a, acl) && Usable(lib, b, bcl)
    requires lib.parseUrl(a.status.endpoint).Some? && lib.parseUrl(b.status.endpoint).Some?
    requires HasKey(lib, os1, a, acl) && HasKey(lib, os2, b, bcl)
    ensures var (a', acl'), (b', bcl') := After(lib, os1, a, acl), After(lib, os2, b, bcl);
      var end1, end2 := CoreOf(a', acl'), CoreOf(b', bcl');
      var same := SameRoles(lib, a.spec, HorizonSecretOf(a', acl'), HorizonSecretOf(b', bcl'));
      && end1.endpoint == end2.endpoint && end1.lastTopology == end2.lastTopology
      && (same ==> end1.hash == end2.hash && end1.deployment == end2.deployment)
      && (!same && HashesApart(lib) && Distinct(a) ==> end1.hash != end2.hash && end1.deployment != end2.deployment)
  {
    hide After, CoreOf, Usable, GoalOf, SameEnvironment, SameRoles, Distinct, HashesApart, HasKey;
    SameUser(a, acl, b, bcl);
    GoalIsReachedIff(lib, os1, a, acl);
    GoalIsReachedIff(lib, os2, b, bcl);
    var (a', acl') := After(lib, os1, a, acl);
    var (b', bcl') := After(lib, os2, b, bcl);
    RunsKeepUsable(lib, os1, a, acl);
    RunsKeepUsable(lib, os2, b, bcl);
    EnvironmentSymmetric(a, acl, a', acl');
    EnvironmentTransitive(a', acl', a, acl, b, bcl);
    EnvironmentTransitive(a', acl', b, bcl, b', bcl');
    SameUser(a, acl, a', acl');
    GoalsAgreeOrDiffer(lib, a', acl', b', bcl');
    SameDistinct(a, a');
  }

  lemma SameDistinct(a: CR, b: CR)
    requires a.key == b.key && a.spec == b.spec
    ensures Distinct(a) == Distinct(b)
  {
  }

  lemma GoalsAgreeOrDiffer(lib: Lib, a: CR, acl: Cluster, b: CR, bcl: Cluster)
    requires SameEnvironment(a, acl, b, bcl) && Usable(lib, a, acl) && Usable(lib, b, bcl)
    ensures var x, y := GoalOf(lib, a, acl), GoalOf(lib, b, bcl);
      var same := SameRoles(lib, a.spec, HorizonSecretOf(a, acl), HorizonSecretOf(b, bcl));
      && x.endpoint == y.endpoint && x.topology == y.topology
      && (same ==> x == y)
      && (!same && HashesApart(lib) && Distinct(a) ==> x.hash != y.hash && x.deployment != y.deployment)
  {
    hide AllVars, MemcachedOf, DesiredSpec, SameEnvironment, MayPrepare, Serviceable, TopologyUsable, MayDeploy;
    hide HasValidSecret, SameRoles, HorizonSecretOf, Distinct;
    SameUser(a, acl, b, bcl);
    assert lib.apiEndpoint(a.key, a.spec).Some? by { ServiceHasEndpoint(lib, a, acl); }
    assert a.TopologyRef() == b.TopologyRef();
    var e := lib.apiEndpoint(a.key, a.spec).value;
    EndpointIsStatus(a, acl, b, bcl, e);
    if SameRoles(lib, a.spec, HorizonSecretOf(a, acl), HorizonSecretOf(b, bcl)) {
      RolesDecideGoal(lib, a, acl, b, bcl);
    } else if HashesApart(lib) && Distinct(a) {
      SameDistinct(a, WithEndpoint(a, e));
      if AllVars(lib, WithEndpoint(a, e), acl) == AllVars(lib, WithEndpoint(b, e), bcl) {
        HashTellsRoles(lib, WithEndpoint(a, e), acl, WithEndpoint(b, e), bcl);
        assert false;
      }
      var x, y := GoalOf(lib, a, acl), GoalOf(lib, b, bcl);
      InputsThere(lib, WithEndpoint(a, e), acl);
      InputsThere(lib, WithEndpoint(b, e), bcl);
      HashInSpec(lib, {}, a, acl, x.hash, MemcachedOf(WithEndpoint(a, e), acl).value);
      HashInSpec(lib, {}, b, bcl, y.hash, MemcachedOf(WithEndpoint(b, e), bcl).value);
    }
  }

  // ---------- a pass that runs through ----------

  /** The Deployment that a calm pass writes. */
  function WrittenDeployment(lib: Lib, cr: CR, cl: Cluster): DeploymentObject
    requires MemcachedOf(cr, cl).Some?
  {
    DeployedObject(lib, {}, cr, cl, StoredHash(cr).GetOr(""), MemcachedOf(cr, cl).value)
  }

  /** The ready count that the status has once the Deployment `d` is written. */
  function CountWith(cr: CR, d: DeploymentObject): nat {
    if d.generation == d.observedGeneration then d.readyReplicas else cr.status.readyCount
  }

  /** The network of the pods is as the specification asks for it. */
  predicate NetworkFits(lib: Lib, cr: CR, cl: Cluster, d: DeploymentObject) {
    cr.spec.replicas > 0 ==>
      lib.verifyNetwork(cr.spec.networkAttachments, Get(cl.pods, cr.key).GetOr(""), CountWith(cr, d)).0
  }

  lemma CalmReachesEnd(lib: Lib, o: Oracle, g: World, hash: string, m: MemcachedObject)
    requires Calm(o) && StoredHash(g.cr) == Some(hash)
    requires Serviceable(lib, g.cr, g.cl) && TopologyUsable(g.cr, g.cl) && MayDeploy(g.cr, g.cl)
    requires g.cr.spec.replicas > 0 ==> Verification(lib, Rolled(lib, o, g, m).cr, Rolled(lib, o, g, m).cl).0
    ensures var ready := GateDeployment(lib, o, g, m).IsReady();
      Rollout(lib, o, g, hash, m).1 == Stop(AtEnd, if ready then None else Some(RunningDetail), Done)
  {
    hide Describe, WriteDeployment, CheckNetwork, Verification, Rolled, GateDeployment, TopologiesHeld;
    hide TopologyCalls, MayDeploy, Serviceable, TopologyUsable, DesiredSpec, DeploymentObject.IsReady;
    CalmDescribe(lib, o, g, hash, m);
    assert lib.apiEndpoint(g.cr.key, g.cr.spec).Some? by { ServiceHasEndpoint(lib, g.cr, g.cl); }
    var (w1, spec) := Describe(lib, o, g, hash, m).value;
    SameDeployments(g.cr, w1.cr, g.cl, w1.cl);
    DeploymentMeaning(o, w1, spec);
    DeployRolls(lib, o, g, hash, m);
    CheckMeaning(lib, o, Rolled(lib, o, g, m));
  }

  lemma RolledNetworkIs(lib: Lib, o: Oracle, g: World, m: MemcachedObject)
    requires lib.apiEndpoint(g.cr.key, g.cr.spec).Some?
    ensures var r, d := Rolled(lib, o, g, m), GateDeployment(lib, o, g, m);
      Verification(lib, r.cr, r.cl)
      == lib.verifyNetwork(g.cr.spec.networkAttachments, Get(g.cl.pods, g.cr.key).GetOr(""), CountWith(g.cr, d))
  {
    hide GateDeployment, WrittenSpec, TopologiesHeld, TopologyCalls;
  }

  lemma GatePermitted(lib: Lib, o: Oracle, cr: CR, cl: Cluster, g: World)
    requires AtGate(lib, o, Start(cr, cl), g)
    ensures Serviceable(lib, g.cr, g.cl) == Serviceable(lib, cr, cl)
    ensures TopologyUsable(g.cr, g.cl) == TopologyUsable(cr, cl) && TopologySpec(g.cr, g.cl) == TopologySpec(cr, cl)
    ensures MayDeploy(g.cr, g.cl) == MayDeploy(cr, cl)
    ensures g.cr == Start(cr, cl).cr && g.cl.nads == cl.nads && g.cl.keystoneServices == cl.keystoneServices
    ensures g.cl.deployments == cl.deployments && g.cl.pods == cl.pods
  {
    hide AllVars, MemcachedOf, ConfigText, RbacInPlace, ConfigInPlace, SecretsAfter, TraceAfter;
  }

  lemma GateWrites(lib: Lib, o: Oracle, cr: CR, cl: Cluster, g: World, m: MemcachedObject)
    requires Calm(o) && AtGate(lib, o, Start(cr, cl), g) && MemcachedOf(cr, cl) == Some(m)
    ensures GateDeployment(lib, o, g, m) == WrittenDeployment(lib, cr, cl)
  {
    hide AtGate, MemcachedOf, DesiredSpec, PutDeploymentObject, TopologySpec, Serviceable, TopologyUsable, MayDeploy;
    GatePermitted(lib, o, cr, cl, g);
    SameDescription(lib, {}, g.cr, cr, g.cl, cl, StoredHash(cr).GetOr(""), m);
  }

  /** A calm pass over an open gate, with everything in order behind it, comes to its end. */
  lemma RunsThrough(lib: Lib, o: Oracle, cr: CR, cl: Cluster)
    requires Calm(o) && Works(cr) && Unblocked(lib, cr, cl) && HasValidSecret(cl.secrets, cr.key.ns)
    requires AllVars(lib, cr, cl).Some? && !HashStale(lib, cr, cl) && MemcachedOf(cr, cl).Some?
    requires Serviceable(lib, cr, cl) && TopologyUsable(cr, cl) && MayDeploy(cr, cl)
    requires NetworkFits(lib, cr, cl, WrittenDeployment(lib, cr, cl))
    ensures Body(lib, o, cr, cl).1
         == Stop(AtEnd, if WrittenDeployment(lib, cr, cl).IsReady() then None else Some(RunningDetail), Done)
  {
    hide BeforeGate, Rollout, AllVars, MemcachedOf, AtGate, WrittenDeployment, DeploymentObject.IsReady, TopologyUsable, MayDeploy;
    hide MayPrepare, HasValidSecret, Serviceable, Rolled, GateDeployment, Verification, SecretsAfter;
    var w := Start(cr, cl);
    StartReads(lib, cr, cl);
    StartWrites(lib, o, cr, cl);
    CalmGate(lib, o, w);
    ReachingTheGate(lib, o, w);
    var (g, vars, m) := BeforeGate(lib, o, w).value;
    GatePermitted(lib, o, cr, cl, g);
    GateWrites(lib, o, cr, cl, g, m);
    assert HashGate(lib, o, g, vars) == Next(StoredHash(cr).value);
    assert lib.apiEndpoint(g.cr.key, g.cr.spec).Some? by { ServiceHasEndpoint(lib, g.cr, g.cl); }
    RolledNetworkIs(lib, o, g, m);
    CalmReachesEnd(lib, o, g, StoredHash(cr).value, m);
  }

  // ---------- behind the goal ----------

  /** At the goal a pass writes the Deployment that is there. */
  lemma GoalIsWritten(lib: Lib, cr: CR, cl: Cluster, d: DeploymentObject)
    requires Usable(lib, cr, cl) && Reached(GoalOf(lib, cr, cl), CoreOf(cr, cl))
    requires Get(cl.deployments, DeploymentKey(cr.key.ns)) == Some(d)
    ensures AllVars(lib, cr, cl).Some? && !HashStale(lib, cr, cl) && MemcachedOf(cr, cl).Some?
    ensures Unblocked(lib, cr, cl) && Serviceable(lib, cr, cl) && TopologyUsable(cr, cl) && MayDeploy(cr, cl)
    ensures EndpointNext(lib, cr, cl) == cr.status.endpoint
    ensures WrittenDeployment(lib, cr, cl) == d.(owner := Some(cr.key))
  {
    hide AllVars, MemcachedOf, DesiredSpec, MayPrepare, TopologyUsable, MayDeploy, HasValidSecret;
    EndpointDecides(lib, cr, cl, lib.apiEndpoint(cr.key, cr.spec).value);
    InputsThere(lib, cr, cl);
  }

  /**
    Once the goal is reached and its Deployment has come up, the next calm pass calls the resource Ready,
    unless some leftover condition is not True.
    */
  lemma GoalBecomesReady(lib: Lib, o: Oracle, cr: CR, cl: Cluster, d: DeploymentObject)
    requires Calm(o) && Works(cr) && Usable(lib, cr, cl) && Reached(GoalOf(lib, cr, cl), CoreOf(cr, cl))
    requires HasValidSecret(cl.secrets, cr.key.ns)
    requires Get(cl.deployments, DeploymentKey(cr.key.ns)) == Some(d) && NetworkFits(lib, cr, cl, d)
    ensures Is(Pass(lib, o, cr, cl).cr.status.conditions, Ready, IsTrue)
       <==> d.generation == d.observedGeneration && d.replicas == d.readyReplicas == cr.spec.replicas && StrayIsTrue(o, cr)
  {
    GoalAsksFor(lib, cr, cl, d);
    hide Body, ConditionsAt, Epilogue, Usable, Reached, GoalOf, CoreOf, HasValidSecret, WrittenDeployment, Unblocked, HashStale;
    hide StrayIsTrue;
    GoalIsWritten(lib, cr, cl, d);
    RunsThrough(lib, o, cr, cl);
    var w := Body(lib, o, cr, cl).0;
    if d.IsReady() {
      SameSpecStray(lib, o, cr, cl);
      EndIsReadyIff(lib, o, w.cr, cr.status.conditions);
    } else if Is(Pass(lib, o, cr, cl).cr.status.conditions, Ready, IsTrue) {
      ReadyMeansEnd(lib, o, cr, cl);
      assert false;
    }
  }

  lemma GoalAsksFor(lib: Lib, cr: CR, cl: Cluster, d: DeploymentObject)
    requires Usable(lib, cr, cl) && Reached(GoalOf(lib, cr, cl), CoreOf(cr, cl))
    requires Get(cl.deployments, DeploymentKey(cr.key.ns)) == Some(d)
    ensures d.spec.replicas == cr.spec.replicas
  {
    hide AllVars, MemcachedOf, DesiredSpec, MayPrepare, TopologyUsable, MayDeploy, Serviceable;
    GoalIsWritten(lib, cr, cl, d);
    AsksFor(lib, {}, cr, cl, StoredHash(cr).GetOr(""), MemcachedOf(cr, cl).value);
  }

  lemma SameSpecStray(lib: Lib, o: Oracle, cr: CR, cl: Cluster)
    ensures StrayIsTrue(o, Body(lib, o, cr, cl).0.cr) <==> StrayIsTrue(o, cr)
  {
    hide Body;
    BodyFrame(lib, o, cr, cl);
  }

  /** At the goal, with the network in order, one more calm pass settles the resource, ready or not. */
  lemma GoalSettles(lib: Lib, o: Oracle, cr: CR, cl: Cluster, d: DeploymentObject)
    requires Calm(o) && Works(cr) && Usable(lib, cr, cl) && Reached(GoalOf(lib, cr, cl), CoreOf(cr, cl))
    requires HasValidSecret(cl.secrets, cr.key.ns)
    requires Get(cl.deployments, DeploymentKey(cr.key.ns)) == Some(d) && NetworkFits(lib, cr, cl, d)
    ensures var out := Pass(lib, o, cr, cl); Settled(lib, out.cr, out.cl) && NothingToDo(lib, out.cr, out.cl)
  {
    hide Body, ConditionsAt, Epilogue, Usable, Reached, GoalOf, HasValidSecret, WrittenDeployment, Unblocked, HashStale, Steady;
    hide SteadyStop, Concluded, NothingToDo, DeploymentObject.IsReady, EndpointNext, SpecNext, LastNext, SecretsAfter, AllVars;
    GoalIsWritten(lib, cr, cl, d);
    RunsThrough(lib, o, cr, cl);
    CalmPass(lib, o, cr, cl);
    ValidRereads(lib, o, cr, cl);
    FinishedIsSettled(lib, o, cr, cl);
    SettledHasNothingToDo(lib, Pass(lib, o, cr, cl).cr, Pass(lib, o, cr, cl).cl);
  }

  /**
    The end of convergence: from any state with an endpoint that can be parsed, six calm passes and, once
    the network of the Deployment is in order, a seventh leave a settled resource. It is Ready exactly if
    the Deployment is up and no leftover condition objects; if not, later passes still set its time.
    */
  lemma SevenPassesSettle(lib: Lib, os: seq<Oracle>, o: Oracle, cr: CR, cl: Cluster)
    requires |os| == 6 && AllCalm(os) && Calm(o) && !cr.deleting && Usable(lib, cr, cl)
    requires lib.parseUrl(cr.status.endpoint).Some? && HasKey(lib, os, cr, cl)
    requires var (cr', cl') := After(lib, os, cr, cl);
      forall d | Get(cl'.deployments, DeploymentKey(cr.key.ns)) == Some(d) :: NetworkFits(lib, cr', cl', d)
    ensures var (cr', cl') := After(lib, os, cr, cl);
      var out, d := Pass(lib, o, cr', cl'), Get(cl'.deployments, DeploymentKey(cr.key.ns));
      && Settled(lib, out.cr, out.cl) && NothingToDo(lib, out.cr, out.cl) && d.Some?
      && (Is(out.cr.status.conditions, Ready, IsTrue) <==>
          && d.value.generation == d.value.observedGeneration
          && d.value.replicas == d.value.readyReplicas == cr.spec.replicas && StrayIsTrue(o, cr'))
  {
    hide After, Usable, GoalOf, SameEnvironment, Settled, NothingToDo, Pass, NetworkFits, HasValidSecret, Unblocked, HasKey;
    hide StrayIsTrue, DeploymentObject.IsReady;
    RunsSettle(lib, os, cr, cl);
    RunsKeepUsable(lib, os, cr, cl);
    GoalIsReachedIff(lib, os, cr, cl);
    var (cr', cl') := After(lib, os, cr, cl);
    SettledAtGoal(lib, cr', cl');
    SameUser(cr, cl, cr', cl');
    SettledWorks(lib, cr', cl');
    GoalSettles(lib, o, cr', cl', cl'.deployments[DeploymentKey(cr.key.ns)]);
    GoalBecomesReady(lib, o, cr', cl', cl'.deployments[DeploymentKey(cr.key.ns)]);
  }

  lemma SettledWorks(lib: Lib, cr: CR, cl: Cluster)
    requires Distance(lib, cr, cl) == 0 && !cr.deleting
    ensures Works(cr)
  {
    hide Unblocked, EndpointNext, HashStale, Behind;
  }
}
