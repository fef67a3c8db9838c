/** What runs remember: where a stored hash comes from, and what becomes of the secret key. */
module History {
  import opened Wrappers
  import opened Conditions
  import opened Api
  import opened Clusters
  import opened Passes
  import opened Reading
  import opened Facts
  import opened Safety
  import opened Watches
  import opened Runs
  import opened TopologyProtocol

  // ---------- the input hash ----------

  /** The event is a pass whose patch stored the hash in the status of the resource. */
  ghost predicate StoresHash(lib: Lib, s: System, e: Event, k: Key, hash: string) {
    && e.Reconciled? && e.key == k && k in s.cl.horizons
    && GetInstance !in e.o.fail && PatchInstance !in e.o.fail
    && StoredHash(Pass(lib, e.o, s.cl.horizons[k], s.cl).cr) == Some(hash)
  }

  ghost predicate NoHashes(cl: Cluster) {
    forall k | k in cl.horizons :: StoredHash(cl.horizons[k]) == None
  }

  /** Only passes store hashes: the hash of a resource is older than the event, or the event stores it. */
  lemma HashFromBefore(lib: Lib, s: System, e: Event, k: Key, hash: string)
    requires WellFormed(s.cl) && Possible(s, e) && k in Successor(lib, s, e).cl.horizons
    requires StoredHash(Successor(lib, s, e).cl.horizons[k]) == Some(hash)
    ensures StoresHash(lib, s, e, k, hash) || (k in s.cl.horizons && StoredHash(s.cl.horizons[k]) == Some(hash))
  {
    hide Woken, Ledger, Body, Epilogue, ConditionsAt, TopologiesStep;
    if e.Reconciled? {
      if e.key != k {
        OthersStored(lib, e.o, s, e.key, k);
      } else if k in s.cl.horizons {
        PassFrame(lib, e.o, s.cl.horizons[k], s.cl);
      }
    }
  }

  lemma {:induction false} HashHasOrigin(lib: Lib, states: seq<System>, events: seq<Event>, i: nat, k: Key, hash: string) returns (j: nat)
    requires IsRun(lib, states, events) && i < |states| && WellFormed(states[0].cl) && NoHashes(states[0].cl)
    requires k in states[i].cl.horizons && StoredHash(states[i].cl.horizons[k]) == Some(hash)
    ensures j < i && StoresHash(lib, states[j], events[j], k, hash)
  {
    hide WellFormed, Successor, Possible, StoresHash;
    if i == 0 {
      assert false;
    } else {
      WellFormedOverRuns(lib, states, events, i - 1);
      HashFromBefore(lib, states[i - 1], events[i - 1], k, hash);
      if StoresHash(lib, states[i - 1], events[i - 1], k, hash) {
        j := i - 1;
      } else {
        j := HashHasOrigin(lib, states, events, i - 1, k, hash);
      }
    }
  }

  /**
    Over every run, with any patch failing, whatever hash a pass writes into a Deployment is the hash
    of what it reads, and an earlier pass of the same resource had stored it durably.
    */
  lemma WrittenHashIsDurable(lib: Lib, states: seq<System>, events: seq<Event>, i: nat, a: Action) returns (j: nat)
    requires IsRun(lib, states, events) && i < |events| && WellFormed(states[0].cl) && NoHashes(states[0].cl)
    requires events[i].Reconciled? && events[i].key in states[i].cl.horizons
    requires a in Pass(lib, events[i].o, states[i].cl.horizons[events[i].key], states[i].cl).trace && a.WroteDeployment?
    ensures "CONFIG_HASH" in a.spec.horizonContainer.env
    ensures var cr := states[i].cl.horizons[events[i].key];
      && AllVars(lib, cr, states[i].cl).Some?
      && a.spec.horizonContainer.env["CONFIG_HASH"] == HashRead(lib, events[i].o, cr, states[i].cl)
    ensures j < i && StoresHash(lib, states[j], events[j], events[i].key, a.spec.horizonContainer.env["CONFIG_HASH"])
  {
    hide Successor, Possible, WellFormed, NoHashes, Pass, StoresHash, HashRead, AllVars;
    GateIsDurable(lib, events[i].o, states[i].cl.horizons[events[i].key], states[i].cl, a);
    j := HashHasOrigin(lib, states, events, i, events[i].key, a.spec.horizonContainer.env["CONFIG_HASH"]);
  }

  // ---------- the secret key ----------

  lemma PassKeepsValidSecret(lib: Lib, o: Oracle, cr: CR, cl: Cluster, ns: string)
    requires HasValidSecret(cl.secrets, ns)
    ensures Get(Pass(lib, o, cr, cl).cl.secrets, HorizonSecretKey(ns)) == Get(cl.secrets, HorizonSecretKey(ns))
  {
    hide Pass;
    SecretIsStable(lib, o, cr, cl);
  }

  /** A user, or another controller, touches the Horizon secret of the namespace. */
  ghost predicate TouchesSecret(s: System, e: Event, ns: string) {
    e.Environment? && Get(e.cl.secrets, HorizonSecretKey(ns)) != Get(s.cl.secrets, HorizonSecretKey(ns))
  }

  lemma OnlyOthersTouch(lib: Lib, s: System, e: Event, ns: string)
    requires HasValidSecret(s.cl.secrets, ns) && !TouchesSecret(s, e, ns)
    ensures Get(Successor(lib, s, e).cl.secrets, HorizonSecretKey(ns)) == Get(s.cl.secrets, HorizonSecretKey(ns))
  {
    hide Woken, Ledger, Pass;
    if e.Reconciled? && e.key in s.cl.horizons {
      PassKeepsValidSecret(lib, e.o, s.cl.horizons[e.key], s.cl, ns);
    }
  }

  /**
    Over every run, and with any number of resources and failures, a valid secret key is the same
    later on unless somebody other than the reconciler touched the secret in between.
    */
  lemma {:induction false} SecretKeySurvives(lib: Lib, states: seq<System>, events: seq<Event>, i: nat, j: nat, ns: string)
    requires IsRun(lib, states, events) && i <= j < |states| && HasValidSecret(states[i].cl.secrets, ns)
    requires forall n | i <= n < j :: !TouchesSecret(states[n], events[n], ns)
    ensures Get(states[j].cl.secrets, HorizonSecretKey(ns)) == Get(states[i].cl.secrets, HorizonSecretKey(ns))
  {
    hide Successor, Possible, TouchesSecret;
    if i < j {
      SecretKeySurvives(lib, states, events, i, j - 1, ns);
      OnlyOthersTouch(lib, states[j - 1], events[j - 1], ns);
    }
  }

  // ---------- the stages ----------

  /** The stored conditions are those of some pass, or there are none yet. */
  ghost predicate Staged(cl: Cluster) {
    forall k | k in cl.horizons :: IsNew(cl.horizons[k]) || exists n :: StoppedAt(cl.horizons[k].status.conditions, n)
  }

  lemma PassStages(lib: Lib, o: Oracle, cr: CR, cl: Cluster)
    requires PatchInstance !in o.fail
    ensures exists n :: StoppedAt(Pass(lib, o, cr, cl).cr.status.conditions, n)
  {
    hide Pass, StoppedAt;
    StagePrefix(lib, o, cr, cl);
  }

  lemma LostPatchStores(lib: Lib, o: Oracle, cr: CR, cl: Cluster)
    requires PatchInstance in o.fail
    ensures Pass(lib, o, cr, cl).cr == cr
  {
  }

  lemma StagedNext(lib: Lib, s: System, e: Event)
    requires WellFormed(s.cl) && Staged(s.cl) && Possible(s, e)
    ensures Staged(Successor(lib, s, e).cl)
  {
    hide Woken, Ledger, Pass, StoppedAt, TopologiesStep;
    if e.Reconciled? && e.key in s.cl.horizons {
      var cr := s.cl.horizons[e.key];
      PassFrame(lib, e.o, cr, s.cl);
      if PatchInstance in e.o.fail {
        LostPatchStores(lib, e.o, cr, s.cl);
      } else {
        PassStages(lib, e.o, cr, s.cl);
      }
    }
  }

  /** At every moment of every run the stored stages are True up to one place and Unknown behind it. */
  lemma {:induction false} StagedOverRuns(lib: Lib, states: seq<System>, events: seq<Event>, i: nat)
    requires IsRun(lib, states, events) && i < |states| && WellFormed(states[0].cl) && Staged(states[0].cl)
    ensures Staged(states[i].cl)
  {
    hide WellFormed, Staged, Successor, Possible;
    if i > 0 {
      StagedOverRuns(lib, states, events, i - 1);
      WellFormedOverRuns(lib, states, events, i - 1);
      StagedNext(lib, states[i - 1], events[i - 1]);
    }
  }
}
