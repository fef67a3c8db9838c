/**
  The informer cache with its field indexes, and the map functions that turn a changed object into
  requests (SetupWithManager and findObjectsForSrc in horizon_controller.go). The indexes are kept
  up to date one change at a time; a lookup in them must find what a scan would find.
  */
module Indexes {
  import opened Wrappers
  import opened Api
  import opened Passes
  import opened Watches

  // ---------- the specification: a scan ----------

  /** The field of the specification is set to the name. */
  predicate Names(f: Field, spec: Spec, name: string) {
    match f
    case PasswordSecret => spec.secret == name
    case CABundleSecret => spec.tls.caBundleSecretName == name
    case TLSSecret => spec.tls.secretName == Some(name)
    case TopologyName => spec.topologyRef.Some? && spec.topologyRef.value.name == name
  }

  /** How many of the fields name the source. */
  function CountNames(fields: seq<Field>, spec: Spec, name: string): nat {
    if fields == [] then 0
    else CountNames(fields[..|fields| - 1], spec, name) + if Names(fields[|fields| - 1], spec, name) then 1 else 0
  }

  /** How often a scan over the fields comes upon the resource `k`. */
  function ScanCount(items: map<Key, CR>, fields: seq<Field>, src: Key, k: Key): nat {
    if k in items && k.ns == src.ns then CountNames(fields, items[k].spec, src.name) else 0
  }

  lemma IndexedIffNamed(f: Field, spec: Spec, name: string)
    requires name != ""
    ensures name in IndexValues(f, spec) <==> Names(f, spec, name)
  {
  }

  lemma {:induction false} CountedIffNamed(fields: seq<Field>, spec: Spec, name: string)
    ensures CountNames(fields, spec, name) > 0 <==> exists f :: f in fields && Names(f, spec, name)
  {
    if fields != [] {
      CountedIffNamed(fields[..|fields| - 1], spec, name);
      assert fields == fields[..|fields| - 1] + [fields[|fields| - 1]];
    }
  }

  lemma EveryFieldIsWatched(f: Field)
    ensures f in ALL_WATCH_FIELDS
  {
    var fs := ALL_WATCH_FIELDS;
    assert fs[0] == PasswordSecret && fs[1] == CABundleSecret && fs[2] == TLSSecret && fs[3] == TopologyName;
  }

  /** A scan comes upon exactly the resources that refer to the source. */
  lemma ScanFindsReferences(items: map<Key, CR>, src: Key, k: Key)
    requires src.name != "" && k in items && items[k].key == k
    ensures ScanCount(items, ALL_WATCH_FIELDS, src, k) > 0 <==> RefersTo(items[k], src)
  {
    hide IndexValues, CountNames;
    CountedIffNamed(ALL_WATCH_FIELDS, items[k].spec, src.name);
    forall f: Field
      ensures f in ALL_WATCH_FIELDS
      ensures src.name in IndexValues(f, items[k].spec) <==> Names(f, items[k].spec, src.name)
    {
      EveryFieldIsWatched(f);
      IndexedIffNamed(f, items[k].spec, src.name);
    }
  }

  // ---------- the cache ----------

  datatype Drawer = Drawer(field: Field, ns: string, value: string)

  predicate Belongs(d: Drawer, cr: CR) {
    cr.key.ns == d.ns && d.value in IndexValues(d.field, cr.spec)
  }

  /** The contents of a drawer once the resource is in, or out, of it. */
  function Refiled(d: Drawer, cr: CR, present: bool, keys: set<Key>): set<Key> {
    if !Belongs(d, cr) then keys else if present then keys + {cr.key} else keys - {cr.key}
  }

  /** The elements of a set in some order. */
  method Listed(s: set<Key>) returns (keys: seq<Key>)
    ensures multiset(keys) == multiset(s)
  {
    keys := [];
    var rest := s;
    while rest != {}
      invariant rest <= s && multiset(keys) == multiset(s - rest)
      decreases rest
    {
      var k :| k in rest;
      rest := rest - {k};
      keys := keys + [k];
      assert s - rest == (s - rest - {k}) + {k};
    }
  }

  class Cache {
    var items: map<Key, CR>
    var drawers: map<Drawer, set<Key>>

    function Filed(d: Drawer): set<Key>
      reads this
    {
      Get(drawers, d).GetOr({})
    }

    /** Every drawer holds exactly the resources that belong into it. */
    ghost predicate Valid()
      reads this
    {
      && (forall k | k in items :: items[k].key == k)
      && (forall d, k :: k in Filed(d) <==> k in items && Belongs(d, items[k]))
    }

    constructor ()
      ensures Valid() && items == map[]
    {
      items, drawers := map[], map[];
    }

    /** Put a resource into its drawers, or take it out of them. */
    method File(cr: CR, present: bool)
      modifies this`drawers
      ensures forall d :: Filed(d) == Refiled(d, cr, present, old(Filed(d)))
    {
      var i := 0;
      while i < |ALL_WATCH_FIELDS|
        invariant 0 <= i <= |ALL_WATCH_FIELDS|
        invariant forall d: Drawer | d.field in ALL_WATCH_FIELDS[..i] :: Filed(d) == Refiled(d, cr, present, old(Filed(d)))
        invariant forall d: Drawer | d.field !in ALL_WATCH_FIELDS[..i] :: Filed(d) == old(Filed(d))
      {
        assert ALL_WATCH_FIELDS[..i + 1] == ALL_WATCH_FIELDS[..i] + [ALL_WATCH_FIELDS[i]];
        assert ALL_WATCH_FIELDS[i] !in ALL_WATCH_FIELDS[..i];
        FileIn(ALL_WATCH_FIELDS[i], cr, present);
        i := i + 1;
      }
      forall d: Drawer
        ensures d.field in ALL_WATCH_FIELDS[..i]
      {
        EveryFieldIsWatched(d.field);
        assert ALL_WATCH_FIELDS[..i] == ALL_WATCH_FIELDS;
      }
    }

    /** The same for the drawers of one index. */
    method FileIn(field: Field, cr: CR, present: bool)
      modifies this`drawers
      ensures forall d :: Filed(d) == if d.field == field then Refiled(d, cr, present, old(Filed(d))) else old(Filed(d))
    {
      var values := IndexValues(field, cr.spec);
      assert |values| <= 1;
      if |values| == 1 {
        var d := Drawer(field, cr.key.ns, values[0]);
        drawers := drawers[d := Refiled(d, cr, present, Filed(d))];
      }
    }

    /** A resource was added, or was updated. */
    method Store(cr: CR)
      requires Valid()
      modifies this
      ensures Valid() && items == old(items)[cr.key := cr]
    {
      hide Belongs;
      if cr.key in items {
        File(items[cr.key], false);
      }
      assert forall d, k :: k in Filed(d) <==> k in items && k != cr.key && Belongs(d, items[k]);
      label L:
      File(cr, true);
      items := items[cr.key := cr];
      forall d, k
        ensures k in Filed(d) <==> k in items && Belongs(d, items[k])
      {
        assert Filed(d) == Refiled(d, cr, true, old@L(Filed(d)));
      }
    }

    method Delete(k: Key)
      requires Valid()
      modifies this
      ensures Valid() && items == old(items) - {k}
    {
      hide Belongs;
      if k in items {
        ghost var gone := items[k];
        label L:
        File(items[k], false);
        items := items - {k};
        forall d, other
          ensures other in Filed(d) <==> other in items && Belongs(d, items[other])
        {
          assert Filed(d) == Refiled(d, gone, false, old@L(Filed(d)));
        }
      }
    }

    /** The resources of a namespace whose field has the value: a lookup, not a scan. */
    method ListByField(field: Field, src: Key) returns (keys: seq<Key>)
      requires Valid()
      ensures forall k ::
        multiset(keys)[k] == if k in items && Belongs(Drawer(field, src.ns, src.name), items[k]) then 1 else 0
    {
      keys := Listed(Filed(Drawer(field, src.ns, src.name)));
    }

    method ListNamespace(ns: string) returns (keys: seq<Key>)
      ensures forall k :: multiset(keys)[k] == if k in items && k.ns == ns then 1 else 0
    {
      keys := Listed(set k | k in items && k.ns == ns);
    }
  }

  // ---------- the map functions ----------

  /** The fields before the first one whose list fails. */
  function Readable(fields: seq<Field>, fail: set<Field>): (r: seq<Field>)
    ensures r <= fields
    ensures forall f | f in r :: f !in fail
    ensures r == fields || (|r| < |fields| && fields[|r|] in fail)
  {
    if fields == [] || fields[0] in fail then [] else [fields[0]] + Readable(fields[1..], fail)
  }

  lemma NothingScanned(items: map<Key, CR>, src: Key)
    ensures forall k :: ScanCount(items, [], src, k) == 0
    ensures forall fields, k | k !in items :: ScanCount(items, fields, src, k) == 0
  {
  }

  lemma ScanStep(items: map<Key, CR>, fields: seq<Field>, i: nat, src: Key, k: Key)
    requires i < |fields| && src.name != "" && (k in items ==> items[k].key == k)
    ensures ScanCount(items, fields[..i + 1], src, k) == ScanCount(items, fields[..i], src, k)
      + if k in items && Belongs(Drawer(fields[i], src.ns, src.name), items[k]) then 1 else 0
  {
    assert fields[..i + 1][..i] == fields[..i];
    if k in items {
      IndexedIffNamed(fields[i], items[k].spec, src.name);
    }
  }

  /**
    Each resource is requested as often as its fields name the source; when a list fails, as often as
    the fields before that one do.
    */
  method FindObjectsForSrc(cache: Cache, src: Key, fail: set<Field>) returns (requests: seq<Key>)
    requires cache.Valid() && src.name != ""
    ensures forall k :: multiset(requests)[k] == ScanCount(cache.items, Readable(ALL_WATCH_FIELDS, fail), src, k)
    ensures fail == {} ==> forall k :: k in requests <==> k in cache.items && RefersTo(cache.items[k], src)
    ensures fail == {} ==> forall k :: k in requests <==>
      k in cache.items && k.ns == src.ns && IsNamed(cache.items[k].spec, src.name)
  {
    hide Belongs, ScanCount, RefersTo, IsNamed;
    NothingScanned(cache.items, src);
    requests := [];
    var i := 0;
    var readable := Readable(ALL_WATCH_FIELDS, fail);
    while i < |ALL_WATCH_FIELDS|
      invariant 0 <= i <= |readable|
      invariant forall k :: multiset(requests)[k] == ScanCount(cache.items, readable[..i], src, k)
    {
      var field := ALL_WATCH_FIELDS[i];
      if field in fail {
        break;
      }
      var keys := cache.ListByField(field, src);
      forall k
        ensures multiset(requests + keys)[k] == ScanCount(cache.items, readable[..i + 1], src, k)
      {
        ScanStep(cache.items, readable, i, src, k);
      }
      requests := requests + keys;
      i := i + 1;
    }
    assert readable[..i] == readable;
    if fail == {} {
      forall k
        ensures k in requests <==> k in cache.items && RefersTo(cache.items[k], src)
        ensures k in requests <==> k in cache.items && k.ns == src.ns && IsNamed(cache.items[k].spec, src.name)
      {
        assert k in requests <==> multiset(requests)[k] > 0;
        if k in cache.items {
          ScanFindsReferences(cache.items, src, k);
          NamedIff(cache.items[k], src);
        }
      }
    }
  }

  /** The resources of a namespace that `uses` picks, each once. */
  ghost predicate Picked(items: map<Key, CR>, uses: CR -> bool, ns: string, requests: seq<Key>) {
    forall k :: multiset(requests)[k] == if k in items && k.ns == ns && uses(items[k]) then 1 else 0
  }

  /** Go through the resources of the namespace; a list that fails yields no request. */
  method Select(cache: Cache, uses: CR -> bool, ns: string, fail: bool) returns (requests: seq<Key>)
    ensures if fail then requests == [] else Picked(cache.items, uses, ns, requests)
  {
    requests := [];
    if fail {
      return;
    }
    var keys := cache.ListNamespace(ns);
    var i := 0;
    while i < |keys|
      invariant 0 <= i <= |keys|
      invariant forall k ::
        multiset(requests)[k] == if k in cache.items && uses(cache.items[k]) then multiset(keys[..i])[k] else 0
    {
      assert keys[i] in cache.items by { assert multiset(keys)[keys[i]] > 0; }
      if uses(cache.items[keys[i]]) {
        requests := requests + [keys[i]];
      }
      assert keys[..i + 1] == keys[..i] + [keys[i]];
      i := i + 1;
    }
    assert keys[..i] == keys;
  }

  method MemcachedFn(cache: Cache, src: Key, fail: bool) returns (requests: seq<Key>)
    requires cache.Valid()
    ensures fail ==> requests == []
    ensures !fail ==> Picked(cache.items, cr => UsesMemcached(cr, src), src.ns, requests)
    ensures !fail ==> forall k :: k in requests <==> k in cache.items && UsesMemcached(cache.items[k], src)
    ensures !fail ==> forall k :: k in requests <==>
      k in cache.items && k.ns == src.ns && cache.items[k].spec.memcachedInstance == src.name
  {
    requests := Select(cache, (cr: CR) => src.name == cr.spec.memcachedInstance, src.ns, fail);
    assert forall k :: k in requests <==> multiset(requests)[k] > 0;
  }

  method NadFn(cache: Cache, src: Key, fail: bool) returns (requests: seq<Key>)
    requires cache.Valid()
    ensures fail ==> requests == []
    ensures !fail ==> Picked(cache.items, cr => UsesNAD(cr, src), src.ns, requests)
    ensures !fail ==> forall k :: k in requests <==> k in cache.items && UsesNAD(cache.items[k], src)
    ensures !fail ==> forall k :: k in requests <==>
      k in cache.items && k.ns == src.ns && src.name in cache.items[k].spec.networkAttachments
  {
    requests := Select(cache, (cr: CR) => src.name in cr.spec.networkAttachments, src.ns, fail);
    assert forall k :: k in requests <==> multiset(requests)[k] > 0;
  }

  method KeystoneServiceFn(cache: Cache, src: Key, fail: bool) returns (requests: seq<Key>)
    requires cache.Valid()
    ensures fail ==> requests == []
    ensures !fail ==> Picked(cache.items, cr => UsesKeystoneService(cr, src), src.ns, requests)
    ensures !fail ==> forall k :: k in requests <==> k in cache.items && UsesKeystoneService(cache.items[k], src)
    ensures !fail ==> forall k :: k in requests <==> k in cache.items && k.ns == src.ns && src.name in ["cloudkitty", "watcher"]
  {
    requests := [];
    if src.name in KEYSTONE_SERVICES_WATCH {
      requests := Select(cache, cr => true, src.ns, fail);
    }
    assert forall k :: k in requests <==> multiset(requests)[k] > 0;
  }

  /** A change of the Keystone API concerns every resource of its namespace. */
  method FindObjectForSrc(cache: Cache, src: Key, fail: bool) returns (requests: seq<Key>)
    requires cache.Valid()
    ensures fail ==> requests == []
    ensures !fail ==> Picked(cache.items, cr => true, src.ns, requests)
    ensures !fail ==> forall k :: k in requests <==> k in cache.items && k.ns == src.ns
  {
    requests := Select(cache, cr => true, src.ns, fail);
    assert forall k :: k in requests <==> multiset(requests)[k] > 0;
  }
}
