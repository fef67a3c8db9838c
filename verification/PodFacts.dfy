/** What every built Deployment satisfies, whatever the user mounts and however TLS is set. */
module PodFacts {
  import opened Wrappers
  import opened Api
  import opened Clusters
  import opened Passes
  import opened Pods
  import opened Volumes
  import opened PodBuilder

  // ---------- lockstep propagation ----------

  /** The user's entries one after another. */
  function Entries(extra: seq<ExtraVolMounts>): seq<VolMounts> {
    FlatMap((e: ExtraVolMounts) => e.volMounts, extra)
  }

  ghost function Kept(v: VolMounts): seq<VolMounts> {
    if Ignored(v) then [] else [v]
  }

  /** The entries that are not ignored, in their order. */
  ghost function WithoutBadThemes(vs: seq<VolMounts>): seq<VolMounts> {
    FlatMap((v: VolMounts) => Kept(v), vs)
  }

  function PropagateAll(prop: Propagation, svc: seq<string>, vs: seq<VolMounts>): seq<VolMounts> {
    FlatMap((v: VolMounts) => prop(v, svc), vs)
  }

  lemma WithoutBadThemesAppend(a: seq<VolMounts>, b: seq<VolMounts>)
    ensures WithoutBadThemes(a + b) == WithoutBadThemes(a) + WithoutBadThemes(b)
  {
    hide Kept;
    FlatMapAppend((v: VolMounts) => Kept(v), a, b);
  }

  lemma PropagateAllAppend(prop: Propagation, svc: seq<string>, a: seq<VolMounts>, b: seq<VolMounts>)
    ensures PropagateAll(prop, svc, a + b) == PropagateAll(prop, svc, a) + PropagateAll(prop, svc, b)
  {
    FlatMapAppend((v: VolMounts) => prop(v, svc), a, b);
  }

  lemma {:induction false} EntryIsFiltered(prop: Propagation, svc: seq<string>, vs: seq<VolMounts>)
    ensures FlatMap((v: VolMounts) => Contribution(prop, svc, v), vs) == PropagateAll(prop, svc, WithoutBadThemes(vs))
  {
    hide Ignored;
    if vs != [] {
      IgnoredIffBad(vs[0]);
      EntryIsFiltered(prop, svc, vs[1..]);
      PropagateAllAppend(prop, svc, Kept(vs[0]), WithoutBadThemes(vs[1..]));
      FlatMapOne((v: VolMounts) => prop(v, svc), vs[0]);
    }
  }

  /**
    Volumes and mounts are read off one and the same sequence: the user's entries in their order,
    without the bad themes, each handed to the storage library's filter.
    */
  lemma {:induction false} PropagationIsLockstep(prop: Propagation, svc: seq<string>, extra: seq<ExtraVolMounts>)
    ensures Propagated(prop, svc, extra) == PropagateAll(prop, svc, WithoutBadThemes(Entries(extra)))
  {
    if extra != [] {
      PropagationIsLockstep(prop, svc, extra[1..]);
      EntryIsFiltered(prop, svc, extra[0].volMounts);
      WithoutBadThemesAppend(extra[0].volMounts, Entries(extra[1..]));
      PropagateAllAppend(prop, svc, WithoutBadThemes(extra[0].volMounts), WithoutBadThemes(Entries(extra[1..])));
    }
  }

  /** Two types that differ in nothing but capitals. */
  predicate SameLetters(a: string, b: string) {
    |a| == |b| && forall i | 0 <= i < |a| :: a[i] == b[i] || IsCapitalOf(a[i], b[i]) || IsCapitalOf(b[i], a[i])
  }

  predicate IsCapitalOf(c: char, d: char) {
    'a' <= d <= 'z' && c as int + 32 == d as int
  }

  lemma SpelledAlike(a: string, b: string, word: string, i: int)
    requires SameLetters(a, b) && SpelledAt(a, word, i) && forall j | 0 <= j < |word| :: 'a' <= word[j] <= 'z'
    ensures SpelledAt(b, word, i)
  {
  }

  lemma SpellsAlike(a: string, b: string)
    requires SameLetters(a, b) && Spells(a, "theme")
    ensures Spells(b, "theme")
  {
    hide SameLetters, SpelledAt;
    var i :| SpelledAt(a, "theme", i);
    SpelledAlike(a, b, "theme", i);
  }

  /**
    Themes are judged by the letters of their type and the directories of their mounts: capitals make no
    difference; a theme with a mount elsewhere contributes nothing; everything else is handed on.
    */
  lemma ThemesAreJudged(prop: Propagation, svc: seq<string>, v: VolMounts, extraVolType: string)
    requires SameLetters(v.extraVolType, extraVolType)
    ensures var w, c := v.(extraVolType := extraVolType), Contribution(prop, svc, v);
      && ((c == [] && Contribution(prop, svc, w) == []) || (c == prop(v, svc) && Contribution(prop, svc, w) == prop(w, svc)))
      && (Spells(v.extraVolType, "theme") && (exists m :: m in v.mounts && !InThemeDirectory(m)) ==> c == [])
      && (!Spells(v.extraVolType, "theme") ==> c == prop(v, svc))
      && ((forall m | m in v.mounts :: InThemeDirectory(m)) ==> c == prop(v, svc))
  {
    hide InThemeDirectory, Spells, SameLetters;
    var w := v.(extraVolType := extraVolType);
    IgnoredIffBad(v);
    IgnoredIffBad(w);
    if Spells(v.extraVolType, "theme") {
      SpellsAlike(v.extraVolType, extraVolType);
    }
    if Spells(extraVolType, "theme") {
      SameLettersBack(v.extraVolType, extraVolType);
      SpellsAlike(extraVolType, v.extraVolType);
    }
  }

  lemma SameLettersBack(a: string, b: string)
    requires SameLetters(a, b)
    ensures SameLetters(b, a)
  {
  }

  /** What the user mounts in two lists is what the lists mount one after the other. */
  lemma ExtraMountsDistribute(prop: Propagation, a: seq<ExtraVolMounts>, b: seq<ExtraVolMounts>)
    ensures UserVolumes(prop, a + b) == UserVolumes(prop, a) + UserVolumes(prop, b)
    ensures UserMounts(prop, a + b) == UserMounts(prop, a) + UserMounts(prop, b)
  {
    hide PropagatedEntry;
    FlatMapAppend((e: ExtraVolMounts) => PropagatedEntry(prop, HORIZON_PROPAGATION, e), a, b);
    VolumesAppend(Propagated(prop, HORIZON_PROPAGATION, a), Propagated(prop, HORIZON_PROPAGATION, b));
  }

  /** One entry of the user's, as it is or left out, in any surroundings. */
  function Around(before: seq<ExtraVolMounts>, e: ExtraVolMounts, vs: seq<VolMounts>, after: seq<ExtraVolMounts>): seq<ExtraVolMounts> {
    before + [e.(volMounts := vs)] + after
  }

  /** A bad theme might as well not be there: neither its volumes nor its mounts reach the pod. */
  lemma BadThemeLeavesNothing(prop: Propagation, before: seq<ExtraVolMounts>, e: ExtraVolMounts, a: seq<VolMounts>,
                              v: VolMounts, b: seq<VolMounts>, after: seq<ExtraVolMounts>)
    requires Ignored(v)
    ensures UserVolumes(prop, Around(before, e, a + [v] + b, after)) == UserVolumes(prop, Around(before, e, a + b, after))
    ensures UserMounts(prop, Around(before, e, a + [v] + b, after)) == UserMounts(prop, Around(before, e, a + b, after))
  {
    hide Ignored, VolumesIn, MountsIn, Propagated, Entries, Around, PropagateAll;
    PropagationIsLockstep(prop, HORIZON_PROPAGATION, Around(before, e, a + [v] + b, after));
    PropagationIsLockstep(prop, HORIZON_PROPAGATION, Around(before, e, a + b, after));
    EntriesAround(before, e, a + [v] + b, after);
    EntriesAround(before, e, a + b, after);
    FilteredAround(Entries(before), a + [v] + b, Entries(after));
    FilteredAround(Entries(before), a + b, Entries(after));
    FilteredAround(a, [v], b);
    WithoutBadThemesAppend(a, b);
    FlatMapOne((v: VolMounts) => Kept(v), v);
    assert WithoutBadThemes(a) + [] + WithoutBadThemes(b) == WithoutBadThemes(a) + WithoutBadThemes(b);
  }

  lemma FilteredAround(x: seq<VolMounts>, vs: seq<VolMounts>, y: seq<VolMounts>)
    ensures WithoutBadThemes(x + vs + y) == WithoutBadThemes(x) + WithoutBadThemes(vs) + WithoutBadThemes(y)
  {
    WithoutBadThemesAppend(x + vs, y);
    WithoutBadThemesAppend(x, vs);
  }

  lemma EntriesAround(before: seq<ExtraVolMounts>, e: ExtraVolMounts, vs: seq<VolMounts>, after: seq<ExtraVolMounts>)
    ensures Entries(Around(before, e, vs, after)) == Entries(before) + vs + Entries(after)
  {
    var f := (e: ExtraVolMounts) => e.volMounts;
    FlatMapAppend(f, before + [e.(volMounts := vs)], after);
    FlatMapAppend(f, before, [e.(volMounts := vs)]);
    assert FlatMap(f, [e.(volMounts := vs)]) == vs;
  }

  // ---------- closure of volume references ----------

  ghost predicate Covers(volumes: seq<Volume>, mounts: seq<VolumeMount>) {
    forall m | m in mounts :: exists v :: v in volumes && v.name == m.name
  }

  /** Every mount of the entry names a volume of the entry. */
  ghost predicate SelfContained(v: VolMounts) {
    Covers(v.volumes, v.mounts)
  }

  /** The storage library's filter hands on whole entries, or at least self-contained ones. */
  ghost predicate KeepsEntriesWhole(prop: Propagation) {
    forall v, svc, r | SelfContained(v) && r in prop(v, svc) :: SelfContained(r)
  }

  lemma CoversAppend(a: seq<Volume>, b: seq<Volume>, p: seq<VolumeMount>, q: seq<VolumeMount>)
    requires Covers(a, p) && Covers(b, q)
    ensures Covers(a + b, p + q)
  {
    forall m | m in p + q
      ensures exists v :: v in a + b && v.name == m.name
    {
      if m in p {
        var v :| v in a && v.name == m.name;
        assert v in a + b;
      } else {
        var v :| v in b && v.name == m.name;
        assert v in a + b;
      }
    }
  }

  lemma {:induction false} EntriesCover(vs: seq<VolMounts>)
    requires forall v | v in vs :: SelfContained(v)
    ensures Covers(VolumesIn(vs), MountsIn(vs))
  {
    if vs != [] {
      assert SelfContained(vs[0]);
      EntriesCover(vs[1..]);
      CoversAppend(vs[0].volumes, VolumesIn(vs[1..]), vs[0].mounts, MountsIn(vs[1..]));
    }
  }

  lemma {:induction false} PropagatedStayContained(prop: Propagation, svc: seq<string>, vs: seq<VolMounts>)
    requires KeepsEntriesWhole(prop) && forall v | v in vs :: SelfContained(v)
    ensures forall v | v in PropagateAll(prop, svc, vs) :: SelfContained(v)
  {
    hide SelfContained;
    if vs != [] {
      PropagatedStayContained(prop, svc, vs[1..]);
    }
  }

  lemma {:induction false} FilteredAreEntries(vs: seq<VolMounts>)
    ensures forall v | v in WithoutBadThemes(vs) :: v in vs
  {
    if vs != [] {
      FilteredAreEntries(vs[1..]);
      assert WithoutBadThemes(vs) == Kept(vs[0]) + WithoutBadThemes(vs[1..]);
    }
  }

  /**
    If the user's entries are self-contained, every mount of both containers names a volume of the
    pod, with or without TLS, a CA bundle and a memcached certificate.
    */
  lemma MountsHaveVolumes(prop: Propagation, key: Key, spec: Spec, hash: string, labels: map<string, string>,
                          annotations: map<string, string>, services: map<string, string>,
                          topology: Option<string>, m: MTLS)
    requires KeepsEntriesWhole(prop) && forall v | v in Entries(spec.extraMounts) :: SelfContained(v)
    ensures var d := BuildDeployment(prop, key, spec, hash, labels, annotations, services, topology, m);
      Covers(d.volumes, d.horizonContainer.mounts) && Covers(d.volumes, d.logContainer.mounts)
  {
    hide Covers, Entries, VolumesIn, MountsIn, Propagated, SelfContained, KeepsEntriesWhole;
    var entries := Entries(spec.extraMounts);
    PropagationIsLockstep(prop, HORIZON_PROPAGATION, spec.extraMounts);
    FilteredAreEntries(entries);
    PropagatedStayContained(prop, HORIZON_PROPAGATION, WithoutBadThemes(entries));
    EntriesCover(Propagated(prop, HORIZON_PROPAGATION, spec.extraMounts));
    var users, userMounts := UserVolumes(prop, spec.extraMounts), UserMounts(prop, spec.extraMounts);
    FixedCover(key.name, spec.tls, m);
    CoversAppend(VolumesHead(key.name), users, MountsHead(), userMounts);
    CoversAppend(VolumesHead(key.name) + users, [LogVolume()], MountsHead() + userMounts, [LogVolumeMount()]);
    CoversAppend(VolumesHead(key.name) + users + [LogVolume()], TLSVolumes(spec.tls),
                 MountsHead() + userMounts + [LogVolumeMount()], TLSMounts(spec.tls));
    CoversAppend(VolumesHead(key.name) + users + [LogVolume()] + TLSVolumes(spec.tls), CacheVolumes(m),
                 MountsHead() + userMounts + [LogVolumeMount()] + TLSMounts(spec.tls), CacheMounts(m));
    LogIsCovered(VolumesHead(key.name) + users, TLSVolumes(spec.tls) + CacheVolumes(m));
    assert PodVolumes(prop, key.name, spec, m)
        == (VolumesHead(key.name) + users) + [LogVolume()] + (TLSVolumes(spec.tls) + CacheVolumes(m));
  }

  function TLSVolumes(t: TLS): seq<Volume> {
    if t.Enabled() then CAVolumes(t) + [CertVolume(t)] else []
  }

  function TLSMounts(t: TLS): seq<VolumeMount> {
    if t.Enabled() then CAMounts(t) + CertMounts() else []
  }

  function CacheVolumes(m: MTLS): seq<Volume> {
    if m.secret != "" then [MTLSVolume(m)] else []
  }

  function CacheMounts(m: MTLS): seq<VolumeMount> {
    if m.secret != "" then MTLSMounts(m) else []
  }

  lemma FixedCover(name: string, t: TLS, m: MTLS)
    ensures Covers(VolumesHead(name), MountsHead()) && Covers([LogVolume()], [LogVolumeMount()])
    ensures Covers(TLSVolumes(t), TLSMounts(t)) && Covers(CacheVolumes(m), CacheMounts(m))
  {
    HeadIsCovered(name);
    assert LogVolume() in [LogVolume()];
    if t.Enabled() {
      assert CertVolume(t) in TLSVolumes(t);
      if t.caBundleSecretName != "" {
        assert CAVolumes(t)[0] in TLSVolumes(t);
      }
    }
    if m.secret != "" {
      assert MTLSVolume(m) in CacheVolumes(m);
    }
  }

  lemma HeadIsCovered(name: string)
    ensures Covers(VolumesHead(name), MountsHead())
  {
    var head := VolumesHead(name);
    assert head[0] in head && head[1] in head && head[2] in head;
  }

  lemma LogIsCovered(before: seq<Volume>, after: seq<Volume>)
    ensures Covers(before + [LogVolume()] + after, [LogVolumeMount()])
  {
    assert LogVolume() in before + [LogVolume()] + after;
  }

  // ---------- TLS ----------

  predicate HasVolume(volumes: seq<Volume>, name: string) {
    exists v :: v in volumes && v.name == name
  }

  predicate HasMount(mounts: seq<VolumeMount>, name: string) {
    exists m :: m in mounts && m.name == name
  }

  lemma HasAppend(a: seq<Volume>, b: seq<Volume>, p: seq<VolumeMount>, q: seq<VolumeMount>, name: string)
    ensures HasVolume(a + b, name) <==> HasVolume(a, name) || HasVolume(b, name)
    ensures HasMount(p + q, name) <==> HasMount(p, name) || HasMount(q, name)
  {
    forall v | v in a || v in b
      ensures v in a + b
    {
    }
    forall m | m in p || m in q
      ensures m in p + q
    {
    }
  }

  /** The user, or the certificate for memcached, brings a volume or mount with the name of the certificate's. */
  predicate BringsVolume(prop: Propagation, spec: Spec, m: MTLS) {
    m.secret == TLS_VOLUME || HasVolume(UserVolumes(prop, spec.extraMounts), TLS_VOLUME)
  }

  predicate BringsMount(prop: Propagation, spec: Spec, m: MTLS) {
    (m.secret == TLS_VOLUME && m.paths != []) || HasMount(UserMounts(prop, spec.extraMounts), TLS_VOLUME)
  }

  /**
    Service, httpd configuration and container agree on the port; the Listen flag and the three probes
    are those of TLS exactly when it is enabled. The certificate volume and its mounts are there then,
    and a volume or mount of that name otherwise only if somebody else brings it.
    */
  lemma TLSIsCoherent(prop: Propagation, cr: CR, url: Url, keystoneURL: string, c: MemcachedObject, hash: string,
                      labels: map<string, string>, annotations: map<string, string>, services: map<string, string>,
                      topology: Option<string>)
    ensures var d := BuildDeployment(prop, cr.key, cr.spec, hash, labels, annotations, services, topology, c.mtls);
      var p := Parameters(cr, keystoneURL, url, c);
      && ServicePorts(cr.spec).targetPort == p.port == d.containerPort
      && d.liveness.scheme == d.readiness.scheme == d.startup.scheme
      && (cr.spec.tls.Enabled() <==> p.tls) && (cr.spec.tls.Enabled() <==> d.liveness.scheme == HTTPS)
      && (cr.spec.tls.Enabled() <==> d.containerPort == HORIZON_PORT_TLS)
      && (HasVolume(d.volumes, TLS_VOLUME) <==> cr.spec.tls.Enabled() || BringsVolume(prop, cr.spec, c.mtls))
      && (HasMount(d.horizonContainer.mounts, TLS_VOLUME) <==> cr.spec.tls.Enabled() || BringsMount(prop, cr.spec, c.mtls))
      && (cr.spec.tls.Enabled() ==>
          CertVolume(cr.spec.tls) in d.volumes && forall x | x in CertMounts() :: x in d.horizonContainer.mounts)
  {
    hide HasVolume, HasMount, UserVolumes, UserMounts, EnvVars;
    var spec, name := cr.spec, TLS_VOLUME;
    var v1, p1 := VolumesHead(cr.key.name), MountsHead();
    var v2, p2 := UserVolumes(prop, spec.extraMounts), UserMounts(prop, spec.extraMounts);
    FixedNames(cr.key.name, spec.tls);
    CacheNames(c.mtls);
    HasAppend(v1, v2, p1, p2, name);
    HasAppend(v1 + v2, [LogVolume()], p1 + p2, [LogVolumeMount()], name);
    HasAppend(v1 + v2 + [LogVolume()], TLSVolumes(spec.tls), p1 + p2 + [LogVolumeMount()], TLSMounts(spec.tls), name);
    HasAppend(v1 + v2 + [LogVolume()] + TLSVolumes(spec.tls), CacheVolumes(c.mtls),
              p1 + p2 + [LogVolumeMount()] + TLSMounts(spec.tls), CacheMounts(c.mtls), name);
  }

  lemma FixedNames(name: string, t: TLS)
    ensures !HasVolume(VolumesHead(name), TLS_VOLUME) && !HasMount(MountsHead(), TLS_VOLUME)
    ensures !HasVolume([LogVolume()], TLS_VOLUME) && !HasMount([LogVolumeMount()], TLS_VOLUME)
    ensures HasVolume(TLSVolumes(t), TLS_VOLUME) <==> t.Enabled()
    ensures HasMount(TLSMounts(t), TLS_VOLUME) <==> t.Enabled()
  {
    if t.Enabled() {
      assert CertVolume(t) in TLSVolumes(t);
      assert CertMounts()[0] in TLSMounts(t);
    }
  }

  lemma CacheNames(m: MTLS)
    ensures HasVolume(CacheVolumes(m), TLS_VOLUME) <==> m.secret == TLS_VOLUME
    ensures HasMount(CacheMounts(m), TLS_VOLUME) <==> m.secret == TLS_VOLUME && m.paths != []
  {
    if m.secret == TLS_VOLUME {
      assert MTLSVolume(m) in CacheVolumes(m);
      if m.paths != [] {
        assert MTLSMounts(m)[0] in CacheMounts(m);
      }
    }
  }

  // ---------- the whole pod ----------

  /** The user's entries that reach the pod. */
  ghost function UserEntries(prop: Propagation, spec: Spec): seq<VolMounts> {
    PropagateAll(prop, ["Horizon"], WithoutBadThemes(Entries(spec.extraMounts)))
  }

  /** Every volume of the pod, by name and source. */
  lemma VolumesAre(prop: Propagation, key: Key, spec: Spec, hash: string, labels: map<string, string>,
                   annotations: map<string, string>, services: map<string, string>,
                   topology: Option<string>, m: MTLS)
    ensures var tls, ca := spec.tls.secretName.Some? && spec.tls.secretName.value != "", spec.tls.caBundleSecretName;
      BuildDeployment(prop, key, spec, hash, labels, annotations, services, topology, m).volumes
      == [Volume("config-data", ConfigMapSource(key.name + "-config-data", 416)),
          Volume("horizon-secret-key", SecretSource("horizon", 384)),
          Volume("scripts", ConfigMapSource("horizon-scripts", 493))]
         + VolumesIn(UserEntries(prop, spec)) + [Volume("logs", EmptyDirSource)]
         + (if tls then (if ca != "" then [Volume("combined-ca-bundle", SecretSource(ca, 256))] else [])
                        + [Volume("horizon-tls-certs", SecretSource(spec.tls.secretName.value, 256))] else [])
         + (if m.secret != "" then [Volume(m.secret, SecretSource(m.secret, 256))] else [])
  {
    hide Propagated, UserEntries, EnvVars, PodMounts, VolumesIn;
    UserEntriesAre(prop, spec);
    assert SERVICE_NAME + "-scripts" == "horizon-scripts";
  }

  lemma HeadMounts()
    ensures MountsHead()
         == [VolumeMount("config-data", "/var/lib/config-data/default/", "", false),
             VolumeMount("config-data", "/var/lib/kolla/config_files/config.json", "horizon.json", true),
             VolumeMount("horizon-secret-key", "/run/openstack-dashboard/.secrets", "", true),
             VolumeMount("scripts", "/usr/local/bin/container-scripts", "", true),
             VolumeMount("scripts", "/usr/local/bin/kolla_theme_setup", "kolla_theme_setup", true)]
  {
  }

  lemma CertificateMounts(t: TLS)
    ensures TLSMounts(t)
         == if t.secretName.Some? && t.secretName.value != "" then
              (if t.caBundleSecretName != ""
               then [VolumeMount("combined-ca-bundle", "/etc/pki/ca-trust/extracted/pem/tls-ca-bundle.pem", "tls-ca-bundle.pem", true)]
               else [])
              + [VolumeMount("horizon-tls-certs", "/var/lib/config-data/tls/certs/horizon.crt", "tls.crt", true),
                 VolumeMount("horizon-tls-certs", "/var/lib/config-data/tls/private/horizon.key", "tls.key", true)]
            else []
  {
  }

  lemma CertificateForCache(m: MTLS)
    ensures |CacheMounts(m)| == if m.secret == "" then 0 else |m.paths|
    ensures forall i | 0 <= i < |CacheMounts(m)| :: CacheMounts(m)[i] == VolumeMount(m.secret, m.paths[i], "", true)
  {
  }

  /** Every mount of both containers, by name and place. */
  lemma MountsAre(prop: Propagation, key: Key, spec: Spec, hash: string, labels: map<string, string>,
                  annotations: map<string, string>, services: map<string, string>,
                  topology: Option<string>, m: MTLS)
    ensures var d := BuildDeployment(prop, key, spec, hash, labels, annotations, services, topology, m);
      && d.logContainer.mounts == [VolumeMount("logs", "/var/log/horizon", "", false)]
      && d.horizonContainer.mounts
         == [VolumeMount("config-data", "/var/lib/config-data/default/", "", false),
             VolumeMount("config-data", "/var/lib/kolla/config_files/config.json", "horizon.json", true),
             VolumeMount("horizon-secret-key", "/run/openstack-dashboard/.secrets", "", true),
             VolumeMount("scripts", "/usr/local/bin/container-scripts", "", true),
             VolumeMount("scripts", "/usr/local/bin/kolla_theme_setup", "kolla_theme_setup", true)]
            + MountsIn(UserEntries(prop, spec)) + [VolumeMount("logs", "/var/log/horizon", "", false)]
            + TLSMounts(spec.tls) + CacheMounts(m)
  {
    hide Propagated, UserEntries, EnvVars, PodVolumes, MountsIn, MountsHead, CAMounts, CertMounts, MTLSMounts;
    UserEntriesAre(prop, spec);
    HeadMounts();
  }

  lemma UserEntriesAre(prop: Propagation, spec: Spec)
    ensures Propagated(prop, HORIZON_PROPAGATION, spec.extraMounts) == UserEntries(prop, spec)
  {
    PropagationIsLockstep(prop, HORIZON_PROPAGATION, spec.extraMounts);
  }

  // ---------- the environment of the containers ----------

  const INPUT_VARIABLES := {"CONFIG_HASH", "ENABLE_CLOUDKITTY", "ENABLE_WATCHER"}

  /** The value of a service flag; a service that was not looked up has an empty one. */
  function Flag(services: map<string, string>, name: string): string {
    Get(services, name).GetOr("")
  }

  /** Three variables carry what a pass found out, and no other variable depends on anything. */
  lemma EnvironmentTells(hash1: string, services1: map<string, string>, hash2: string, services2: map<string, string>)
    ensures var a, b := EnvVars(hash1, services1), EnvVars(hash2, services2);
      && a.Keys == b.Keys && INPUT_VARIABLES <= a.Keys
      && (forall n | n in a && n !in INPUT_VARIABLES :: a[n] == b[n])
      && (a == b <==> hash1 == hash2
                      && Flag(services1, "cloudkitty") == Flag(services2, "cloudkitty")
                      && Flag(services1, "watcher") == Flag(services2, "watcher"))
  {
    var a, b := EnvVars(hash1, services1), EnvVars(hash2, services2);
    assert a["CONFIG_HASH"] == hash1 && b["CONFIG_HASH"] == hash2;
    assert a["ENABLE_CLOUDKITTY"] == Flag(services1, "cloudkitty") && b["ENABLE_CLOUDKITTY"] == Flag(services2, "cloudkitty");
    assert a["ENABLE_WATCHER"] == Flag(services1, "watcher") && b["ENABLE_WATCHER"] == Flag(services2, "watcher");
  }
}
