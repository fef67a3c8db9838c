/** Volumes and mounts of the Horizon pod, and the user's extra mounts (volumes.go, horizon_types.go). */
module Volumes {

  const SERVICE_NAME := "horizon"
  const CUSTOM_THEME_MOUNT_PATH := "/etc/openstack-dashboard/theme"
  const CUSTOM_THEME_SETTING := "/etc/openstack-dashboard/local_settings.d"
  const THEME_EXTRA_VOL_TYPE := "theme"

  const HORIZON_PROPAGATION: seq<string> := ["Horizon"]

  datatype VolumeSource =
    | ConfigMapSource(configMap: string, configMapMode: nat)
    | SecretSource(secret: string, secretMode: nat)
    | EmptyDirSource
    | UserSource(text: string)

  datatype Volume = Volume(name: string, source: VolumeSource)

  datatype VolumeMount = VolumeMount(name: string, mountPath: string, subPath: string, readOnly: bool)

  datatype VolMounts = VolMounts(
    extraVolType: string, propagation: seq<string>, volumes: seq<Volume>, mounts: seq<VolumeMount>)

  datatype ExtraVolMounts = ExtraVolMounts(name: string, region: string, volMounts: seq<VolMounts>)

  /** The storage library's own filter; its source is not part of this model. */
  type Propagation = (VolMounts, seq<string>) -> seq<VolMounts>

  // ---------- text matching ----------

  function ToLower(s: string): (r: string)
    ensures |r| == |s|
    ensures forall i | 0 <= i < |s| :: r[i] == if 'A' <= s[i] <= 'Z' then s[i] + 32 as char else s[i]
  {
    if s == [] then []
    else [if 'A' <= s[0] <= 'Z' then s[0] + 32 as char else s[0]] + ToLower(s[1..])
  }

  predicate Contains(s: string, part: string) {
    exists i | 0 <= i <= |s| :: part <= s[i..]
  }

  predicate IsTheme(v: VolMounts) {
    Contains(ToLower(v.extraVolType), THEME_EXTRA_VOL_TYPE)
  }

  predicate ValidThemePath(m: VolumeMount) {
    Contains(m.mountPath, CUSTOM_THEME_MOUNT_PATH) || Contains(m.mountPath, CUSTOM_THEME_SETTING)
  }

  // ---------- the same on the letters ----------

  /** The character is the lower-case letter, or the capital of it. */
  predicate IsLetter(c: char, letter: char) {
    c == letter || ('a' <= letter <= 'z' && c as int + 32 == letter as int)
  }

  predicate SpelledAt(s: string, word: string, i: int) {
    0 <= i <= |s| - |word| && forall j | 0 <= j < |word| :: IsLetter(s[i + j], word[j])
  }

  predicate StandsAt(s: string, part: string, i: int) {
    0 <= i <= |s| - |part| && s[i..i + |part|] == part
  }

  /** The lower-case word stands somewhere in the text, in capitals or not. */
  ghost predicate Spells(s: string, word: string) {
    exists i :: SpelledAt(s, word, i)
  }

  /** The text has the part in it. */
  ghost predicate Within(s: string, part: string) {
    exists i :: StandsAt(s, part, i)
  }

  /** A mount in one of the two directories for themes. */
  ghost predicate InThemeDirectory(m: VolumeMount) {
    Within(m.mountPath, "/etc/openstack-dashboard/theme") || Within(m.mountPath, "/etc/openstack-dashboard/local_settings.d")
  }

  /** A theme, in any spelling, with a mount elsewhere. */
  ghost predicate Ignored(v: VolMounts) {
    Spells(v.extraVolType, "theme") && exists m :: m in v.mounts && !InThemeDirectory(m)
  }

  lemma StandsAtIff(s: string, part: string, i: int)
    requires 0 <= i <= |s|
    ensures part <= s[i..] <==> StandsAt(s, part, i)
  {
    if part <= s[i..] {
      assert s[i..][..|part|] == s[i..i + |part|];
    }
    if StandsAt(s, part, i) {
      assert s[i..][..|part|] == s[i..i + |part|];
    }
  }

  lemma ContainsIffWithin(s: string, part: string)
    ensures Contains(s, part) <==> Within(s, part)
  {
    if Contains(s, part) {
      var i :| 0 <= i <= |s| && part <= s[i..];
      StandsAtIff(s, part, i);
    }
    if Within(s, part) {
      var i :| StandsAt(s, part, i);
      StandsAtIff(s, part, i);
    }
  }

  lemma LowersTo(c: char, letter: char)
    requires 'a' <= letter <= 'z'
    ensures (if 'A' <= c <= 'Z' then c + 32 as char else c) == letter <==> IsLetter(c, letter)
  {
  }

  lemma LowerStands(s: string, word: string, i: int)
    requires forall j | 0 <= j < |word| :: 'a' <= word[j] <= 'z'
    ensures StandsAt(ToLower(s), word, i) <==> SpelledAt(s, word, i)
  {
    hide IsLetter;
    var low := ToLower(s);
    if 0 <= i <= |s| - |word| {
      forall j | 0 <= j < |word|
        ensures low[i + j] == word[j] <==> IsLetter(s[i + j], word[j])
      {
        LowersTo(s[i + j], word[j]);
      }
      if low[i..i + |word|] == word {
        forall j | 0 <= j < |word|
          ensures low[i + j] == word[j]
        {
          assert low[i..i + |word|][j] == low[i + j];
        }
      }
    }
  }

  lemma LowerSpells(s: string)
    ensures Within(ToLower(s), "theme") <==> Spells(s, "theme")
  {
    hide StandsAt, SpelledAt, ToLower;
    forall i
      ensures StandsAt(ToLower(s), "theme", i) <==> SpelledAt(s, "theme", i)
    {
      LowerStands(s, "theme", i);
    }
  }

  /** The same of the code: it lowers the type and looks for parts. */
  lemma IgnoredIffBad(v: VolMounts)
    ensures Ignored(v) <==> IsTheme(v) && !ThemeIsValid(v.mounts)
  {
    hide Contains, Within, Spells, ToLower;
    LowerSpells(v.extraVolType);
    ContainsIffWithin(ToLower(v.extraVolType), "theme");
    forall m | m in v.mounts
      ensures ValidThemePath(m) <==> InThemeDirectory(m)
    {
      ContainsIffWithin(m.mountPath, CUSTOM_THEME_MOUNT_PATH);
      ContainsIffWithin(m.mountPath, CUSTOM_THEME_SETTING);
    }
  }

  // ---------- the specification: one filtered sequence, read twice ----------

  function FlatMap<A, B>(f: A -> seq<B>, xs: seq<A>): seq<B> {
    if xs == [] then [] else f(xs[0]) + FlatMap(f, xs[1..])
  }

  lemma {:induction false} FlatMapAppend<A, B>(f: A -> seq<B>, xs: seq<A>, ys: seq<A>)
    ensures FlatMap(f, xs + ys) == FlatMap(f, xs) + FlatMap(f, ys)
  {
    if xs == [] {
      assert xs + ys == ys;
    } else {
      FlatMapAppend(f, xs[1..], ys);
      assert (xs + ys)[1..] == xs[1..] + ys;
    }
  }

  lemma FlatMapOne<A, B>(f: A -> seq<B>, x: A)
    ensures FlatMap(f, [x]) == f(x)
  {
    assert [x][1..] == [] && FlatMap(f, []) == [];
  }

  lemma {:induction false} FlatMapTake<A, B>(f: A -> seq<B>, xs: seq<A>, i: nat)
    requires i < |xs|
    ensures FlatMap(f, xs[..i + 1]) == FlatMap(f, xs[..i]) + f(xs[i])
  {
    FlatMapAppend(f, xs[..i], [xs[i]]);
    assert xs[..i + 1] == xs[..i] + [xs[i]];
    FlatMapOne(f, xs[i]);
  }

  lemma {:induction false} FlatMapAgrees<A, B>(f: A -> seq<B>, g: A -> seq<B>, xs: seq<A>)
    requires forall x | x in xs :: f(x) == g(x)
    ensures FlatMap(f, xs) == FlatMap(g, xs)
  {
    if xs != [] {
      FlatMapAgrees(f, g, xs[1..]);
    }
  }

  predicate ThemeIsValid(mounts: seq<VolumeMount>) {
    forall m | m in mounts :: ValidThemePath(m)
  }

  /** What one entry contributes: nothing, or what the storage library propagates of it. */
  function Contribution(prop: Propagation, svc: seq<string>, v: VolMounts): seq<VolMounts> {
    if IsTheme(v) && !ThemeIsValid(v.mounts) then [] else prop(v, svc)
  }

  /** What one of the user's extra mounts contributes. */
  function PropagatedEntry(prop: Propagation, svc: seq<string>, e: ExtraVolMounts): seq<VolMounts> {
    FlatMap((v: VolMounts) => Contribution(prop, svc, v), e.volMounts)
  }

  /** The entries that reach the pod, in the user's order. */
  function Propagated(prop: Propagation, svc: seq<string>, extra: seq<ExtraVolMounts>): seq<VolMounts> {
    FlatMap((e: ExtraVolMounts) => PropagatedEntry(prop, svc, e), extra)
  }

  function VolumesIn(vs: seq<VolMounts>): seq<Volume> {
    FlatMap((v: VolMounts) => v.volumes, vs)
  }

  function MountsIn(vs: seq<VolMounts>): seq<VolumeMount> {
    FlatMap((v: VolMounts) => v.mounts, vs)
  }

  function VolumesHead(name: string): seq<Volume> {
    [ Volume("config-data", ConfigMapSource(name + "-config-data", 416)),
      Volume("horizon-secret-key", SecretSource(SERVICE_NAME, 384)),
      ScriptVolume() ]
  }

  function ScriptVolume(): Volume {
    Volume("scripts", ConfigMapSource(SERVICE_NAME + "-scripts", 493))
  }

  function MountsHead(): seq<VolumeMount> {
    [ VolumeMount("config-data", "/var/lib/config-data/default/", "", false),
      VolumeMount("config-data", "/var/lib/kolla/config_files/config.json", "horizon.json", true),
      VolumeMount("horizon-secret-key", "/run/openstack-dashboard/.secrets", "", true) ] + ScriptVolumeMounts()
  }

  function ScriptVolumeMounts(): seq<VolumeMount> {
    [ VolumeMount("scripts", "/usr/local/bin/container-scripts", "", true),
      VolumeMount("scripts", "/usr/local/bin/kolla_theme_setup", "kolla_theme_setup", true) ]
  }

  function LogVolume(): Volume {
    Volume("logs", EmptyDirSource)
  }

  function LogVolumeMount(): VolumeMount {
    VolumeMount("logs", "/var/log/horizon", "", false)
  }
}
