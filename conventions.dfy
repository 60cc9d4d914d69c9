/** The three passes that register content by folder convention rather than
    by class: every texture under "Gores/" becomes a gore, every sound under
    "Sounds/" a sound of the sub-category its folder names, every texture
    under "Backgrounds/" a background slot. A gore or sound is bound to the
    behaviour class whose full name the path spells out, when there is one. */
module Conventions {
  import opened Common
  import opened Content
  import opened Paths
  import opened Loaders
  import opened Mods
  import opened Discovery
  import Assets

  // ---------------------------------------------------------------------
  // The class tables (Enumerable.ToDictionary keyed by full name)

  /** The first full name that repeats an earlier one (or one of `seen`),
      scanning in order: building the dictionary throws on that key. */
  function FirstRepeat(rs: seq<ClassRecord>, seen: set<string>): Option<string>
    decreases |rs|
  {
    if rs == [] then None
    else if Key(rs[0]) in seen then Some(Key(rs[0]))
    else FirstRepeat(rs[1..], seen + {Key(rs[0])})
  }

  predicate DistinctKeys(rs: seq<ClassRecord>) {
    forall i, j | 0 <= i < j < |rs| :: Key(rs[i]) != Key(rs[j])
  }

  /** The dictionary builds exactly when the full names are pairwise
      distinct and avoid `seen`; the key it fails on is one of the names. */
  lemma {:induction false} FirstRepeatDistinct(rs: seq<ClassRecord>, seen: set<string>)
    ensures FirstRepeat(rs, seen).None? <==> DistinctKeys(rs) && forall i | 0 <= i < |rs| :: Key(rs[i]) !in seen
    ensures FirstRepeat(rs, seen).Some? ==> exists i | 0 <= i < |rs| :: Key(rs[i]) == FirstRepeat(rs, seen).value
    decreases |rs|
  {
    if rs != [] && Key(rs[0]) !in seen {
      var tail := rs[1..];
      FirstRepeatDistinct(tail, seen + {Key(rs[0])});
      assert forall i | 0 <= i < |tail| :: tail[i] == rs[i + 1];
      if FirstRepeat(rs, seen).None? {
        forall i, j | 0 <= i < j < |rs| ensures Key(rs[i]) != Key(rs[j]) {
          if i > 0 { assert Key(tail[i - 1]) != Key(tail[j - 1]); }
          else { assert Key(tail[j - 1]) !in seen + {Key(rs[0])}; }
        }
      } else {
        var i :| 0 <= i < |tail| && Key(tail[i]) == FirstRepeat(tail, seen + {Key(rs[0])}).value;
        assert Key(rs[i + 1]) == FirstRepeat(rs, seen).value;
        if !DistinctKeys(tail) {
          var a, b :| 0 <= a < b < |tail| && Key(tail[a]) == Key(tail[b]);
          assert Key(rs[a + 1]) == Key(rs[b + 1]);
        } else {
          var a :| 0 <= a < |tail| && Key(tail[a]) in seen + {Key(rs[0])};
          if Key(tail[a]) in seen {
            assert Key(rs[a + 1]) in seen;
          } else {
            assert Key(rs[0]) == Key(rs[a + 1]);
          }
        }
      }
    }
  }

  /** Dictionary.TryGetValue on the class table: the first class with that
      full name (the only one, once the table has been built). */
  function ClassNamed(rs: seq<ClassRecord>, name: string): (r: Option<ClassRecord>)
    ensures r.Some? ==> r.value in rs && Key(r.value) == name
    ensures r.None? <==> forall x | x in rs :: Key(x) != name
  {
    if rs == [] then None
    else if Key(rs[0]) == name then Some(rs[0])
    else
      var r := ClassNamed(rs[1..], name);
      assert forall x | x in rs :: x == rs[0] || x in rs[1..];
      r
  }

  const GoreRoot: string := "Gores/"
  const BackgroundRoot: string := "Backgrounds/"

  /** The cached keys a convention pass visits: those under its folder
      (GoreRoot, SoundRoot or BackgroundRoot). */
  function WithPrefix(keys: set<string>, prefix: string): (r: set<string>)
    ensures forall k :: k in r <==> k in keys && StartsWith(k, prefix)
  {
    set k | k in keys && StartsWith(k, prefix)
  }

  // ---------------------------------------------------------------------
  // Gores


  function QualifiedAll(modName: string, paths: set<string>): (r: set<string>)
    ensures forall p | p in paths :: Qualified(modName, p) in r
    ensures forall q | q in r :: exists p | p in paths :: q == Qualified(modName, p)
  {
    set p | p in paths :: Qualified(modName, p)
  }

  lemma QualifiedAllAdd(modName: string, paths: set<string>, p: string)
    ensures QualifiedAll(modName, paths + {p}) == QualifiedAll(modName, paths) + {Qualified(modName, p)}
  {
  }

  /** What the gore pass leaves for one texture `k`: a gore ID fresh in this
      pass under the qualified name, and a hook under that ID exactly when a
      gore class of the matching name exists, carrying that name. */
  ghost predicate GoreLoaded(modName: string, k: string, classes: seq<ClassRecord>, issued0: set<(Pool, int)>,
                             gores: map<string, int>, hooks: map<int, ModGore>, issued: set<(Pool, int)>)
  {
    var q := Qualified(modName, k);
    && q in gores && (GoreIds, gores[q]) in issued && (GoreIds, gores[q]) !in issued0
    && (gores[q] in hooks <==> ClassNamed(classes, GoreClassName(modName, k)).Some?)
    && (gores[q] in hooks ==> hooks[gores[q]].fullName == GoreClassName(modName, k))
  }

  /** The name table after a pass over `keys`: exactly the qualified keys
      are added; other names keep their IDs. */
  ghost predicate NamesAdded<K>(modName: string, keys: set<string>, t0: map<string, K>, t: map<string, K>) {
    && t.Keys == t0.Keys + QualifiedAll(modName, keys)
    && (forall n | n in t0 && n !in QualifiedAll(modName, keys) :: t[n] == t0[n])
  }

  /** Every entry of the old table is still there, unchanged. */
  ghost predicate Kept<K, V>(t0: map<K, V>, t: map<K, V>) {
    forall x | x in t0 :: x in t && t[x] == t0[x]
  }

  /** The gore tables after the pass over `keys`: one fresh ID per texture,
      distinct across textures; other names keep their IDs and old hooks
      stay in place. */
  ghost predicate GoresLoaded(modName: string, keys: set<string>, classes: seq<ClassRecord>,
                              gores0: map<string, int>, hooks0: map<int, ModGore>, issued0: set<(Pool, int)>,
                              gores: map<string, int>, hooks: map<int, ModGore>, issued: set<(Pool, int)>)
  {
    && NamesAdded(modName, keys, gores0, gores)
    && Kept(hooks0, hooks)
    && (forall k | k in keys :: GoreLoaded(modName, k, classes, issued0, gores, hooks, issued))
  }

  /** Each texture of the pass got its own ID. */
  ghost predicate IdsDistinct<K>(modName: string, keys: set<string>, t: map<string, K>) {
    forall k1, k2 | k1 in keys && k2 in keys && k1 != k2 && Qualified(modName, k1) in t && Qualified(modName, k2) in t ::
      t[Qualified(modName, k1)] != t[Qualified(modName, k2)]
  }

  /** Mod.AutoloadGores: build the gore class table, then register every
      texture under "Gores/" with its class, when one has the matching name. */
  method AutoloadGores(m: Mod, goreTypes: seq<ClassRecord>, reg: Registry) returns (o: Outcome)
    requires reg.ids.Valid() && reg.HooksIssued()
    modifies reg.ids, reg`gores, reg`modGores
    ensures reg.ids.Valid() && reg.HooksIssued() && old(reg.ids.issued) <= reg.ids.issued
    ensures o == match FirstRepeat(goreTypes, {}) case Some(key) => Fail(DuplicateKey(key)) case None => Pass
    ensures o.Fail? ==> reg.gores == old(reg.gores) && reg.modGores == old(reg.modGores)
    ensures o.Pass? ==> GoresLoaded(m.modName, WithPrefix(m.assets.textures.Keys, GoreRoot), goreTypes,
                                    old(reg.gores), old(reg.modGores), old(reg.ids.issued),
                                    reg.gores, reg.modGores, reg.ids.issued)
    ensures o.Pass? ==> IdsDistinct(m.modName, WithPrefix(m.assets.textures.Keys, GoreRoot), reg.gores)
  {
    var repeat := FirstRepeat(goreTypes, {});
    if repeat.Some? {
      return Fail(DuplicateKey(repeat.value));
    }
    AddGores(m, WithPrefix(m.assets.textures.Keys, GoreRoot), goreTypes, reg);
    o := Pass;
  }

  /** The loop of AutoloadGores over the textures, in the dictionary's
      (unspecified) order. */
  method AddGores(m: Mod, textures: set<string>, goreTypes: seq<ClassRecord>, reg: Registry)
    requires reg.ids.Valid() && reg.HooksIssued()
    modifies reg.ids, reg`gores, reg`modGores
    ensures reg.ids.Valid() && reg.HooksIssued() && old(reg.ids.issued) <= reg.ids.issued
    ensures GoresLoaded(m.modName, textures, goreTypes, old(reg.gores), old(reg.modGores), old(reg.ids.issued),
                        reg.gores, reg.modGores, reg.ids.issued)
    ensures IdsDistinct(m.modName, textures, reg.gores)
  {
    var todo := textures;
    ghost var done: set<string> := {};
    while todo != {}
      invariant todo + done == textures && todo !! done
      invariant reg.ids.Valid() && reg.HooksIssued() && old(reg.ids.issued) <= reg.ids.issued
      invariant GoresLoaded(m.modName, done, goreTypes, old(reg.gores), old(reg.modGores), old(reg.ids.issued),
                            reg.gores, reg.modGores, reg.ids.issued)
      invariant IdsDistinct(m.modName, done, reg.gores)
      decreases todo
    {
      var k :| k in todo;
      var hook: ModGore? := null;
      var c := ClassNamed(goreTypes, GoreClassName(m.modName, k));
      if c.Some? {
        hook := new ModGore(Key(c.value));
      }
      ghost var gores0, hooks0, issued0 := reg.gores, reg.modGores, reg.ids.issued;
      m.AddGore(Qualified(m.modName, k), hook, reg);
      GoreStep(m.modName, done, k, goreTypes, old(reg.gores), old(reg.modGores), old(reg.ids.issued),
               gores0, hooks0, issued0, reg.gores, reg.modGores, reg.ids.issued);
      DistinctStep(m.modName, done, k, GoreIds, gores0, reg.gores, issued0, old(reg.ids.issued));
      todo, done := todo - {k}, done + {k};
    }
  }

  /** A fresh ID keeps the IDs of the pass distinct. */
  lemma DistinctStep(modName: string, done: set<string>, k: string, pool: Pool,
                     t1: map<string, int>, t2: map<string, int>, i1: set<(Pool, int)>, i0: set<(Pool, int)>)
    requires k !in done && IdsDistinct(modName, done, t1)
    requires forall d | d in done :: Qualified(modName, d) in t1 && (pool, t1[Qualified(modName, d)]) in i1
    requires var q := Qualified(modName, k); q in t2 && (pool, t2[q]) !in i1 && t2 == t1[q := t2[q]]
    ensures IdsDistinct(modName, done + {k}, t2)
  {
    forall d | d in done ensures Qualified(modName, d) != Qualified(modName, k) {
      QualifiedInjective(modName, d, k);
    }
  }

  /** One texture more: the loop invariant of AutoloadGores survives AddGore. */
  lemma GoreStep(modName: string, done: set<string>, k: string, classes: seq<ClassRecord>,
                 g0: map<string, int>, h0: map<int, ModGore>, i0: set<(Pool, int)>,
                 g1: map<string, int>, h1: map<int, ModGore>, i1: set<(Pool, int)>,
                 g2: map<string, int>, h2: map<int, ModGore>, i2: set<(Pool, int)>)
    requires k !in done && i0 <= i1
    requires GoresLoaded(modName, done, classes, g0, h0, i0, g1, h1, i1)
    requires var q := Qualified(modName, k);
      && q in g2 && (GoreIds, g2[q]) !in i1 && i2 == i1 + {(GoreIds, g2[q])}
      && g2 == g1[q := g2[q]] && g2[q] !in h1
      && (ClassNamed(classes, GoreClassName(modName, k)).Some? ==>
            g2[q] in h2 && h2 == h1[g2[q] := h2[g2[q]]]
            && h2[g2[q]].fullName == GoreClassName(modName, k))
      && (ClassNamed(classes, GoreClassName(modName, k)).None? ==> h2 == h1)
    ensures GoresLoaded(modName, done + {k}, classes, g0, h0, i0, g2, h2, i2)
  {
    var q := Qualified(modName, k);
    NamesStep(modName, done, k, g0, g1, g2);
    forall d | d in done ensures Qualified(modName, d) != q {
      QualifiedInjective(modName, d, k);
    }
    forall d | d in done ensures GoreLoaded(modName, d, classes, i0, g2, h2, i2) {
      var qd := Qualified(modName, d);
      assert g2[qd] == g1[qd] && (GoreIds, g1[qd]) in i1;
    }
  }

  /** One qualified name more in the name table. */
  lemma NamesStep<K>(modName: string, done: set<string>, k: string, t0: map<string, K>, t1: map<string, K>, t2: map<string, K>)
    requires NamesAdded(modName, done, t0, t1)
    requires var q := Qualified(modName, k); q in t2 && t2 == t1[q := t2[q]]
    ensures NamesAdded(modName, done + {k}, t0, t2)
  {
    QualifiedAllAdd(modName, done, k);
  }

  // ---------------------------------------------------------------------
  // Sounds

  /** The key a sound file is registered under: the sub-category its folder
      below "Sounds/" names, and its qualified path. */
  function SoundKey(modName: string, k: string): (SoundType, string) {
    (SoundTypeOf(if StartsWith(k, SoundRoot) then k[|SoundRoot|..] else k), Qualified(modName, k))
  }

  lemma SoundKeyInjective(modName: string, k1: string, k2: string)
    ensures SoundKey(modName, k1) == SoundKey(modName, k2) <==> k1 == k2
  {
    QualifiedInjective(modName, k1, k2);
  }

  function SoundKeysOf(modName: string, paths: set<string>): (r: set<(SoundType, string)>)
    ensures forall p | p in paths :: SoundKey(modName, p) in r
  {
    set p | p in paths :: SoundKey(modName, p)
  }

  /** A sound bound to a class must resolve. */
  predicate SoundResolves(modName: string, k: string, classes: seq<ClassRecord>, host: Host) {
    ClassNamed(classes, SoundClassName(modName, k)).Some? ==> Qualified(modName, k) in host.sounds
  }

  /** What the sound pass leaves for one file `k`: a fresh ID in its
      sub-category's pool, and a hook under it exactly when a sound class of
      the matching name exists, carrying that name. */
  ghost predicate SoundLoaded(modName: string, k: string, classes: seq<ClassRecord>, issued0: set<(Pool, int)>,
                              sounds: map<(SoundType, string), int>, hooks: map<(SoundType, int), ModSound>,
                              issued: set<(Pool, int)>)
  {
    var key := SoundKey(modName, k);
    && key in sounds && (SoundIds(key.0), sounds[key]) in issued && (SoundIds(key.0), sounds[key]) !in issued0
    && ((key.0, sounds[key]) in hooks <==> ClassNamed(classes, SoundClassName(modName, k)).Some?)
    && ((key.0, sounds[key]) in hooks ==> hooks[(key.0, sounds[key])].fullName == SoundClassName(modName, k))
  }

  ghost predicate SoundsLoaded(modName: string, keys: set<string>, classes: seq<ClassRecord>,
                               sounds0: map<(SoundType, string), int>, hooks0: map<(SoundType, int), ModSound>,
                               issued0: set<(Pool, int)>,
                               sounds: map<(SoundType, string), int>, hooks: map<(SoundType, int), ModSound>,
                               issued: set<(Pool, int)>)
  {
    && sounds.Keys == sounds0.Keys + SoundKeysOf(modName, keys)
    && (forall n | n in sounds0 && n !in SoundKeysOf(modName, keys) :: sounds[n] == sounds0[n])
    && Kept(hooks0, hooks)
    && (forall k | k in keys :: SoundLoaded(modName, k, classes, issued0, sounds, hooks, issued))
  }

  /** The hook registered for sound file `k`, if any, is bound to it. */
  ghost predicate SoundBound(modName: string, k: string, sounds: map<(SoundType, string), int>,
                             hooks: map<(SoundType, int), ModSound>)
    reads hooks.Values
  {
    var key := SoundKey(modName, k);
    key in sounds && (key.0, sounds[key]) in hooks ==> hooks[(key.0, sounds[key])].sound == Some(key.1)
  }

  /** Each hook of the pass is bound to the sound it was registered for. */
  ghost predicate SoundsBound(modName: string, keys: set<string>, sounds: map<(SoundType, string), int>,
                              hooks: map<(SoundType, int), ModSound>)
    reads hooks.Values
  {
    forall k | k in keys :: SoundBound(modName, k, sounds, hooks)
  }

  /** Mod.AutoloadSounds: build the sound class table, then register every
      sound under "Sounds/" in its sub-category, with its class when one has
      the matching name; binding a class to a sound that does not resolve
      throws and ends the pass. */
  method AutoloadSounds(m: Mod, soundTypes: seq<ClassRecord>, reg: Registry, host: Host) returns (o: Outcome)
    requires reg.ids.Valid() && reg.HooksIssued()
    modifies reg.ids, reg`sounds, reg`modSounds
    ensures reg.ids.Valid() && reg.HooksIssued() && old(reg.ids.issued) <= reg.ids.issued
    ensures FirstRepeat(soundTypes, {}).Some? ==>
      o == Fail(DuplicateKey(FirstRepeat(soundTypes, {}).value))
      && reg.sounds == old(reg.sounds) && reg.modSounds == old(reg.modSounds)
    ensures FirstRepeat(soundTypes, {}).None? ==>
      var files := WithPrefix(m.assets.sounds.Keys, SoundRoot);
      && (o.Pass? <==> forall k | k in files :: SoundResolves(m.modName, k, soundTypes, host))
      && (o.Fail? ==> exists k | k in files :: !SoundResolves(m.modName, k, soundTypes, host)
                                            && o == Fail(MissingResource(Qualified(m.modName, k))))
      && (o.Pass? ==> SoundsLoaded(m.modName, files, soundTypes, old(reg.sounds), old(reg.modSounds),
                                   old(reg.ids.issued), reg.sounds, reg.modSounds, reg.ids.issued))
    ensures Assets.HostSeesOwn(m.modName, m.assets.Contents(), host) ==> (o.Pass? <==> FirstRepeat(soundTypes, {}).None?)
  {
    var repeat := FirstRepeat(soundTypes, {});
    if repeat.Some? {
      return Fail(DuplicateKey(repeat.value));
    }
    o := AddSounds(m, WithPrefix(m.assets.sounds.Keys, SoundRoot), soundTypes, reg, host);
  }

  /** The loop of AutoloadSounds, in the dictionary's (unspecified) order. */
  method AddSounds(m: Mod, files: set<string>, soundTypes: seq<ClassRecord>, reg: Registry, host: Host)
    returns (o: Outcome)
    requires reg.ids.Valid() && reg.HooksIssued()
    modifies reg.ids, reg`sounds, reg`modSounds
    ensures reg.ids.Valid() && reg.HooksIssued() && old(reg.ids.issued) <= reg.ids.issued
    ensures o.Pass? <==> forall k | k in files :: SoundResolves(m.modName, k, soundTypes, host)
    ensures o.Fail? ==> exists k | k in files :: !SoundResolves(m.modName, k, soundTypes, host)
                                               && o == Fail(MissingResource(Qualified(m.modName, k)))
    ensures o.Pass? ==> SoundsLoaded(m.modName, files, soundTypes, old(reg.sounds), old(reg.modSounds),
                                     old(reg.ids.issued), reg.sounds, reg.modSounds, reg.ids.issued)
    ensures o.Pass? ==> SoundsBound(m.modName, files, reg.sounds, reg.modSounds)
  {
    o := Pass;
    var todo := files;
    ghost var done: set<string> := {};
    while todo != {}
      invariant todo + done == files && todo !! done && o == Pass
      invariant reg.ids.Valid() && reg.HooksIssued() && old(reg.ids.issued) <= reg.ids.issued
      invariant forall d | d in done :: SoundResolves(m.modName, d, soundTypes, host)
      invariant SoundsLoaded(m.modName, done, soundTypes, old(reg.sounds), old(reg.modSounds), old(reg.ids.issued),
                             reg.sounds, reg.modSounds, reg.ids.issued)
      invariant SoundsBound(m.modName, done, reg.sounds, reg.modSounds)
      decreases todo
    {
      var k :| k in todo;
      ghost var sounds0, hooks0, issued0 := reg.sounds, reg.modSounds, reg.ids.issued;
      o := AddSoundFile(m, k, done, soundTypes, reg, host);
      if o.Fail? {
        assert k in files;
        return;
      }
      SoundStep(m.modName, done, k, soundTypes, old(reg.sounds), old(reg.modSounds), old(reg.ids.issued),
                sounds0, hooks0, issued0, reg.sounds, reg.modSounds, reg.ids.issued);
      todo, done := todo - {k}, done + {k};
    }
  }

  /** One iteration of AutoloadSounds: instantiate the matching class, if
      any, and register the file; hooks bound earlier in the pass keep
      their sounds. */
  method AddSoundFile(m: Mod, k: string, ghost done: set<string>, soundTypes: seq<ClassRecord>, reg: Registry, host: Host)
    returns (o: Outcome)
    requires reg.ids.Valid() && reg.HooksIssued() && k !in done
    requires SoundsBound(m.modName, done, reg.sounds, reg.modSounds)
    requires forall d | d in done :: var kd := SoundKey(m.modName, d);
      kd in reg.sounds && (SoundIds(kd.0), reg.sounds[kd]) in reg.ids.issued
    modifies reg.ids, reg`sounds, reg`modSounds
    ensures reg.ids.Valid() && reg.HooksIssued()
    ensures o == if SoundResolves(m.modName, k, soundTypes, host) then Pass
                 else Fail(MissingResource(Qualified(m.modName, k)))
    ensures var key := SoundKey(m.modName, k);
      && key in reg.sounds && (SoundIds(key.0), reg.sounds[key]) !in old(reg.ids.issued)
      && reg.ids.issued == old(reg.ids.issued) + {(SoundIds(key.0), reg.sounds[key])}
      && reg.sounds == old(reg.sounds)[key := reg.sounds[key]] && (key.0, reg.sounds[key]) !in old(reg.modSounds)
      && (ClassNamed(soundTypes, SoundClassName(m.modName, k)).Some? ==>
            (key.0, reg.sounds[key]) in reg.modSounds
            && reg.modSounds == old(reg.modSounds)[(key.0, reg.sounds[key]) := reg.modSounds[(key.0, reg.sounds[key])]]
            && reg.modSounds[(key.0, reg.sounds[key])].fullName == SoundClassName(m.modName, k))
      && (ClassNamed(soundTypes, SoundClassName(m.modName, k)).None? ==> reg.modSounds == old(reg.modSounds))
    ensures o.Pass? ==> SoundsBound(m.modName, done + {k}, reg.sounds, reg.modSounds)
  {
    var hook := NewSoundHook(soundTypes, SoundClassName(m.modName, k));
    var key := SoundKey(m.modName, k);
    o := m.AddSound(key.0, key.1, hook, reg, host);
    if o.Pass? {
      forall d | d in done ensures SoundBound(m.modName, d, reg.sounds, reg.modSounds) {
        SoundKeyInjective(m.modName, d, k);
        var kd := SoundKey(m.modName, d);
        if kd in reg.sounds && (kd.0, reg.sounds[kd]) in reg.modSounds {
          assert reg.sounds[kd] == old(reg.sounds)[kd] && (SoundIds(kd.0), reg.sounds[kd]) in old(reg.ids.issued);
          var x := old(reg.modSounds)[(kd.0, old(reg.sounds)[kd])];
          assert x.sound == old(x.sound);
        }
      }
    }
  }

  /** Activator.CreateInstance on the sound class of that name, if any. */
  method NewSoundHook(soundTypes: seq<ClassRecord>, name: string) returns (hook: ModSound?)
    ensures hook == null <==> ClassNamed(soundTypes, name).None?
    ensures hook != null ==> fresh(hook) && hook.fullName == name
  {
    hook := null;
    var c := ClassNamed(soundTypes, name);
    if c.Some? {
      hook := new ModSound(Key(c.value));
    }
  }

  /** One sound more: the loop invariant of AddSounds survives AddSound. */
  lemma SoundStep(modName: string, done: set<string>, k: string, classes: seq<ClassRecord>,
                  s0: map<(SoundType, string), int>, h0: map<(SoundType, int), ModSound>, i0: set<(Pool, int)>,
                  s1: map<(SoundType, string), int>, h1: map<(SoundType, int), ModSound>, i1: set<(Pool, int)>,
                  s2: map<(SoundType, string), int>, h2: map<(SoundType, int), ModSound>, i2: set<(Pool, int)>)
    requires k !in done && i0 <= i1
    requires SoundsLoaded(modName, done, classes, s0, h0, i0, s1, h1, i1)
    requires var key := SoundKey(modName, k);
      && key in s2 && (SoundIds(key.0), s2[key]) !in i1 && i2 == i1 + {(SoundIds(key.0), s2[key])}
      && s2 == s1[key := s2[key]] && (key.0, s2[key]) !in h1
      && (ClassNamed(classes, SoundClassName(modName, k)).Some? ==>
            (key.0, s2[key]) in h2 && h2 == h1[(key.0, s2[key]) := h2[(key.0, s2[key])]]
            && h2[(key.0, s2[key])].fullName == SoundClassName(modName, k))
      && (ClassNamed(classes, SoundClassName(modName, k)).None? ==> h2 == h1)
    ensures SoundsLoaded(modName, done + {k}, classes, s0, h0, i0, s2, h2, i2)
  {
    var key := SoundKey(modName, k);
    SoundNamesStep(modName, done, k, s0, s1, s2);
    forall d | d in done ensures SoundKey(modName, d) != key {
      SoundKeyInjective(modName, d, k);
    }
    forall d | d in done ensures SoundLoaded(modName, d, classes, i0, s2, h2, i2) {
      var kd := SoundKey(modName, d);
      assert s2[kd] == s1[kd] && (SoundIds(kd.0), s1[kd]) in i1;
    }
  }

  lemma SoundNamesStep(modName: string, done: set<string>, k: string,
                       s0: map<(SoundType, string), int>, s1: map<(SoundType, string), int>,
                       s2: map<(SoundType, string), int>)
    requires s1.Keys == s0.Keys + SoundKeysOf(modName, done)
    requires forall n | n in s0 && n !in SoundKeysOf(modName, done) :: s1[n] == s0[n]
    requires var key := SoundKey(modName, k); key in s2 && s2 == s1[key := s2[key]]
    ensures s2.Keys == s0.Keys + SoundKeysOf(modName, done + {k})
    ensures forall n | n in s0 && n !in SoundKeysOf(modName, done + {k}) :: s2[n] == s0[n]
  {
    assert SoundKeysOf(modName, done + {k}) == SoundKeysOf(modName, done) + {SoundKey(modName, k)};
  }

  // ---------------------------------------------------------------------
  // Backgrounds

  /** Each background texture of the pass holds a slot fresh in the pass. */
  ghost predicate BackgroundsLoaded(modName: string, keys: set<string>, issued0: set<(Pool, int)>,
                                    slots: map<string, int>, issued: set<(Pool, int)>)
  {
    forall k | k in keys ::
      Qualified(modName, k) in slots
      && (BackgroundSlots, slots[Qualified(modName, k)]) in issued
      && (BackgroundSlots, slots[Qualified(modName, k)]) !in issued0
  }

  /** Mod.AutoloadBackgrounds: reserve a background slot for every texture
      under "Backgrounds/"; a texture the loader cannot resolve throws and
      ends the pass. */
  method AutoloadBackgrounds(m: Mod, reg: Registry, host: Host) returns (o: Outcome)
    requires reg.ids.Valid()
    modifies reg.ids, reg`backgrounds
    ensures reg.ids.Valid() && old(reg.ids.issued) <= reg.ids.issued
    ensures var files := WithPrefix(m.assets.textures.Keys, BackgroundRoot);
      && (o.Pass? <==> forall k | k in files :: Qualified(m.modName, k) in host.textures)
      && (o.Fail? ==> exists k | k in files :: Qualified(m.modName, k) !in host.textures
                                            && o == Fail(MissingResource(Qualified(m.modName, k))))
      && (o.Pass? ==> NamesAdded(m.modName, files, old(reg.backgrounds), reg.backgrounds)
                      && BackgroundsLoaded(m.modName, files, old(reg.ids.issued), reg.backgrounds, reg.ids.issued)
                      && IdsDistinct(m.modName, files, reg.backgrounds))
    ensures Assets.HostSeesOwn(m.modName, m.assets.Contents(), host) ==> o.Pass?
  {
    o := Pass;
    var files := WithPrefix(m.assets.textures.Keys, BackgroundRoot);
    var todo := files;
    ghost var done: set<string> := {};
    while todo != {}
      invariant todo + done == files && todo !! done && o == Pass
      invariant reg.ids.Valid() && old(reg.ids.issued) <= reg.ids.issued
      invariant forall d | d in done :: Qualified(m.modName, d) in host.textures
      invariant NamesAdded(m.modName, done, old(reg.backgrounds), reg.backgrounds)
      invariant BackgroundsLoaded(m.modName, done, old(reg.ids.issued), reg.backgrounds, reg.ids.issued)
      invariant IdsDistinct(m.modName, done, reg.backgrounds)
      decreases todo
    {
      var k :| k in todo;
      ghost var slots0, issued0 := reg.backgrounds, reg.ids.issued;
      o := m.AddBackgroundTexture(Qualified(m.modName, k), reg, host);
      if o.Fail? {
        assert k in files;
        return;
      }
      NamesStep(m.modName, done, k, old(reg.backgrounds), slots0, reg.backgrounds);
      DistinctStep(m.modName, done, k, BackgroundSlots, slots0, reg.backgrounds, issued0, old(reg.ids.issued));
      forall d | d in done ensures Qualified(m.modName, d) != Qualified(m.modName, k) {
        QualifiedInjective(m.modName, d, k);
      }
      todo, done := todo - {k}, done + {k};
    }
  }
}
