/** Mod.Autoload, the whole of it: refuse a retired hook, fill the asset
    caches from the archive, register the assembly's types in order of full
    name, then run the convention passes the mod's properties ask for. */
module Loading {
  import opened Common
  import opened Loaders
  import opened Mods
  import opened Discovery
  import opened Autoloading
  import opened Conventions
  import Assets
  import Paths

  /** The registry tables the convention passes write. */
  datatype PassTables = PassTables(
    gores: map<string, int>, modGores: map<int, Content.ModGore>,
    sounds: map<(Paths.SoundType, string), int>, modSounds: map<(Paths.SoundType, int), Content.ModSound>,
    backgrounds: map<string, int>)

  function PassTablesOf(reg: Registry): PassTables
    reads reg`gores, reg`modGores, reg`sounds, reg`modSounds, reg`backgrounds
  {
    PassTables(reg.gores, reg.modGores, reg.sounds, reg.modSounds, reg.backgrounds)
  }

  /** How the passes the properties ask for change the tables from `t0`
      to `t`: the qualified names are added, other names keep their IDs,
      earlier hooks stay. */
  ghost predicate PassesKept(modName: string, props: Properties, textures: set<string>, soundPaths: set<string>,
                             t0: PassTables, t: PassTables)
  {
    && (props.autoloadGores ==> NamesAdded(modName, WithPrefix(textures, GoreRoot), t0.gores, t.gores) && Kept(t0.modGores, t.modGores))
    && (props.autoloadSounds ==>
          && t.sounds.Keys == t0.sounds.Keys + SoundKeysOf(modName, WithPrefix(soundPaths, Paths.SoundRoot))
          && Kept(t0.modSounds, t.modSounds))
    && (props.autoloadBackgrounds ==> NamesAdded(modName, WithPrefix(textures, BackgroundRoot), t0.backgrounds, t.backgrounds))
  }

  /** What each file of the passes the properties ask for holds in the
      tables `t`: an ID issued after `since`, distinct per file, and a hook
      exactly when a class of the matching name exists. */
  ghost predicate PassesLoaded(modName: string, props: Properties, textures: set<string>, soundPaths: set<string>,
                               goreTypes: seq<ClassRecord>, soundTypes: seq<ClassRecord>, since: set<(Pool, int)>,
                               t: PassTables, issued: set<(Pool, int)>)
  {
    && (props.autoloadGores ==>
          && (forall k | k in WithPrefix(textures, GoreRoot) :: GoreLoaded(modName, k, goreTypes, since, t.gores, t.modGores, issued))
          && IdsDistinct(modName, WithPrefix(textures, GoreRoot), t.gores))
    && (props.autoloadSounds ==>
          forall k | k in WithPrefix(soundPaths, Paths.SoundRoot) :: SoundLoaded(modName, k, soundTypes, since, t.sounds, t.modSounds, issued))
    && (props.autoloadBackgrounds ==>
          && BackgroundsLoaded(modName, WithPrefix(textures, BackgroundRoot), since, t.backgrounds, issued)
          && IdsDistinct(modName, WithPrefix(textures, BackgroundRoot), t.backgrounds))
  }

  /** Whether the passes the properties ask for all succeed: no two gore or
      sound classes share a name, every sound file resolves, and every
      background texture resolves. */
  predicate PassesSucceed(modName: string, props: Properties, textures: set<string>, soundPaths: set<string>,
                          goreTypes: seq<ClassRecord>, soundTypes: seq<ClassRecord>, host: Host)
  {
    && (props.autoloadGores ==> FirstRepeat(goreTypes, {}).None?)
    && (props.autoloadSounds ==>
          && FirstRepeat(soundTypes, {}).None?
          && forall k | k in WithPrefix(soundPaths, Paths.SoundRoot) :: SoundResolves(modName, k, soundTypes, host))
    && (props.autoloadBackgrounds ==>
          forall k | k in WithPrefix(textures, BackgroundRoot) :: Paths.Qualified(modName, k) in host.textures)
  }

  /** PassesSucceed for the gore and sound classes of `code`, in the order
      the class loop collects them. */
  ghost predicate CodePassesSucceed(m: Mod, props: Properties, code: seq<ClassRecord>, host: Host)
    reads m.assets
  {
    PassesSucceed(m.modName, props, m.assets.textures.Keys, m.assets.sounds.Keys,
                  OfCategory(SortByKey(code), GoreClass), OfCategory(SortByKey(code), SoundClass), host)
  }

  /** The class loop over `code`, in order of full name, reaches its end
      from the item names `itemNames`: no type throws when its turn comes. */
  ghost predicate ClassesLoad(code: seq<ClassRecord>, itemNames: set<string>, host: Host) {
    NoneThrowBefore(itemNames, SortByKey(code), |SortByKey(code)|, host)
  }

  /** The item names the class loop adds depend only on which types there
      are, not on their order. */
  lemma LoadedItemNamesSameTypes(rs: seq<ClassRecord>, ss: seq<ClassRecord>)
    requires multiset(rs) == multiset(ss)
    ensures LoadedItemNames(rs) == LoadedItemNames(ss)
  {
    forall x | x in rs ensures x in ss {
      assert x in multiset(rs);
    }
    forall x | x in ss ensures x in rs {
      assert x in multiset(ss);
    }
  }

  /** When the game's look-ups see the mod's own caches, the passes fail
      only on a repeated gore or sound class name: every sound and
      background they visit comes from those caches. */
  lemma OwnPassesSucceed(modName: string, props: Properties, c: Assets.Caches,
                         goreTypes: seq<ClassRecord>, soundTypes: seq<ClassRecord>, host: Host)
    requires Assets.HostSeesOwn(modName, c, host)
    ensures PassesSucceed(modName, props, c.textures.Keys, c.sounds.Keys, goreTypes, soundTypes, host) <==>
      && (props.autoloadGores ==> FirstRepeat(goreTypes, {}).None?)
      && (props.autoloadSounds ==> FirstRepeat(soundTypes, {}).None?)
  {
  }

  /** Autoload reads the mod's archive: it has one and the game is not a
      dedicated server. */
  predicate ReadsArchive(archive: Option<seq<Assets.ArchiveEntry>>, host: Host) {
    !host.dedicatedServer && archive.Some?
  }

  /** Reading the archive throws on a refused image. */
  predicate ArchiveFails(archive: Option<seq<Assets.ArchiveEntry>>, host: Host) {
    ReadsArchive(archive, host) && Assets.ArchiveStop(archive.value) < |archive.value|
  }

  /** A pass that leaves IDs fresh with respect to a later point leaves
      them fresh with respect to any earlier one. */
  lemma GoresLoadedEarlier(modName: string, keys: set<string>, classes: seq<ClassRecord>,
                           g0: map<string, int>, h0: map<int, Content.ModGore>, i0: set<(Pool, int)>, i0': set<(Pool, int)>,
                           g: map<string, int>, h: map<int, Content.ModGore>, i: set<(Pool, int)>)
    requires i0 <= i0' && GoresLoaded(modName, keys, classes, g0, h0, i0', g, h, i)
    ensures GoresLoaded(modName, keys, classes, g0, h0, i0, g, h, i)
  {
    forall k | k in keys ensures GoreLoaded(modName, k, classes, i0, g, h, i) {
      assert GoreLoaded(modName, k, classes, i0', g, h, i);
    }
  }

  lemma SoundsLoadedEarlier(modName: string, keys: set<string>, classes: seq<ClassRecord>,
                            s0: map<(Paths.SoundType, string), int>, h0: map<(Paths.SoundType, int), Content.ModSound>,
                            i0: set<(Pool, int)>, i0': set<(Pool, int)>,
                            s: map<(Paths.SoundType, string), int>, h: map<(Paths.SoundType, int), Content.ModSound>,
                            i: set<(Pool, int)>)
    requires i0 <= i0' && SoundsLoaded(modName, keys, classes, s0, h0, i0', s, h, i)
    ensures SoundsLoaded(modName, keys, classes, s0, h0, i0, s, h, i)
  {
    forall k | k in keys ensures SoundLoaded(modName, k, classes, i0, s, h, i) {
      assert SoundLoaded(modName, k, classes, i0', s, h, i);
    }
  }

  /** Mod.Autoload. `declaresChatInput` says whether the mod class still
      declares the retired ChatInput(string) hook; `archive` is the mod's
      file (None when it has none) and `code` its assembly's types (None
      when it has no assembly). */
  method Autoload(m: Mod, declaresChatInput: bool, props: Properties, archive: Option<seq<Assets.ArchiveEntry>>,
                  code: Option<seq<ClassRecord>>, reg: Registry, host: Host)
    returns (o: Outcome)
    requires reg.ids.Valid() && reg.HooksIssued()
    modifies m.assets
    modifies m`itemContent, m`tileContent, m`entityContent, m`playerContent, m`worldContent, reg.ids
    modifies reg`items, reg`questFish, reg`idToSlot, reg`globalItems, reg`dusts
    modifies reg`equipTextures, reg`armTextures, reg`femaleTextures, reg`slotToId
    modifies reg`itemInfoIndexes, reg`itemInfoList, reg`projectileInfoIndexes, reg`projectileInfoList
    modifies reg`npcInfoIndexes, reg`npcInfoList
    modifies reg`tiles, reg`globalTiles, reg`tileEntities, reg`walls, reg`globalWalls
    modifies reg`projectiles, reg`globalProjectiles, reg`npcs, reg`globalNPCs
    modifies reg`heads, reg`npcToHead, reg`headToNPC, reg`bossHeads, reg`npcToBossHead
    modifies reg`playerHooks, reg`buffs, reg`globalBuffs, reg`mountDatas
    modifies reg`worldHooks, reg`ugBgStyles, reg`surfaceBgStyles, reg`globalBgStyles
    modifies reg`waterStyles, reg`waterfallStyles, reg`recipeHooks
    modifies reg`gores, reg`modGores, reg`sounds, reg`modSounds, reg`backgrounds
    ensures reg.ids.Valid() && reg.HooksIssued() && old(reg.ids.issued) <= reg.ids.issued
    ensures Grows(old(Snapshot(m)), Snapshot(m))
    ensures declaresChatInput ==>
      o == Fail(OldHook("Mod.ChatInput")) && Snapshot(m) == old(Snapshot(m))
      && m.assets.Contents() == old(m.assets.Contents()) && reg.ids.issued == old(reg.ids.issued)
    ensures !declaresChatInput ==>
      m.assets.Contents() == if ReadsArchive(archive, host)
                             then Assets.LoadAll(old(m.assets.Contents()), m.modName, m.version,
                                                 archive.value[..Assets.ArchiveStop(archive.value)])
                             else old(m.assets.Contents())
    ensures !declaresChatInput && ArchiveFails(archive, host) ==>
      o == Fail(ImageDecode(archive.value[Assets.ArchiveStop(archive.value)].path))
      && Snapshot(m) == old(Snapshot(m)) && reg.ids.issued == old(reg.ids.issued)
    ensures !declaresChatInput && !ArchiveFails(archive, host) && code.None? ==>
      o == Pass && Snapshot(m) == old(Snapshot(m)) && reg.ids.issued == old(reg.ids.issued)
    ensures !declaresChatInput && !ArchiveFails(archive, host) && code.Some? ==>
      (o.Pass? <==> ClassesLoad(code.value, old(m.itemContent.items.Keys), host)
                    && CodePassesSucceed(m, props, code.value, host))
    ensures o.Pass? && code.Some? ==> Registered(Snapshot(m), code.value)
    ensures o.Pass? && code.Some? ==>
      m.itemContent.items.Keys == old(m.itemContent.items.Keys) + LoadedItemNames(code.value)
    ensures o.Pass? && code.Some? ==>
      PassesLoaded(m.modName, props, m.assets.textures.Keys, m.assets.sounds.Keys,
                   OfCategory(SortByKey(code.value), GoreClass), OfCategory(SortByKey(code.value), SoundClass),
                   old(reg.ids.issued), PassTablesOf(reg), reg.ids.issued)
  {
    GrowsReflexive(Snapshot(m));
    if declaresChatInput {
      return Fail(OldHook("Mod.ChatInput"));
    }
    o := ReadArchive(m, archive, host);
    if o.Fail? {
      return;
    }
    if code.None? {
      return Pass;
    }
    o := LoadCode(m, props, code.value, reg, host);
  }

  /** The first part of Mod.Autoload: the archive's files into the asset
      caches, unless the game is a dedicated server or the mod has no
      archive. */
  method ReadArchive(m: Mod, archive: Option<seq<Assets.ArchiveEntry>>, host: Host) returns (o: Outcome)
    modifies m.assets
    ensures m.assets.Contents() == if ReadsArchive(archive, host)
                                   then Assets.LoadAll(old(m.assets.Contents()), m.modName, m.version,
                                                       archive.value[..Assets.ArchiveStop(archive.value)])
                                   else old(m.assets.Contents())
    ensures o.Fail? <==> ArchiveFails(archive, host)
    ensures o.Fail? ==> o == Fail(ImageDecode(archive.value[Assets.ArchiveStop(archive.value)].path))
  {
    o := Pass;
    if !host.dedicatedServer && archive.Some? {
      o := m.assets.LoadArchive(m.modName, m.version, archive.value);
    }
  }

  /** Mod.Autoload once the mod has an assembly: its types in order of
      full name, then the convention passes. */
  method LoadCode(m: Mod, props: Properties, code: seq<ClassRecord>, reg: Registry, host: Host)
    returns (o: Outcome)
    requires reg.ids.Valid() && reg.HooksIssued()
    modifies m`itemContent, m`tileContent, m`entityContent, m`playerContent, m`worldContent, reg.ids
    modifies reg`items, reg`questFish, reg`idToSlot, reg`globalItems, reg`dusts
    modifies reg`equipTextures, reg`armTextures, reg`femaleTextures, reg`slotToId
    modifies reg`itemInfoIndexes, reg`itemInfoList, reg`projectileInfoIndexes, reg`projectileInfoList
    modifies reg`npcInfoIndexes, reg`npcInfoList
    modifies reg`tiles, reg`globalTiles, reg`tileEntities, reg`walls, reg`globalWalls
    modifies reg`projectiles, reg`globalProjectiles, reg`npcs, reg`globalNPCs
    modifies reg`heads, reg`npcToHead, reg`headToNPC, reg`bossHeads, reg`npcToBossHead
    modifies reg`playerHooks, reg`buffs, reg`globalBuffs, reg`mountDatas
    modifies reg`worldHooks, reg`ugBgStyles, reg`surfaceBgStyles, reg`globalBgStyles
    modifies reg`waterStyles, reg`waterfallStyles, reg`recipeHooks
    modifies reg`gores, reg`modGores, reg`sounds, reg`modSounds, reg`backgrounds
    ensures reg.ids.Valid() && reg.HooksIssued() && old(reg.ids.issued) <= reg.ids.issued
    ensures Grows(old(Snapshot(m)), Snapshot(m))
    ensures o.Pass? ==> Registered(Snapshot(m), code)
    ensures o.Pass? ==>
      PassesLoaded(m.modName, props, m.assets.textures.Keys, m.assets.sounds.Keys,
                   OfCategory(SortByKey(code), GoreClass), OfCategory(SortByKey(code), SoundClass),
                   old(reg.ids.issued), PassTablesOf(reg), reg.ids.issued)
    ensures o.Pass? <==> ClassesLoad(code, old(m.itemContent.items.Keys), host) && CodePassesSucceed(m, props, code, host)
    ensures o.Pass? ==> m.itemContent.items.Keys == old(m.itemContent.items.Keys) + LoadedItemNames(code)
  {
    var goreTypes, soundTypes;
    o, goreTypes, soundTypes := LoadClasses(m, code, reg, host);
    if o.Fail? {
      return;
    }
    o := ConventionPasses(m, props, goreTypes, soundTypes, old(reg.ids.issued), reg, host);
  }

  /** The assembly's types in order of full name (OrderBy), each through
      its helper; every loading class ends up registered. */
  method LoadClasses(m: Mod, code: seq<ClassRecord>, reg: Registry, host: Host)
    returns (o: Outcome, goreTypes: seq<ClassRecord>, soundTypes: seq<ClassRecord>)
    requires reg.ids.Valid() && reg.HooksIssued()
    modifies m`itemContent, m`tileContent, m`entityContent, m`playerContent, m`worldContent, reg.ids
    modifies reg`items, reg`questFish, reg`idToSlot, reg`globalItems, reg`dusts
    modifies reg`equipTextures, reg`armTextures, reg`femaleTextures, reg`slotToId
    modifies reg`itemInfoIndexes, reg`itemInfoList, reg`projectileInfoIndexes, reg`projectileInfoList
    modifies reg`npcInfoIndexes, reg`npcInfoList
    modifies reg`tiles, reg`globalTiles, reg`tileEntities, reg`walls, reg`globalWalls
    modifies reg`projectiles, reg`globalProjectiles, reg`npcs, reg`globalNPCs
    modifies reg`heads, reg`npcToHead, reg`headToNPC, reg`bossHeads, reg`npcToBossHead
    modifies reg`playerHooks, reg`buffs, reg`globalBuffs, reg`mountDatas
    modifies reg`worldHooks, reg`ugBgStyles, reg`surfaceBgStyles, reg`globalBgStyles
    modifies reg`waterStyles, reg`waterfallStyles, reg`recipeHooks
    ensures reg.ids.Valid() && reg.HooksIssued() && old(reg.ids.issued) <= reg.ids.issued
    ensures Grows(old(Snapshot(m)), Snapshot(m))
    ensures o.Pass? ==> Registered(Snapshot(m), code)
    ensures o.Pass? ==> goreTypes == OfCategory(SortByKey(code), GoreClass)
                        && soundTypes == OfCategory(SortByKey(code), SoundClass)
    ensures o.Pass? <==> ClassesLoad(code, old(m.itemContent.items.Keys), host)
    ensures o.Pass? ==> m.itemContent.items.Keys == old(m.itemContent.items.Keys) + LoadedItemNames(code)
  {
    var types := SortByKey(code);
    o, goreTypes, soundTypes := AutoloadClasses(m, types, reg, host);
    IndexedByMoreIssued(reg.modGores, reg.modSounds, old(reg.ids.issued), reg.ids.issued);
    SortByKeyCorrect(code);
    if o.Pass? {
      RegisteredSameTypes(Snapshot(m), code, types);
      NamesBeforeAccepted(old(m.itemContent.items.Keys), types, |types|);
      assert types[..|types|] == types;
      LoadedItemNamesSameTypes(code, types);
    }
  }

  /** The tail of Mod.Autoload: the gore, sound and background passes, each
      when the mod's properties ask for it; the first one to throw ends it.
      IDs are fresh with respect to `since`, any earlier allocator state. */
  method ConventionPasses(m: Mod, props: Properties, goreTypes: seq<ClassRecord>, soundTypes: seq<ClassRecord>,
                          ghost since: set<(Pool, int)>, reg: Registry, host: Host)
    returns (o: Outcome)
    requires reg.ids.Valid() && reg.HooksIssued() && since <= reg.ids.issued
    modifies reg.ids, reg`gores, reg`modGores, reg`sounds, reg`modSounds, reg`backgrounds
    ensures reg.ids.Valid() && reg.HooksIssued() && old(reg.ids.issued) <= reg.ids.issued
    ensures !props.autoloadGores && !props.autoloadSounds && !props.autoloadBackgrounds ==>
      o == Pass && reg.ids.issued == old(reg.ids.issued)
    ensures o.Pass? <==>
      PassesSucceed(m.modName, props, m.assets.textures.Keys, m.assets.sounds.Keys, goreTypes, soundTypes, host)
    ensures o.Pass? ==>
      PassesKept(m.modName, props, m.assets.textures.Keys, m.assets.sounds.Keys, old(PassTablesOf(reg)), PassTablesOf(reg))
    ensures o.Pass? ==>
      PassesLoaded(m.modName, props, m.assets.textures.Keys, m.assets.sounds.Keys, goreTypes, soundTypes,
                   since, PassTablesOf(reg), reg.ids.issued)
  {
    o := Pass;
    if props.autoloadGores {
      o := AutoloadGores(m, goreTypes, reg);
      if o.Fail? {
        return;
      }
      GoresLoadedEarlier(m.modName, WithPrefix(m.assets.textures.Keys, GoreRoot), goreTypes, old(reg.gores), old(reg.modGores),
                         since, old(reg.ids.issued), reg.gores, reg.modGores, reg.ids.issued);
    }
    ghost var afterGores := reg.ids.issued;
    if props.autoloadSounds {
      o := AutoloadSounds(m, soundTypes, reg, host);
      if o.Fail? {
        return;
      }
      SoundsLoadedEarlier(m.modName, WithPrefix(m.assets.sounds.Keys, Paths.SoundRoot), soundTypes, old(reg.sounds), old(reg.modSounds),
                          since, afterGores, reg.sounds, reg.modSounds, reg.ids.issued);
    }
    ghost var afterSounds := reg.ids.issued;
    if props.autoloadBackgrounds {
      o := AutoloadBackgrounds(m, reg, host);
      if o.Pass? {
        BackgroundsLoadedEarlier(m.modName, WithPrefix(m.assets.textures.Keys, BackgroundRoot), since, afterSounds,
                                 reg.backgrounds, reg.ids.issued);
      }
    }
  }

  lemma BackgroundsLoadedEarlier(modName: string, keys: set<string>, i0: set<(Pool, int)>, i0': set<(Pool, int)>,
                                 slots: map<string, int>, i: set<(Pool, int)>)
    requires i0 <= i0' && BackgroundsLoaded(modName, keys, i0', slots, i)
    ensures BackgroundsLoaded(modName, keys, i0, slots, i)
  {
  }
}
