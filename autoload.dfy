/** Mod.Autoload and its helpers: load the archive into the asset caches,
    visit the assembly's types in order of full name and register each
    concrete, recognised one through the matching Add* entry point, then
    run the Gores/, Sounds/ and Backgrounds/ convention passes over the
    asset keys. Each C# helper is a method here that takes the mod as its
    first parameter; creating an instance of a type (Activator.CreateInstance)
    is a fresh object, and the type's hook answers come from its record. */
module Autoloading {
  import opened Common
  import opened Content
  import opened Paths
  import opened Loaders
  import opened Mods
  import opened Discovery
  import Assets

  /** Mod.Properties: which convention passes the mod asks for. */
  datatype Properties = Properties(autoloadGores: bool, autoloadSounds: bool, autoloadBackgrounds: bool)

  /** The mod's five groups of content tables, as one value. */
  datatype Tables = Tables(
    items: ItemContent, tiles: TileContent, entities: EntityContent,
    players: PlayerContent, worlds: WorldContent)

  function Snapshot(m: Mod): Tables
    reads m`itemContent, m`tileContent, m`entityContent, m`playerContent, m`worldContent
  {
    Tables(m.itemContent, m.tileContent, m.entityContent, m.playerContent, m.worldContent)
  }

  /** The names registered in the mod's table for a category, group by
      group; a group answers {} for a category it does not hold, and the
      info, gore, sound and command categories have no table of the mod's
      own. */
  function ItemKeys(t: ItemContent, c: Category): set<string> {
    match c
    case ItemClass => t.items.Keys
    case GlobalItemClass => t.globalItems.Keys
    case DustClass => t.dusts.Keys
    case _ => {}
  }

  function TileKeys(t: TileContent, c: Category): set<string> {
    match c
    case TileClass => t.tiles.Keys
    case GlobalTileClass => t.globalTiles.Keys
    case TileEntityClass => t.tileEntities.Keys
    case WallClass => t.walls.Keys
    case GlobalWallClass => t.globalWalls.Keys
    case _ => {}
  }

  function EntityKeys(t: EntityContent, c: Category): set<string> {
    match c
    case ProjectileClass => t.projectiles.Keys
    case GlobalProjectileClass => t.globalProjectiles.Keys
    case NPCClass => t.npcs.Keys
    case GlobalNPCClass => t.globalNPCs.Keys
    case _ => {}
  }

  function PlayerKeys(t: PlayerContent, c: Category): set<string> {
    match c
    case PlayerClass => t.players.Keys
    case BuffClass => t.buffs.Keys
    case GlobalBuffClass => t.globalBuffs.Keys
    case MountClass => t.mountDatas.Keys
    case _ => {}
  }

  function WorldKeys(t: WorldContent, c: Category): set<string> {
    match c
    case WorldClass => t.worlds.Keys
    case UgBgStyleClass => t.ugBgStyles.Keys
    case SurfaceBgStyleClass => t.surfaceBgStyles.Keys
    case GlobalBgStyleClass => t.globalBgStyles.Keys
    case WaterStyleClass => t.waterStyles.Keys
    case WaterfallStyleClass => t.waterfallStyles.Keys
    case GlobalRecipeClass => t.globalRecipes.Keys
    case _ => {}
  }

  function Keys(t: Tables, c: Category): set<string> {
    ItemKeys(t.items, c) + TileKeys(t.tiles, c) + EntityKeys(t.entities, c)
    + PlayerKeys(t.players, c) + WorldKeys(t.worlds, c)
  }

  /** The categories of each table group. */
  predicate ItemCategory(c: Category) {
    c.ItemClass? || c.GlobalItemClass? || c.DustClass?
  }

  predicate TileCategory(c: Category) {
    c.TileClass? || c.GlobalTileClass? || c.TileEntityClass? || c.WallClass? || c.GlobalWallClass?
  }

  predicate EntityCategory(c: Category) {
    c.ProjectileClass? || c.GlobalProjectileClass? || c.NPCClass? || c.GlobalNPCClass?
  }

  predicate PlayerCategory(c: Category) {
    c.PlayerClass? || c.BuffClass? || c.GlobalBuffClass? || c.MountClass?
  }

  predicate WorldCategory(c: Category) {
    || c.WorldClass? || c.UgBgStyleClass? || c.SurfaceBgStyleClass? || c.GlobalBgStyleClass?
    || c.WaterStyleClass? || c.WaterfallStyleClass? || c.GlobalRecipeClass?
  }

  predicate InfoCategory(c: Category) {
    c.ItemInfoClass? || c.ProjectileInfoClass? || c.NPCInfoClass?
  }

  /** The table group of each category. */
  datatype Group = Items | Tiles | Entities | Players | Worlds | Infos | Unkeyed

  function GroupOf(c: Category): (g: Group)
    ensures g == Items <==> ItemCategory(c)
    ensures g == Tiles <==> TileCategory(c)
    ensures g == Entities <==> EntityCategory(c)
    ensures g == Players <==> PlayerCategory(c)
    ensures g == Worlds <==> WorldCategory(c)
    ensures g == Infos <==> InfoCategory(c)
  {
    match c
    case ItemClass | GlobalItemClass | DustClass => Items
    case TileClass | GlobalTileClass | TileEntityClass | WallClass | GlobalWallClass => Tiles
    case ProjectileClass | GlobalProjectileClass | NPCClass | GlobalNPCClass => Entities
    case PlayerClass | BuffClass | GlobalBuffClass | MountClass => Players
    case WorldClass | UgBgStyleClass | SurfaceBgStyleClass | GlobalBgStyleClass
       | WaterStyleClass | WaterfallStyleClass | GlobalRecipeClass => Worlds
    case ItemInfoClass | ProjectileInfoClass | NPCInfoClass => Infos
    case GoreClass | SoundClass | CommandClass => Unkeyed
  }

  /** The categories whose instances the mod keeps in a table by name:
      all but the infos, gores, sounds and commands. */
  predicate Keyed(c: Category) {
    ItemCategory(c) || TileCategory(c) || EntityCategory(c) || PlayerCategory(c) || WorldCategory(c)
  }

  /** The item names registered once a type of category `c` has gone
      through its helper without throwing: an item type that Autoload
      accepts adds its loaded name, every other type leaves the names as
      they were. */
  function ItemNamesAfter(c: Option<Category>, r: ClassRecord, names: set<string>): (after: set<string>)
    ensures names <= after && after - names <= {LoadedName(r)}
    ensures LoadedName(r) in after - names ==> c == Some(ItemClass) && r.hooks.load
  {
    if c == Some(ItemClass) && r.hooks.load then names + {LoadedName(r)} else names
  }

  /** No registered name disappears: every table of a group keeps its old
      names (one predicate per group, so that a helper that touches one
      group says so about that group alone). */
  predicate ItemsGrow(a: ItemContent, b: ItemContent) {
    && a.items.Keys <= b.items.Keys
    && a.globalItems.Keys <= b.globalItems.Keys
    && a.equipTextures.Keys <= b.equipTextures.Keys
    && a.dusts.Keys <= b.dusts.Keys
  }

  predicate TilesGrow(a: TileContent, b: TileContent) {
    && a.tiles.Keys <= b.tiles.Keys
    && a.globalTiles.Keys <= b.globalTiles.Keys
    && a.tileEntities.Keys <= b.tileEntities.Keys
    && a.walls.Keys <= b.walls.Keys
    && a.globalWalls.Keys <= b.globalWalls.Keys
  }

  predicate EntitiesGrow(a: EntityContent, b: EntityContent) {
    && a.projectiles.Keys <= b.projectiles.Keys
    && a.globalProjectiles.Keys <= b.globalProjectiles.Keys
    && a.npcs.Keys <= b.npcs.Keys
    && a.globalNPCs.Keys <= b.globalNPCs.Keys
  }

  predicate PlayersGrow(a: PlayerContent, b: PlayerContent) {
    && a.players.Keys <= b.players.Keys
    && a.mountDatas.Keys <= b.mountDatas.Keys
    && a.buffs.Keys <= b.buffs.Keys
    && a.globalBuffs.Keys <= b.globalBuffs.Keys
  }

  predicate WorldsGrow(a: WorldContent, b: WorldContent) {
    && a.worlds.Keys <= b.worlds.Keys
    && a.ugBgStyles.Keys <= b.ugBgStyles.Keys
    && a.surfaceBgStyles.Keys <= b.surfaceBgStyles.Keys
    && a.globalBgStyles.Keys <= b.globalBgStyles.Keys
    && a.waterStyles.Keys <= b.waterStyles.Keys
    && a.waterfallStyles.Keys <= b.waterfallStyles.Keys
    && a.globalRecipes.Keys <= b.globalRecipes.Keys
  }

  /** No registered name disappears from any of the mod's tables, and no
      equip texture is dropped. */
  predicate Grows(a: Tables, b: Tables) {
    && (forall c :: Keys(a, c) <= Keys(b, c))
    && a.items.equipTextures.Keys <= b.items.equipTextures.Keys
  }

  lemma GrowsReflexive(t: Tables)
    ensures Grows(t, t)
  {
  }

  lemma GrowsTransitive(a: Tables, b: Tables, c: Tables)
    requires Grows(a, b) && Grows(b, c)
    ensures Grows(a, c)
  {
  }

  /** Each group's growth keeps the names of each category in that group. */
  lemma GroupKeysGrow(a: Tables, b: Tables, c: Category)
    requires ItemsGrow(a.items, b.items) && TilesGrow(a.tiles, b.tiles) && EntitiesGrow(a.entities, b.entities)
    requires PlayersGrow(a.players, b.players) && WorldsGrow(a.worlds, b.worlds)
    ensures Keys(a, c) <= Keys(b, c)
  {
  }

  /** A step that grows one group of tables and leaves the others as they
      were grows the whole. */
  lemma GrowsInOneGroup(a: Tables, b: Tables)
    requires || (b == a.(items := b.items) && ItemsGrow(a.items, b.items))
             || (b == a.(tiles := b.tiles) && TilesGrow(a.tiles, b.tiles))
             || (b == a.(entities := b.entities) && EntitiesGrow(a.entities, b.entities))
             || (b == a.(players := b.players) && PlayersGrow(a.players, b.players))
             || (b == a.(worlds := b.worlds) && WorldsGrow(a.worlds, b.worlds))
    ensures Grows(a, b)
  {
    forall c
      ensures Keys(a, c) <= Keys(b, c)
    {
      GroupKeysGrow(a, b, c);
    }
  }

  /** Why AutoloadItem throws, given the names already in the item table:
      the class still declares a retired hook, its loaded name is taken, or
      an equip texture it asks for does not resolve. */
  predicate ItemThrows(r: ClassRecord, itemNames: set<string>, host: Host) {
    || LegacyHook(r.legacyHooks, ItemProbes).Some?
    || LoadedName(r) in itemNames
    || !EquipsResolve(EquipTextureMap(r, r.hooks.equips), r.hooks.equips, host)
  }

  /** Whether the helper for category `c` throws on type `r`, given the
      names already in the item table: only when Autoload loads the type,
      and then for the reason of its category. */
  predicate Throws(c: Category, r: ClassRecord, itemNames: set<string>, host: Host) {
    && r.hooks.load
    && if c == ItemClass then ItemThrows(r, itemNames, host)
       else if c == GlobalItemClass then LegacyHook(r.legacyHooks, GlobalItemProbes).Some?
       else if c == DustClass then |LoadedTexture(r)| > 0 && LoadedTexture(r) !in host.textures
       else if c == NPCClass then
         HeadTexture(r) in host.textures && host.dedicatedServer && HeadTexture(r) + ".png" !in host.files
       else if c == PlayerClass then LegacyHook(r.legacyHooks, PlayerProbes).Some?
       else false
  }

  /** A type Autoload registers by name: concrete, in a keyed category, and
      its Autoload hook agrees. */
  predicate Loads(r: ClassRecord) {
    Classify(r).Some? && Keyed(Classify(r).value) && r.hooks.load
  }

  // ---------------------------------------------------------------------
  // One helper per category (AutoloadItem, AutoloadTile, ...)

  /** AutoloadItem: register the item under its loaded name and texture;
      then, if Autoload named equip types, add their equip textures; then
      add the flame texture if it resolves. */
  method AutoloadItem(m: Mod, r: ClassRecord, reg: Registry, host: Host) returns (o: Outcome)
    requires reg.ids.Valid()
    modifies m`itemContent, reg.ids, reg`items, reg`questFish, reg`idToSlot
    modifies reg`equipTextures, reg`armTextures, reg`femaleTextures, reg`slotToId
    ensures reg.ids.Valid() && old(reg.ids.issued) <= reg.ids.issued
    ensures ItemsGrow(old(m.itemContent), m.itemContent)
    ensures !r.hooks.load ==> o == Pass && m.itemContent == old(m.itemContent) && unchanged(reg.ids)
    ensures o.Pass? && r.hooks.load ==>
      && LoadedName(r) in m.itemContent.items
      && var item := m.itemContent.items[LoadedName(r)];
      && item.texture == LoadedTexture(r)
      && (FlameTexture(r) in host.textures ==> item.flameTexture == FlameTexture(r))
      && (|r.hooks.equips| > 0 ==> EquipsNamed(r, r.hooks.equips, item.id, reg))
    ensures o.Pass? && r.hooks.load ==> LoadedName(r) in ItemKeys(m.itemContent, ItemClass)
    ensures o.Fail? <==> r.hooks.load && ItemThrows(r, old(m.itemContent.items.Keys), host)
    ensures o.Pass? ==> m.itemContent.items.Keys == ItemNamesAfter(Some(ItemClass), r, old(m.itemContent.items.Keys))
  {
    var item := new ModItem(r.questFish, r.legacyHooks);
    if !r.hooks.load {
      return Pass;
    }
    var name, texture := LoadedName(r), LoadedTexture(r);
    o := m.AddItem(name, item, texture, reg);
    if o.Fail? {
      return;
    }
    assert m.itemContent.items[name] == item;
    o := AutoloadItemTextures(m, r, item, reg, host);
  }

  /** The rest of AutoloadItem once the item is registered: the equip
      textures if Autoload named equip types, then the flame texture if it
      resolves. */
  method AutoloadItemTextures(m: Mod, r: ClassRecord, item: ModItem, reg: Registry, host: Host) returns (o: Outcome)
    requires reg.ids.Valid()
    modifies m`itemContent, reg.ids, reg`idToSlot, item`flameTexture
    modifies reg`equipTextures, reg`armTextures, reg`femaleTextures, reg`slotToId
    ensures reg.ids.Valid() && old(reg.ids.issued) <= reg.ids.issued
    ensures m.itemContent == old(m.itemContent).(equipTextures := m.itemContent.equipTextures)
    ensures old(m.itemContent.equipTextures.Keys) <= m.itemContent.equipTextures.Keys
    ensures o.Fail? <==> !EquipsResolve(EquipTextureMap(r, r.hooks.equips), r.hooks.equips, host)
    ensures o.Pass? ==>
      && (FlameTexture(r) in host.textures ==> item.flameTexture == FlameTexture(r))
      && (|r.hooks.equips| > 0 ==> EquipsNamed(r, r.hooks.equips, item.id, reg))
  {
    var equips := r.hooks.equips;
    if |equips| > 0 {
      o := AutoloadEquips(m, EquipTextureMap(r, equips), equips, item, LoadedName(r), reg, host);
      if o.Fail? {
        return;
      }
      assert EquipsNamed(r, equips, item.id, reg);
    }
    o := Pass;
    var flame := FlameTexture(r);
    if flame in host.textures {
      o := m.AddFlameTexture(item, flame, host);
    }
  }

  /** Whether equip textures `t` of type `e` resolve: the texture, and for
      a body slot also the arm and female textures. */
  predicate TexturesResolve(t: EquipTextures, e: EquipType, host: Host) {
    t.texture in host.textures && (e == Body ==> t.arm in host.textures && t.female in host.textures)
  }

  /** Whether the textures `tex` gives every type of `equips` resolve. */
  predicate EquipsResolve(tex: map<EquipType, EquipTextures>, equips: seq<EquipType>, host: Host) {
    forall e | e in equips :: e in tex && TexturesResolve(tex[e], e, host)
  }

  /** The body texture a female player wears: the female texture, or the
      body texture when AutoloadEquip left it empty. */
  function FemaleOrBody(t: EquipTextures): (f: string)
    ensures |t.female| > 0 ==> f == t.female
    ensures |t.female| == 0 ==> f == t.texture
  {
    if |t.female| > 0 then t.female else t.texture
  }

  /** The equip textures AutoloadEquip answers, for each requested type. */
  function EquipTextureMap(r: ClassRecord, equips: seq<EquipType>): (tex: map<EquipType, EquipTextures>)
    ensures forall e | e in equips :: e in tex && tex[e] == EquipTexturesOf(r, e)
  {
    map e | e in equips :: EquipTexturesOf(r, e)
  }

  /** The texture each equip texture of the registry carries, by key. */
  ghost function TextureNames(reg: Registry): map<(EquipType, int), string>
    reads reg`equipTextures, reg.equipTextures.Values
  {
    map k | k in reg.equipTextures :: reg.equipTextures[k].texture
  }

  /** Every requested equip type has a slot in the item's equip-slot table;
      that slot holds an equip texture of that type carrying the texture
      `tex` gives it (`names` maps each equip texture to its texture), and a
      body slot also has its arm and female textures. */
  ghost predicate EquipsNamedIn(tex: map<EquipType, EquipTextures>, equips: seq<EquipType>, itemId: int,
                                idToSlot: map<int, map<EquipType, int>>, names: map<(EquipType, int), string>,
                                arms: map<int, string>, females: map<int, string>) {
    itemId in idToSlot &&
    forall e | e in equips ::
      && e in tex && e in idToSlot[itemId]
      && (e, idToSlot[itemId][e]) in names
      && names[(e, idToSlot[itemId][e])] == tex[e].texture
      && (e == Body ==>
            && idToSlot[itemId][e] in arms && arms[idToSlot[itemId][e]] == tex[e].arm
            && idToSlot[itemId][e] in females && females[idToSlot[itemId][e]] == FemaleOrBody(tex[e]))
  }

  /** EquipsNamedIn over the registry's own tables, with the textures
      AutoloadEquip answers. */
  ghost predicate EquipsNamed(r: ClassRecord, equips: seq<EquipType>, itemId: int, reg: Registry)
    reads reg, reg.equipTextures.Values
  {
    EquipsNamedIn(EquipTextureMap(r, equips), equips, itemId, reg.idToSlot, TextureNames(reg),
                  reg.armTextures, reg.femaleTextures)
  }

  /** What AutoloadEquips has achieved for `equips`: their textures
      resolve, they are named, and each recorded slot was issued from the
      pool of its equip type. */
  ghost predicate EquipsLoaded(tex: map<EquipType, EquipTextures>, equips: seq<EquipType>, itemId: int,
                               idToSlot: map<int, map<EquipType, int>>, names: map<(EquipType, int), string>,
                               arms: map<int, string>, females: map<int, string>, issued: set<(Pool, int)>,
                               host: Host) {
    && EquipsResolve(tex, equips, host)
    && EquipsNamedIn(tex, equips, itemId, idToSlot, names, arms, females)
    && forall e | e in equips :: (EquipSlots(e), idToSlot[itemId][e]) in issued
  }

  /** Adding the equip texture of equips[i] under a slot fresh in its pool
      keeps every earlier equip type loaded, since no earlier key is
      overwritten, and loads equips[i]. */
  lemma {:induction false} NameEquip(tex: map<EquipType, EquipTextures>, equips: seq<EquipType>, i: nat, itemId: int,
                                     slot: int, host: Host,
                                     idToSlot: map<int, map<EquipType, int>>, idToSlot': map<int, map<EquipType, int>>,
                                     issued: set<(Pool, int)>, issued': set<(Pool, int)>,
                                     names: map<(EquipType, int), string>, names': map<(EquipType, int), string>,
                                     arms: map<int, string>, arms': map<int, string>,
                                     females: map<int, string>, females': map<int, string>)
    requires i < |equips| && equips[i] in tex && TexturesResolve(tex[equips[i]], equips[i], host)
    requires EquipsLoaded(tex, equips[..i], itemId, idToSlot, names, arms, females, issued, host)
    requires (EquipSlots(equips[i]), slot) !in issued && issued' == issued + {(EquipSlots(equips[i]), slot)}
    requires itemId in idToSlot && idToSlot' == idToSlot[itemId := idToSlot[itemId][equips[i] := slot]]
    requires names' == names[(equips[i], slot) := tex[equips[i]].texture]
    requires equips[i] == Body ==>
      arms' == arms[slot := tex[Body].arm] && females' == females[slot := FemaleOrBody(tex[Body])]
    requires equips[i] != Body ==> arms' == arms && females' == females
    ensures EquipsLoaded(tex, equips[..i + 1], itemId, idToSlot', names', arms', females', issued', host)
  {
    assert equips[..i + 1] == equips[..i] + [equips[i]];
  }

  /** One pass of AutoloadEquips: add the equip texture of type `e` with
      textures `t`, under a slot fresh in its pool. */
  method LoadEquip(m: Mod, t: EquipTextures, item: ModItem, name: string, e: EquipType, reg: Registry, host: Host)
    returns (slot: Result<int>)
    requires reg.ids.Valid()
    modifies m`itemContent, reg.ids
    modifies reg`equipTextures, reg`armTextures, reg`femaleTextures, reg`slotToId
    ensures reg.ids.Valid() && old(reg.ids.issued) <= reg.ids.issued
    ensures m.itemContent == old(m.itemContent).(equipTextures := m.itemContent.equipTextures)
    ensures old(m.itemContent.equipTextures.Keys) <= m.itemContent.equipTextures.Keys
    ensures slot.Ok? <==> TexturesResolve(t, e, host)
    ensures slot.Ok? ==>
      && (EquipSlots(e), slot.value) !in old(reg.ids.issued)
      && reg.ids.issued == old(reg.ids.issued) + {(EquipSlots(e), slot.value)}
      && TextureNames(reg) == old(TextureNames(reg))[(e, slot.value) := t.texture]
      && (e == Body ==>
            && reg.armTextures == old(reg.armTextures)[slot.value := t.arm]
            && reg.femaleTextures == old(reg.femaleTextures)[slot.value := FemaleOrBody(t)])
      && (e != Body ==> reg.armTextures == old(reg.armTextures) && reg.femaleTextures == old(reg.femaleTextures))
  {
    ghost var before := reg.equipTextures;
    var equipTexture := new EquipTexture();
    slot := m.AddEquipTexture(equipTexture, item, e, name, t.texture, t.arm, t.female, reg, host);
    if slot.Ok? {
      forall k | k in before ensures before[k] != equipTexture {
      }
    }
  }

  /** One step of AutoloadEquips: LoadEquip for equips[i], then the slot
      recorded in the item's equip-slot table: EquipsLoaded extends from
      equips[..i] to equips[..i + 1]. */
  method RecordEquip(m: Mod, tex: map<EquipType, EquipTextures>, item: ModItem, name: string,
                     equips: seq<EquipType>, i: nat, reg: Registry, host: Host) returns (slot: Result<int>)
    requires reg.ids.Valid() && i < |equips| && equips[i] in tex && item.id in reg.idToSlot
    requires EquipsLoaded(tex, equips[..i], item.id, reg.idToSlot, TextureNames(reg), reg.armTextures,
                          reg.femaleTextures, reg.ids.issued, host)
    modifies m`itemContent, reg.ids, reg`idToSlot
    modifies reg`equipTextures, reg`armTextures, reg`femaleTextures, reg`slotToId
    ensures reg.ids.Valid() && old(reg.ids.issued) <= reg.ids.issued
    ensures m.itemContent == old(m.itemContent).(equipTextures := m.itemContent.equipTextures)
    ensures old(m.itemContent.equipTextures.Keys) <= m.itemContent.equipTextures.Keys
    ensures item.id in reg.idToSlot
    ensures slot.Ok? <==> TexturesResolve(tex[equips[i]], equips[i], host)
    ensures slot.Ok? ==>
      EquipsLoaded(tex, equips[..i + 1], item.id, reg.idToSlot, TextureNames(reg), reg.armTextures,
                   reg.femaleTextures, reg.ids.issued, host)
  {
    ghost var names, issued, arms, females := TextureNames(reg), reg.ids.issued, reg.armTextures, reg.femaleTextures;
    ghost var table := reg.idToSlot;
    slot := LoadEquip(m, tex[equips[i]], item, name, equips[i], reg, host);
    if slot.Ok? {
      reg.idToSlot := reg.idToSlot[item.id := reg.idToSlot[item.id][equips[i] := slot.value]];
      NameEquip(tex, equips, i, item.id, slot.value, host, table, reg.idToSlot, issued, reg.ids.issued,
                names, TextureNames(reg), arms, reg.armTextures, females, reg.femaleTextures);
    }
  }

  /** The equip part of AutoloadItem: a fresh equip-slot table for the
      item, then one RecordEquip per requested type, with the textures
      `tex` gives it; a missing texture aborts. */
  method AutoloadEquips(m: Mod, tex: map<EquipType, EquipTextures>, equips: seq<EquipType>, item: ModItem,
                        name: string, reg: Registry, host: Host) returns (o: Outcome)
    requires reg.ids.Valid() && forall e | e in equips :: e in tex
    modifies m`itemContent, reg.ids, reg`idToSlot
    modifies reg`equipTextures, reg`armTextures, reg`femaleTextures, reg`slotToId
    ensures reg.ids.Valid() && old(reg.ids.issued) <= reg.ids.issued
    ensures m.itemContent == old(m.itemContent).(equipTextures := m.itemContent.equipTextures)
    ensures old(m.itemContent.equipTextures.Keys) <= m.itemContent.equipTextures.Keys
    ensures item.id in reg.idToSlot
    ensures o.Fail? <==> !EquipsResolve(tex, equips, host)
    ensures o.Pass? ==>
      EquipsNamedIn(tex, equips, item.id, reg.idToSlot, TextureNames(reg), reg.armTextures, reg.femaleTextures)
  {
    reg.idToSlot := reg.idToSlot[item.id := map[]];
    var i := 0;
    while i < |equips|
      invariant 0 <= i <= |equips|
      invariant reg.ids.Valid() && old(reg.ids.issued) <= reg.ids.issued
      invariant m.itemContent == old(m.itemContent).(equipTextures := m.itemContent.equipTextures)
      invariant old(m.itemContent.equipTextures.Keys) <= m.itemContent.equipTextures.Keys
      invariant item.id in reg.idToSlot
      invariant EquipsLoaded(tex, equips[..i], item.id, reg.idToSlot, TextureNames(reg), reg.armTextures,
                             reg.femaleTextures, reg.ids.issued, host)
    {
      var slot := RecordEquip(m, tex, item, name, equips, i, reg, host);
      if slot.Err? {
        assert equips[i] in equips;
        return Fail(slot.error);
      }
      i := i + 1;
    }
    assert equips[..i] == equips;
    o := Pass;
  }

  /** AutoloadNPC: register the NPC, then its head texture if it resolves
      (on a dedicated server: if its .png file exists), then its boss-head
      texture if it resolves, linking the NPC to the boss-head slot. */
  method AutoloadNPC(m: Mod, r: ClassRecord, reg: Registry, host: Host) returns (o: Outcome)
    requires reg.ids.Valid()
    modifies m`entityContent, reg.ids, reg`npcs, reg`heads, reg`npcToHead, reg`headToNPC
    modifies reg`bossHeads, reg`npcToBossHead
    ensures reg.ids.Valid() && old(reg.ids.issued) <= reg.ids.issued
    ensures EntitiesGrow(old(m.entityContent), m.entityContent)
    ensures !r.hooks.load ==> o == Pass && m.entityContent == old(m.entityContent) && unchanged(reg.ids)
    ensures r.hooks.load ==>
      && LoadedName(r) in m.entityContent.npcs
      && var npc := m.entityContent.npcs[LoadedName(r)];
      && npc.texture == LoadedTexture(r) && npc.altTextures == r.hooks.altTextures
      && (o.Fail? <==> HeadTexture(r) in host.textures && host.dedicatedServer
                       && HeadTexture(r) + ".png" !in host.files)
      && (o.Pass? && (HeadTexture(r) in host.textures
                      || (host.dedicatedServer && HeadTexture(r) + ".png" in host.files)) ==>
            HeadTexture(r) in reg.heads && npc.id in reg.npcToHead
            && reg.npcToHead[npc.id] == reg.heads[HeadTexture(r)])
      && (o.Pass? && BossHeadTexture(r) in host.textures ==>
            BossHeadTexture(r) in reg.bossHeads && npc.id in reg.npcToBossHead
            && reg.npcToBossHead[npc.id] == reg.bossHeads[BossHeadTexture(r)])
    ensures r.hooks.load ==> LoadedName(r) in EntityKeys(m.entityContent, NPCClass)
  {
    var npc := new ModNPC();
    if !r.hooks.load {
      return Pass;
    }
    m.AddNPC(LoadedName(r), npc, LoadedTexture(r), r.hooks.altTextures, reg);
    o := AutoloadNPCHeads(m, npc.id, r, reg, host);
  }

  /** The head and boss-head part of AutoloadNPC, for the NPC of type `npcType`. */
  method AutoloadNPCHeads(m: Mod, npcType: int, r: ClassRecord, reg: Registry, host: Host) returns (o: Outcome)
    requires reg.ids.Valid()
    modifies reg.ids, reg`heads, reg`npcToHead, reg`headToNPC, reg`bossHeads, reg`npcToBossHead
    ensures reg.ids.Valid() && old(reg.ids.issued) <= reg.ids.issued
    ensures o.Fail? <==> HeadTexture(r) in host.textures && host.dedicatedServer
                         && HeadTexture(r) + ".png" !in host.files
    ensures o.Pass? && (HeadTexture(r) in host.textures
                        || (host.dedicatedServer && HeadTexture(r) + ".png" in host.files)) ==>
      HeadTexture(r) in reg.heads && npcType in reg.npcToHead
      && reg.npcToHead[npcType] == reg.heads[HeadTexture(r)]
    ensures o.Pass? && BossHeadTexture(r) in host.textures ==>
      BossHeadTexture(r) in reg.bossHeads && npcType in reg.npcToBossHead
      && reg.npcToBossHead[npcType] == reg.bossHeads[BossHeadTexture(r)]
  {
    var head, bossHead := HeadTexture(r), BossHeadTexture(r);
    o := Pass;
    if head in host.textures || (host.dedicatedServer && head + ".png" in host.files) {
      o := m.AddNPCHeadTexture(npcType, head, reg, host);
      if o.Fail? {
        return;
      }
    }
    if bossHead in host.textures {
      o := m.AddBossHeadTexture(bossHead, reg, host);
      reg.npcToBossHead := reg.npcToBossHead[npcType := reg.bossHeads[bossHead]];
    }
  }

  /** AutoloadDust: the dust's texture must resolve unless it is empty. */
  method AutoloadDust(m: Mod, r: ClassRecord, reg: Registry, host: Host) returns (o: Outcome)
    requires reg.ids.Valid()
    modifies m`itemContent, reg.ids, reg`dusts
    ensures reg.ids.Valid() && old(reg.ids.issued) <= reg.ids.issued
    ensures ItemsGrow(old(m.itemContent), m.itemContent)
    ensures !r.hooks.load ==> o == Pass && m.itemContent == old(m.itemContent) && unchanged(reg.ids)
    ensures r.hooks.load ==> (o.Fail? <==> |LoadedTexture(r)| > 0 && LoadedTexture(r) !in host.textures)
    ensures o.Pass? && r.hooks.load ==> LoadedName(r) in m.itemContent.dusts
    ensures o.Pass? && r.hooks.load ==> LoadedName(r) in ItemKeys(m.itemContent, DustClass)
    ensures m.itemContent.items == old(m.itemContent.items)
  {
    var dust := new ModDust();
    o := Pass;
    if r.hooks.load {
      o := m.AddDust(LoadedName(r), dust, LoadedTexture(r), reg, host);
    }
  }

  /** AutoloadWaterStyle: the block texture defaults to the default
      texture with "_Block", whatever main texture Autoload answers. */
  method AutoloadWaterStyle(m: Mod, r: ClassRecord, reg: Registry)
    requires reg.ids.Valid()
    modifies m`worldContent, reg.ids, reg`waterStyles
    ensures reg.ids.Valid() && old(reg.ids.issued) <= reg.ids.issued
    ensures WorldsGrow(old(m.worldContent), m.worldContent)
    ensures r.hooks.load ==> (LoadedName(r) in m.worldContent.waterStyles
      && m.worldContent.waterStyles[LoadedName(r)].texture == LoadedTexture(r)
      && m.worldContent.waterStyles[LoadedName(r)].blockTexture == BlockTexture(r))
    ensures !r.hooks.load ==> m.worldContent == old(m.worldContent) && unchanged(reg.ids)
    ensures r.hooks.load ==> LoadedName(r) in WorldKeys(m.worldContent, WaterStyleClass)
  {
    var style := new ModWaterStyle();
    if r.hooks.load {
      m.AddWaterStyle(LoadedName(r), style, LoadedTexture(r), BlockTexture(r), reg);
    }
  }

  /** AutoloadGlobalItem: refused if the class declares a retired hook. */
  method AutoloadGlobalItem(m: Mod, r: ClassRecord, reg: Registry) returns (o: Outcome)
    modifies m`itemContent, reg`globalItems
    ensures ItemsGrow(old(m.itemContent), m.itemContent)
    ensures o.Fail? <==> r.hooks.load && LegacyHook(r.legacyHooks, GlobalItemProbes).Some?
    ensures o.Pass? && r.hooks.load ==> LoadedName(r) in m.itemContent.globalItems
    ensures o.Pass? && r.hooks.load ==> LoadedName(r) in ItemKeys(m.itemContent, GlobalItemClass)
    ensures m.itemContent.items == old(m.itemContent.items)
  {
    var globalItem := new GlobalItem(r.legacyHooks);
    o := Pass;
    if r.hooks.load {
      o := m.AddGlobalItem(LoadedName(r), globalItem, reg);
    }
  }

  /** AutoloadPlayer: refused if the class declares the retired CatchFish. */
  method AutoloadPlayer(m: Mod, r: ClassRecord, reg: Registry) returns (o: Outcome)
    modifies m`playerContent, reg`playerHooks
    ensures PlayersGrow(old(m.playerContent), m.playerContent)
    ensures o.Fail? <==> r.hooks.load && LegacyHook(r.legacyHooks, PlayerProbes).Some?
    ensures o.Pass? && r.hooks.load ==> LoadedName(r) in m.playerContent.players
    ensures o.Pass? && r.hooks.load ==> LoadedName(r) in PlayerKeys(m.playerContent, PlayerClass)
  {
    var player := new ModPlayer(r.legacyHooks);
    o := Pass;
    if r.hooks.load {
      o := m.AddPlayer(LoadedName(r), player, reg);
    }
  }

  /** AutoloadItemInfo, AutoloadProjectileInfo, AutoloadNPCInfo: the info
      is indexed in its loader under "Mod:name". */
  method AutoloadItemInfo(m: Mod, r: ClassRecord, reg: Registry)
    modifies reg`itemInfoIndexes, reg`itemInfoList
    ensures r.hooks.load ==>
      && |reg.itemInfoList| == |old(reg.itemInfoList)| + 1 && reg.itemInfoList[..|old(reg.itemInfoList)|] == old(reg.itemInfoList)
      && var info := reg.itemInfoList[|old(reg.itemInfoList)|];
      && fresh(info) && info.name == LoadedName(r) && info.owner == m.modName
      && reg.itemInfoIndexes == old(reg.itemInfoIndexes)[m.modName + ":" + LoadedName(r) := |old(reg.itemInfoList)|]
    ensures !r.hooks.load ==> reg.itemInfoIndexes == old(reg.itemInfoIndexes) && reg.itemInfoList == old(reg.itemInfoList)
  {
    var info := new ItemInfo();
    if r.hooks.load {
      m.AddItemInfo(LoadedName(r), info, reg);
    }
  }

  method AutoloadProjectileInfo(m: Mod, r: ClassRecord, reg: Registry)
    modifies reg`projectileInfoIndexes, reg`projectileInfoList
    ensures r.hooks.load ==>
      && |reg.projectileInfoList| == |old(reg.projectileInfoList)| + 1 && reg.projectileInfoList[..|old(reg.projectileInfoList)|] == old(reg.projectileInfoList)
      && var info := reg.projectileInfoList[|old(reg.projectileInfoList)|];
      && fresh(info) && info.name == LoadedName(r) && info.owner == m.modName
      && reg.projectileInfoIndexes == old(reg.projectileInfoIndexes)[m.modName + ":" + LoadedName(r) := |old(reg.projectileInfoList)|]
    ensures !r.hooks.load ==> reg.projectileInfoIndexes == old(reg.projectileInfoIndexes) && reg.projectileInfoList == old(reg.projectileInfoList)
  {
    var info := new ProjectileInfo();
    if r.hooks.load {
      m.AddProjectileInfo(LoadedName(r), info, reg);
    }
  }

  method AutoloadNPCInfo(m: Mod, r: ClassRecord, reg: Registry)
    modifies reg`npcInfoIndexes, reg`npcInfoList
    ensures r.hooks.load ==>
      && |reg.npcInfoList| == |old(reg.npcInfoList)| + 1 && reg.npcInfoList[..|old(reg.npcInfoList)|] == old(reg.npcInfoList)
      && var info := reg.npcInfoList[|old(reg.npcInfoList)|];
      && fresh(info) && info.name == LoadedName(r) && info.owner == m.modName
      && reg.npcInfoIndexes == old(reg.npcInfoIndexes)[m.modName + ":" + LoadedName(r) := |old(reg.npcInfoList)|]
    ensures !r.hooks.load ==> reg.npcInfoIndexes == old(reg.npcInfoIndexes) && reg.npcInfoList == old(reg.npcInfoList)
  {
    var info := new NPCInfo();
    if r.hooks.load {
      m.AddNPCInfo(LoadedName(r), info, reg);
    }
  }

  /** The remaining categories share one shape: register under the loaded
      name (and, where the category has one, the loaded texture). */

  method AutoloadTile(m: Mod, r: ClassRecord, reg: Registry)
    requires reg.ids.Valid()
    modifies m`tileContent, reg.ids, reg`tiles
    ensures reg.ids.Valid() && old(reg.ids.issued) <= reg.ids.issued
    ensures TilesGrow(old(m.tileContent), m.tileContent)
    ensures r.hooks.load ==> (LoadedName(r) in m.tileContent.tiles
                             && m.tileContent.tiles[LoadedName(r)].texture == LoadedTexture(r))
    ensures !r.hooks.load ==> m.tileContent == old(m.tileContent) && reg.tiles == old(reg.tiles) && unchanged(reg.ids)
    ensures r.hooks.load ==> LoadedName(r) in TileKeys(m.tileContent, TileClass)
  {
    var x := new ModTile();
    if r.hooks.load {
      m.AddTile(LoadedName(r), x, LoadedTexture(r), reg);
    }
  }

  method AutoloadWall(m: Mod, r: ClassRecord, reg: Registry)
    requires reg.ids.Valid()
    modifies m`tileContent, reg.ids, reg`walls
    ensures reg.ids.Valid() && old(reg.ids.issued) <= reg.ids.issued
    ensures TilesGrow(old(m.tileContent), m.tileContent)
    ensures r.hooks.load ==> (LoadedName(r) in m.tileContent.walls
                             && m.tileContent.walls[LoadedName(r)].texture == LoadedTexture(r))
    ensures !r.hooks.load ==> m.tileContent == old(m.tileContent) && reg.walls == old(reg.walls) && unchanged(reg.ids)
    ensures r.hooks.load ==> LoadedName(r) in TileKeys(m.tileContent, WallClass)
  {
    var x := new ModWall();
    if r.hooks.load {
      m.AddWall(LoadedName(r), x, LoadedTexture(r), reg);
    }
  }

  method AutoloadProjectile(m: Mod, r: ClassRecord, reg: Registry)
    requires reg.ids.Valid()
    modifies m`entityContent, reg.ids, reg`projectiles
    ensures reg.ids.Valid() && old(reg.ids.issued) <= reg.ids.issued
    ensures EntitiesGrow(old(m.entityContent), m.entityContent)
    ensures r.hooks.load ==> (LoadedName(r) in m.entityContent.projectiles
                             && m.entityContent.projectiles[LoadedName(r)].texture == LoadedTexture(r))
    ensures !r.hooks.load ==> m.entityContent == old(m.entityContent) && reg.projectiles == old(reg.projectiles) && unchanged(reg.ids)
    ensures r.hooks.load ==> LoadedName(r) in EntityKeys(m.entityContent, ProjectileClass)
  {
    var x := new ModProjectile();
    if r.hooks.load {
      m.AddProjectile(LoadedName(r), x, LoadedTexture(r), reg);
    }
  }

  method AutoloadBuff(m: Mod, r: ClassRecord, reg: Registry)
    requires reg.ids.Valid()
    modifies m`playerContent, reg.ids, reg`buffs
    ensures reg.ids.Valid() && old(reg.ids.issued) <= reg.ids.issued
    ensures PlayersGrow(old(m.playerContent), m.playerContent)
    ensures r.hooks.load ==> (LoadedName(r) in m.playerContent.buffs
                             && m.playerContent.buffs[LoadedName(r)].texture == LoadedTexture(r))
    ensures !r.hooks.load ==> m.playerContent == old(m.playerContent) && reg.buffs == old(reg.buffs) && unchanged(reg.ids)
    ensures r.hooks.load ==> LoadedName(r) in PlayerKeys(m.playerContent, BuffClass)
  {
    var x := new ModBuff();
    if r.hooks.load {
      m.AddBuff(LoadedName(r), x, LoadedTexture(r), reg);
    }
  }

  method AutoloadMountData(m: Mod, r: ClassRecord, reg: Registry)
    requires reg.ids.Valid()
    modifies m`playerContent, reg.ids, reg`mountDatas
    ensures reg.ids.Valid() && old(reg.ids.issued) <= reg.ids.issued
    ensures PlayersGrow(old(m.playerContent), m.playerContent)
    ensures r.hooks.load ==> (LoadedName(r) in m.playerContent.mountDatas
                             && m.playerContent.mountDatas[LoadedName(r)].texture == LoadedTexture(r))
    ensures !r.hooks.load ==> m.playerContent == old(m.playerContent) && reg.mountDatas == old(reg.mountDatas) && unchanged(reg.ids)
    ensures r.hooks.load ==> LoadedName(r) in PlayerKeys(m.playerContent, MountClass)
  {
    var x := new ModMountData();
    if r.hooks.load {
      m.AddMount(LoadedName(r), x, LoadedTexture(r), reg);
    }
  }

  method AutoloadWaterfallStyle(m: Mod, r: ClassRecord, reg: Registry)
    requires reg.ids.Valid()
    modifies m`worldContent, reg.ids, reg`waterfallStyles
    ensures reg.ids.Valid() && old(reg.ids.issued) <= reg.ids.issued
    ensures WorldsGrow(old(m.worldContent), m.worldContent)
    ensures r.hooks.load ==> (LoadedName(r) in m.worldContent.waterfallStyles
                             && m.worldContent.waterfallStyles[LoadedName(r)].texture == LoadedTexture(r))
    ensures !r.hooks.load ==> m.worldContent == old(m.worldContent) && reg.waterfallStyles == old(reg.waterfallStyles) && unchanged(reg.ids)
    ensures r.hooks.load ==> LoadedName(r) in WorldKeys(m.worldContent, WaterfallStyleClass)
  {
    var x := new ModWaterfallStyle();
    if r.hooks.load {
      m.AddWaterfallStyle(LoadedName(r), x, LoadedTexture(r), reg);
    }
  }

  method AutoloadGlobalTile(m: Mod, r: ClassRecord, reg: Registry)
    modifies m`tileContent, reg`globalTiles
    ensures TilesGrow(old(m.tileContent), m.tileContent)
    ensures r.hooks.load ==> LoadedName(r) in m.tileContent.globalTiles
    ensures !r.hooks.load ==> m.tileContent == old(m.tileContent) && reg.globalTiles == old(reg.globalTiles)
    ensures r.hooks.load ==> LoadedName(r) in TileKeys(m.tileContent, GlobalTileClass)
  {
    var x := new GlobalTile();
    if r.hooks.load {
      m.AddGlobalTile(LoadedName(r), x, reg);
    }
  }

  method AutoloadTileEntity(m: Mod, r: ClassRecord, reg: Registry)
    requires reg.ids.Valid()
    modifies m`tileContent, reg.ids, reg`tileEntities
    ensures reg.ids.Valid() && old(reg.ids.issued) <= reg.ids.issued
    ensures TilesGrow(old(m.tileContent), m.tileContent)
    ensures r.hooks.load ==> LoadedName(r) in m.tileContent.tileEntities
    ensures !r.hooks.load ==> m.tileContent == old(m.tileContent) && reg.tileEntities == old(reg.tileEntities) && unchanged(reg.ids)
    ensures r.hooks.load ==> LoadedName(r) in TileKeys(m.tileContent, TileEntityClass)
  {
    var x := new ModTileEntity();
    if r.hooks.load {
      m.AddTileEntity(LoadedName(r), x, reg);
    }
  }

  method AutoloadGlobalWall(m: Mod, r: ClassRecord, reg: Registry)
    modifies m`tileContent, reg`globalWalls
    ensures TilesGrow(old(m.tileContent), m.tileContent)
    ensures r.hooks.load ==> LoadedName(r) in m.tileContent.globalWalls
    ensures !r.hooks.load ==> m.tileContent == old(m.tileContent) && reg.globalWalls == old(reg.globalWalls)
    ensures r.hooks.load ==> LoadedName(r) in TileKeys(m.tileContent, GlobalWallClass)
  {
    var x := new GlobalWall();
    if r.hooks.load {
      m.AddGlobalWall(LoadedName(r), x, reg);
    }
  }

  method AutoloadGlobalProjectile(m: Mod, r: ClassRecord, reg: Registry)
    modifies m`entityContent, reg`globalProjectiles
    ensures EntitiesGrow(old(m.entityContent), m.entityContent)
    ensures r.hooks.load ==> LoadedName(r) in m.entityContent.globalProjectiles
    ensures !r.hooks.load ==> m.entityContent == old(m.entityContent) && reg.globalProjectiles == old(reg.globalProjectiles)
    ensures r.hooks.load ==> LoadedName(r) in EntityKeys(m.entityContent, GlobalProjectileClass)
  {
    var x := new GlobalProjectile();
    if r.hooks.load {
      m.AddGlobalProjectile(LoadedName(r), x, reg);
    }
  }

  method AutoloadGlobalNPC(m: Mod, r: ClassRecord, reg: Registry)
    modifies m`entityContent, reg`globalNPCs
    ensures EntitiesGrow(old(m.entityContent), m.entityContent)
    ensures r.hooks.load ==> LoadedName(r) in m.entityContent.globalNPCs
    ensures !r.hooks.load ==> m.entityContent == old(m.entityContent) && reg.globalNPCs == old(reg.globalNPCs)
    ensures r.hooks.load ==> LoadedName(r) in EntityKeys(m.entityContent, GlobalNPCClass)
  {
    var x := new GlobalNPC();
    if r.hooks.load {
      m.AddGlobalNPC(LoadedName(r), x, reg);
    }
  }

  method AutoloadGlobalBuff(m: Mod, r: ClassRecord, reg: Registry)
    modifies m`playerContent, reg`globalBuffs
    ensures PlayersGrow(old(m.playerContent), m.playerContent)
    ensures r.hooks.load ==> LoadedName(r) in m.playerContent.globalBuffs
    ensures !r.hooks.load ==> m.playerContent == old(m.playerContent) && reg.globalBuffs == old(reg.globalBuffs)
    ensures r.hooks.load ==> LoadedName(r) in PlayerKeys(m.playerContent, GlobalBuffClass)
  {
    var x := new GlobalBuff();
    if r.hooks.load {
      m.AddGlobalBuff(LoadedName(r), x, reg);
    }
  }

  method AutoloadModWorld(m: Mod, r: ClassRecord, reg: Registry)
    modifies m`worldContent, reg`worldHooks
    ensures WorldsGrow(old(m.worldContent), m.worldContent)
    ensures r.hooks.load ==> LoadedName(r) in m.worldContent.worlds
    ensures !r.hooks.load ==> m.worldContent == old(m.worldContent) && reg.worldHooks == old(reg.worldHooks)
    ensures r.hooks.load ==> LoadedName(r) in WorldKeys(m.worldContent, WorldClass)
  {
    var x := new ModWorld();
    if r.hooks.load {
      m.AddModWorld(LoadedName(r), x, reg);
    }
  }

  method AutoloadUgBgStyle(m: Mod, r: ClassRecord, reg: Registry)
    requires reg.ids.Valid()
    modifies m`worldContent, reg.ids, reg`ugBgStyles
    ensures reg.ids.Valid() && old(reg.ids.issued) <= reg.ids.issued
    ensures WorldsGrow(old(m.worldContent), m.worldContent)
    ensures r.hooks.load ==> LoadedName(r) in m.worldContent.ugBgStyles
    ensures !r.hooks.load ==> m.worldContent == old(m.worldContent) && reg.ugBgStyles == old(reg.ugBgStyles) && unchanged(reg.ids)
    ensures r.hooks.load ==> LoadedName(r) in WorldKeys(m.worldContent, UgBgStyleClass)
  {
    var x := new ModUgBgStyle();
    if r.hooks.load {
      m.AddUgBgStyle(LoadedName(r), x, reg);
    }
  }

  method AutoloadSurfaceBgStyle(m: Mod, r: ClassRecord, reg: Registry)
    requires reg.ids.Valid()
    modifies m`worldContent, reg.ids, reg`surfaceBgStyles
    ensures reg.ids.Valid() && old(reg.ids.issued) <= reg.ids.issued
    ensures WorldsGrow(old(m.worldContent), m.worldContent)
    ensures r.hooks.load ==> LoadedName(r) in m.worldContent.surfaceBgStyles
    ensures !r.hooks.load ==> m.worldContent == old(m.worldContent) && reg.surfaceBgStyles == old(reg.surfaceBgStyles) && unchanged(reg.ids)
    ensures r.hooks.load ==> LoadedName(r) in WorldKeys(m.worldContent, SurfaceBgStyleClass)
  {
    var x := new ModSurfaceBgStyle();
    if r.hooks.load {
      m.AddSurfaceBgStyle(LoadedName(r), x, reg);
    }
  }

  method AutoloadGlobalBgStyle(m: Mod, r: ClassRecord, reg: Registry)
    modifies m`worldContent, reg`globalBgStyles
    ensures WorldsGrow(old(m.worldContent), m.worldContent)
    ensures r.hooks.load ==> LoadedName(r) in m.worldContent.globalBgStyles
    ensures !r.hooks.load ==> m.worldContent == old(m.worldContent) && reg.globalBgStyles == old(reg.globalBgStyles)
    ensures r.hooks.load ==> LoadedName(r) in WorldKeys(m.worldContent, GlobalBgStyleClass)
  {
    var x := new GlobalBgStyle();
    if r.hooks.load {
      m.AddGlobalBgStyle(LoadedName(r), x, reg);
    }
  }

  method AutoloadGlobalRecipe(m: Mod, r: ClassRecord, reg: Registry)
    modifies m`worldContent, reg`recipeHooks
    ensures WorldsGrow(old(m.worldContent), m.worldContent)
    ensures r.hooks.load ==> LoadedName(r) in m.worldContent.globalRecipes
    ensures !r.hooks.load ==> m.worldContent == old(m.worldContent) && reg.recipeHooks == old(reg.recipeHooks)
    ensures r.hooks.load ==> LoadedName(r) in WorldKeys(m.worldContent, GlobalRecipeClass)
  {
    var x := new GlobalRecipe();
    if r.hooks.load {
      m.AddGlobalRecipe(LoadedName(r), x, reg);
    }
  }


  // ---------------------------------------------------------------------
  // The first-match dispatch and the class loop


  /** The tile, world and info helpers never throw, nor does a gore, sound
      or command type, which the loop only collects. */
  lemma QuietGroups(c: Category, r: ClassRecord, itemNames: set<string>, host: Host)
    requires GroupOf(c) == Tiles || GroupOf(c) == Worlds || GroupOf(c) == Infos || GroupOf(c) == Unkeyed
    ensures !Throws(c, r, itemNames, host)
  {
  }

  /** Only an item type adds an item name. */
  lemma NoItemNames(c: Category, r: ClassRecord, names: set<string>)
    requires !ItemCategory(c)
    ensures ItemNamesAfter(Some(c), r, names) == names
  {
  }

  /** Of the player, world and info helpers, only AutoloadPlayer throws. */
  lemma LastGroupsThrow(c: Category, r: ClassRecord, itemNames: set<string>, host: Host)
    requires GroupOf(c) == Players || GroupOf(c) == Worlds || GroupOf(c) == Infos
    ensures Throws(c, r, itemNames, host) <==>
      c == PlayerClass && r.hooks.load && LegacyHook(r.legacyHooks, PlayerProbes).Some?
    ensures ItemNamesAfter(Some(c), r, itemNames) == itemNames
  {
  }

  method AutoloadFirstGroups(m: Mod, r: ClassRecord, c: Category, reg: Registry, host: Host) returns (o: Outcome)
    requires reg.ids.Valid()
    requires GroupOf(c) == Items || GroupOf(c) == Tiles || GroupOf(c) == Entities
    modifies m`itemContent, m`tileContent, m`entityContent, reg.ids
    modifies reg`items, reg`questFish, reg`idToSlot, reg`globalItems, reg`dusts
    modifies reg`equipTextures, reg`armTextures, reg`femaleTextures, reg`slotToId
    modifies reg`tiles, reg`globalTiles, reg`tileEntities, reg`walls, reg`globalWalls
    modifies reg`projectiles, reg`globalProjectiles, reg`npcs, reg`globalNPCs
    modifies reg`heads, reg`npcToHead, reg`headToNPC, reg`bossHeads, reg`npcToBossHead
    ensures reg.ids.Valid() && old(reg.ids.issued) <= reg.ids.issued
    ensures Grows(old(Snapshot(m)), Snapshot(m))
    ensures o.Pass? && r.hooks.load ==>
      LoadedName(r) in ItemKeys(m.itemContent, c) + TileKeys(m.tileContent, c) + EntityKeys(m.entityContent, c)
    ensures o.Fail? <==> Throws(c, r, old(m.itemContent.items.Keys), host)
    ensures o.Pass? ==> m.itemContent.items.Keys == ItemNamesAfter(Some(c), r, old(m.itemContent.items.Keys))
  {
    if GroupOf(c) == Items {
      o := AutoloadItemGroup(m, r, c, reg, host);
      GrowsInOneGroup(old(Snapshot(m)), Snapshot(m));
    } else {
      NoItemNames(c, r, m.itemContent.items.Keys);
      o := AutoloadPlacedGroups(m, r, c, reg, host);
    }
  }

  /** The tile and entity helpers, which leave the item table alone. */
  method AutoloadPlacedGroups(m: Mod, r: ClassRecord, c: Category, reg: Registry, host: Host) returns (o: Outcome)
    requires reg.ids.Valid()
    requires GroupOf(c) == Tiles || GroupOf(c) == Entities
    modifies m`tileContent, m`entityContent, reg.ids
    modifies reg`tiles, reg`globalTiles, reg`tileEntities, reg`walls, reg`globalWalls
    modifies reg`projectiles, reg`globalProjectiles, reg`npcs, reg`globalNPCs
    modifies reg`heads, reg`npcToHead, reg`headToNPC, reg`bossHeads, reg`npcToBossHead
    ensures reg.ids.Valid() && old(reg.ids.issued) <= reg.ids.issued
    ensures Grows(old(Snapshot(m)), Snapshot(m))
    ensures o.Pass? && r.hooks.load ==> LoadedName(r) in TileKeys(m.tileContent, c) + EntityKeys(m.entityContent, c)
    ensures o.Fail? <==> Throws(c, r, m.itemContent.items.Keys, host)
  {
    if GroupOf(c) == Tiles {
      AutoloadTileGroup(m, r, c, reg);
      QuietGroups(c, r, m.itemContent.items.Keys, host);
      o := Pass;
    } else {
      o := AutoloadEntityGroup(m, r, c, reg, host);
    }
    GrowsInOneGroup(old(Snapshot(m)), Snapshot(m));
  }

  method AutoloadLastGroups(m: Mod, r: ClassRecord, c: Category, reg: Registry) returns (o: Outcome)
    requires reg.ids.Valid()
    requires GroupOf(c) == Players || GroupOf(c) == Worlds || GroupOf(c) == Infos
    modifies m`playerContent, m`worldContent, reg.ids
    modifies reg`playerHooks, reg`buffs, reg`globalBuffs, reg`mountDatas
    modifies reg`worldHooks, reg`ugBgStyles, reg`surfaceBgStyles, reg`globalBgStyles
    modifies reg`waterStyles, reg`waterfallStyles, reg`recipeHooks
    modifies reg`itemInfoIndexes, reg`itemInfoList, reg`projectileInfoIndexes, reg`projectileInfoList
    modifies reg`npcInfoIndexes, reg`npcInfoList
    ensures reg.ids.Valid() && old(reg.ids.issued) <= reg.ids.issued
    ensures Grows(old(Snapshot(m)), Snapshot(m))
    ensures o.Pass? && r.hooks.load && Keyed(c) ==>
      LoadedName(r) in PlayerKeys(m.playerContent, c) + WorldKeys(m.worldContent, c)
    ensures o.Fail? <==> c == PlayerClass && r.hooks.load && LegacyHook(r.legacyHooks, PlayerProbes).Some?
  {
    o := Pass;
    if GroupOf(c) == Players {
      o := AutoloadPlayerGroup(m, r, c, reg);
    } else if GroupOf(c) == Worlds {
      AutoloadWorldGroup(m, r, c, reg);
    } else if c == ItemInfoClass {
      AutoloadItemInfo(m, r, reg);
    } else if c == ProjectileInfoClass {
      AutoloadProjectileInfo(m, r, reg);
    } else {
      AutoloadNPCInfo(m, r, reg);
    }
    GrowsInOneGroup(old(Snapshot(m)), Snapshot(m));
  }

  method AutoloadItemGroup(m: Mod, r: ClassRecord, c: Category, reg: Registry, host: Host) returns (o: Outcome)
    requires reg.ids.Valid() && ItemCategory(c)
    modifies m`itemContent, reg.ids, reg`items, reg`questFish, reg`idToSlot, reg`globalItems, reg`dusts
    modifies reg`equipTextures, reg`armTextures, reg`femaleTextures, reg`slotToId
    ensures reg.ids.Valid() && old(reg.ids.issued) <= reg.ids.issued
    ensures ItemsGrow(old(m.itemContent), m.itemContent)
    ensures o.Pass? && r.hooks.load ==> LoadedName(r) in ItemKeys(m.itemContent, c)
    ensures o.Fail? <==> Throws(c, r, old(m.itemContent.items.Keys), host)
    ensures o.Pass? ==> m.itemContent.items.Keys == ItemNamesAfter(Some(c), r, old(m.itemContent.items.Keys))
  {
    if c == ItemClass {
      o := AutoloadItem(m, r, reg, host);
    } else if c == GlobalItemClass {
      o := AutoloadGlobalItem(m, r, reg);
    } else {
      o := AutoloadDust(m, r, reg, host);
    }
  }

  method AutoloadTileGroup(m: Mod, r: ClassRecord, c: Category, reg: Registry)
    requires reg.ids.Valid() && TileCategory(c)
    modifies m`tileContent, reg.ids, reg`tiles, reg`globalTiles, reg`tileEntities, reg`walls, reg`globalWalls
    ensures reg.ids.Valid() && old(reg.ids.issued) <= reg.ids.issued
    ensures TilesGrow(old(m.tileContent), m.tileContent)
    ensures r.hooks.load ==> LoadedName(r) in TileKeys(m.tileContent, c)
  {
    if c == TileClass {
      AutoloadTile(m, r, reg);
    } else if c == GlobalTileClass {
      AutoloadGlobalTile(m, r, reg);
    } else if c == TileEntityClass {
      AutoloadTileEntity(m, r, reg);
    } else if c == WallClass {
      AutoloadWall(m, r, reg);
    } else {
      AutoloadGlobalWall(m, r, reg);
    }
  }

  method AutoloadEntityGroup(m: Mod, r: ClassRecord, c: Category, reg: Registry, host: Host) returns (o: Outcome)
    requires reg.ids.Valid() && EntityCategory(c)
    modifies m`entityContent, reg.ids, reg`projectiles, reg`globalProjectiles, reg`npcs, reg`globalNPCs
    modifies reg`heads, reg`npcToHead, reg`headToNPC, reg`bossHeads, reg`npcToBossHead
    ensures reg.ids.Valid() && old(reg.ids.issued) <= reg.ids.issued
    ensures EntitiesGrow(old(m.entityContent), m.entityContent)
    ensures r.hooks.load ==> LoadedName(r) in EntityKeys(m.entityContent, c)
    ensures o.Fail? <==> Throws(c, r, old(m.itemContent.items.Keys), host)
  {
    o := Pass;
    if c == ProjectileClass {
      AutoloadProjectile(m, r, reg);
    } else if c == GlobalProjectileClass {
      AutoloadGlobalProjectile(m, r, reg);
    } else if c == NPCClass {
      o := AutoloadNPC(m, r, reg, host);
    } else {
      AutoloadGlobalNPC(m, r, reg);
    }
  }

  method AutoloadPlayerGroup(m: Mod, r: ClassRecord, c: Category, reg: Registry) returns (o: Outcome)
    requires reg.ids.Valid() && PlayerCategory(c)
    modifies m`playerContent, reg.ids, reg`playerHooks, reg`buffs, reg`globalBuffs, reg`mountDatas
    ensures reg.ids.Valid() && old(reg.ids.issued) <= reg.ids.issued
    ensures PlayersGrow(old(m.playerContent), m.playerContent)
    ensures o.Pass? && r.hooks.load ==> LoadedName(r) in PlayerKeys(m.playerContent, c)
    ensures o.Fail? <==> c == PlayerClass && r.hooks.load && LegacyHook(r.legacyHooks, PlayerProbes).Some?
  {
    o := Pass;
    if c == PlayerClass {
      o := AutoloadPlayer(m, r, reg);
    } else if c == BuffClass {
      AutoloadBuff(m, r, reg);
    } else if c == GlobalBuffClass {
      AutoloadGlobalBuff(m, r, reg);
    } else {
      AutoloadMountData(m, r, reg);
    }
  }

  method AutoloadWorldGroup(m: Mod, r: ClassRecord, c: Category, reg: Registry)
    requires reg.ids.Valid() && WorldCategory(c)
    modifies m`worldContent, reg.ids, reg`worldHooks, reg`ugBgStyles, reg`surfaceBgStyles, reg`globalBgStyles
    modifies reg`waterStyles, reg`waterfallStyles, reg`recipeHooks
    ensures reg.ids.Valid() && old(reg.ids.issued) <= reg.ids.issued
    ensures WorldsGrow(old(m.worldContent), m.worldContent)
    ensures r.hooks.load ==> LoadedName(r) in WorldKeys(m.worldContent, c)
  {
    if c == WorldClass {
      AutoloadModWorld(m, r, reg);
    } else if c == UgBgStyleClass {
      AutoloadUgBgStyle(m, r, reg);
    } else if c == SurfaceBgStyleClass {
      AutoloadSurfaceBgStyle(m, r, reg);
    } else if c == GlobalBgStyleClass {
      AutoloadGlobalBgStyle(m, r, reg);
    } else if c == WaterStyleClass {
      AutoloadWaterStyle(m, r, reg);
    } else if c == WaterfallStyleClass {
      AutoloadWaterfallStyle(m, r, reg);
    } else {
      AutoloadGlobalRecipe(m, r, reg);
    }
  }

  /** Every type of `rs` that Autoload registers by name has its loaded
      name in the table of its category. */
  ghost predicate Registered(t: Tables, rs: seq<ClassRecord>) {
    forall x | x in rs && Loads(x) :: LoadedName(x) in Keys(t, Classify(x).value)
  }

  lemma RegisteredGrows(a: Tables, b: Tables, rs: seq<ClassRecord>)
    requires Grows(a, b) && Registered(a, rs)
    ensures Registered(b, rs)
  {
  }

  lemma RegisteredSnoc(t: Tables, rs: seq<ClassRecord>, x: ClassRecord)
    requires Registered(t, rs)
    requires Loads(x) ==> LoadedName(x) in Keys(t, Classify(x).value)
    ensures Registered(t, rs + [x])
  {
  }

  /** Registration depends only on which types there are, not on their order. */
  lemma RegisteredSameTypes(t: Tables, rs: seq<ClassRecord>, ss: seq<ClassRecord>)
    requires multiset(rs) == multiset(ss) && Registered(t, ss)
    ensures Registered(t, rs)
  {
    forall x | x in rs
      ensures x in ss
    {
      assert x in multiset(rs);
    }
  }

  /** The types of `rs` classified as `c`, in order: the lists Autoload
      collects for the gore and sound passes. */
  function OfCategory(rs: seq<ClassRecord>, c: Category): seq<ClassRecord>
    decreases |rs|
  {
    if rs == [] then []
    else OfCategory(rs[..|rs| - 1], c) + (if Classify(rs[|rs| - 1]) == Some(c) then [rs[|rs| - 1]] else [])
  }

  lemma {:induction false} OfCategoryMembers(rs: seq<ClassRecord>, c: Category, x: ClassRecord)
    ensures x in OfCategory(rs, c) <==> x in rs && Classify(x) == Some(c)
    decreases |rs|
  {
    if rs != [] {
      var init := rs[..|rs| - 1];
      OfCategoryMembers(init, c, x);
      assert rs == init + [rs[|rs| - 1]];
    }
  }

  /** One iteration of the loop: skip an abstract or unrecognised type,
      report a gore or sound type to the caller, dispatch any other. */
  method AutoloadType(m: Mod, r: ClassRecord, reg: Registry, host: Host) returns (o: Outcome)
    requires reg.ids.Valid()
    modifies m`itemContent, m`tileContent, m`entityContent, m`playerContent, m`worldContent, reg.ids
    modifies reg`items, reg`questFish, reg`idToSlot, reg`globalItems, reg`dusts
    modifies reg`equipTextures, reg`armTextures, reg`femaleTextures, reg`slotToId
    modifies reg`itemInfoIndexes, reg`itemInfoList, reg`projectileInfoIndexes, reg`projectileInfoList
    modifies reg`npcInfoIndexes, reg`npcInfoList
    modifies reg`tiles, reg`globalTiles, reg`tileEntities, reg`walls, reg`globalWalls
    modifies reg`projectiles, reg`globalProjectiles, reg`npcs, reg`globalNPCs
    modifies reg`heads, reg`npcToHead, reg`headToNPC, reg`bossHeads, reg`npcToBossHead
    modifies reg`playerHooks, reg`buffs, reg`globalBuffs, reg`mountDatas
    modifies reg`worldHooks, reg`ugBgStyles, reg`surfaceBgStyles, reg`globalBgStyles
    modifies reg`waterStyles, reg`waterfallStyles, reg`recipeHooks
    ensures reg.ids.Valid() && old(reg.ids.issued) <= reg.ids.issued
    ensures Grows(old(Snapshot(m)), Snapshot(m))
    ensures o.Pass? && Loads(r) ==> LoadedName(r) in Keys(Snapshot(m), Classify(r).value)
    ensures o.Fail? <==> Classify(r).Some? && Throws(Classify(r).value, r, old(m.itemContent.items.Keys), host)
    ensures o.Pass? ==> m.itemContent.items.Keys == ItemNamesAfter(Classify(r), r, old(m.itemContent.items.Keys))
  {
    var c := Classify(r);
    if c.None? || GroupOf(c.value) == Unkeyed {
      GrowsReflexive(Snapshot(m));
      if c.Some? {
        QuietGroups(c.value, r, m.itemContent.items.Keys, host);
      }
      return Pass;
    }
    o := AutoloadCategory(m, r, c.value, reg, host);
  }

  /** The dispatch of a type of a keyed category to the helpers of its group. */
  method AutoloadCategory(m: Mod, r: ClassRecord, c: Category, reg: Registry, host: Host) returns (o: Outcome)
    requires reg.ids.Valid() && GroupOf(c) != Unkeyed
    modifies m`itemContent, m`tileContent, m`entityContent, m`playerContent, m`worldContent, reg.ids
    modifies reg`items, reg`questFish, reg`idToSlot, reg`globalItems, reg`dusts
    modifies reg`equipTextures, reg`armTextures, reg`femaleTextures, reg`slotToId
    modifies reg`itemInfoIndexes, reg`itemInfoList, reg`projectileInfoIndexes, reg`projectileInfoList
    modifies reg`npcInfoIndexes, reg`npcInfoList
    modifies reg`tiles, reg`globalTiles, reg`tileEntities, reg`walls, reg`globalWalls
    modifies reg`projectiles, reg`globalProjectiles, reg`npcs, reg`globalNPCs
    modifies reg`heads, reg`npcToHead, reg`headToNPC, reg`bossHeads, reg`npcToBossHead
    modifies reg`playerHooks, reg`buffs, reg`globalBuffs, reg`mountDatas
    modifies reg`worldHooks, reg`ugBgStyles, reg`surfaceBgStyles, reg`globalBgStyles
    modifies reg`waterStyles, reg`waterfallStyles, reg`recipeHooks
    ensures reg.ids.Valid() && old(reg.ids.issued) <= reg.ids.issued
    ensures Grows(old(Snapshot(m)), Snapshot(m))
    ensures o.Pass? && Keyed(c) && r.hooks.load ==> LoadedName(r) in Keys(Snapshot(m), c)
    ensures o.Fail? <==> Throws(c, r, old(m.itemContent.items.Keys), host)
    ensures o.Pass? ==> m.itemContent.items.Keys == ItemNamesAfter(Some(c), r, old(m.itemContent.items.Keys))
  {
    var g := GroupOf(c);
    if g == Items || g == Tiles || g == Entities {
      o := AutoloadFirstGroups(m, r, c, reg, host);
    } else {
      LastGroupsThrow(c, r, m.itemContent.items.Keys, host);
      o := AutoloadLastGroups(m, r, c, reg);
    }
  }

  /** A name taken makes AutoloadItem throw whatever other names are taken
      too: a type that throws keeps throwing as the item table grows. */
  lemma ThrowsGrows(c: Category, r: ClassRecord, a: set<string>, b: set<string>, host: Host)
    requires a <= b && Throws(c, r, a, host)
    ensures Throws(c, r, b, host)
  {
  }

  /** The item names registered when the loop reaches types[k], none of
      types[..k] having thrown: `init`, plus the loaded name of each item
      type before k that Autoload accepted. */
  ghost function NamesBefore(init: set<string>, types: seq<ClassRecord>, k: nat): (names: set<string>)
    requires k <= |types|
    ensures init <= names
    decreases k
  {
    if k == 0 then init
    else ItemNamesAfter(Classify(types[k - 1]), types[k - 1], NamesBefore(init, types, k - 1))
  }

  /** The item types of `rs` whose Autoload answers true. */
  ghost function LoadedItemNames(rs: seq<ClassRecord>): set<string> {
    set x | x in rs && Classify(x) == Some(ItemClass) && x.hooks.load :: LoadedName(x)
  }

  /** NamesBefore as a set: the names that were there, and one per
      accepted item type before k. */
  lemma {:induction false} NamesBeforeAccepted(init: set<string>, types: seq<ClassRecord>, k: nat)
    requires k <= |types|
    ensures NamesBefore(init, types, k) == init + LoadedItemNames(types[..k])
  {
    if k > 0 {
      NamesBeforeAccepted(init, types, k - 1);
      var x := types[k - 1];
      assert types[..k] == types[..k - 1] + [x];
      assert LoadedItemNames(types[..k]) ==
        LoadedItemNames(types[..k - 1]) + (if Classify(x) == Some(ItemClass) && x.hooks.load then {LoadedName(x)} else {});
    } else {
      assert types[..k] == [];
    }
  }

  /** types[k] throws when the loop reaches it: its helper throws against
      the item names registered by then. */
  ghost predicate ThrowsAt(init: set<string>, types: seq<ClassRecord>, k: nat, host: Host)
    requires k < |types|
  {
    Classify(types[k]).Some? && Throws(Classify(types[k]).value, types[k], NamesBefore(init, types, k), host)
  }

  /** None of types[..k] throws when the loop reaches it. */
  ghost predicate NoneThrowBefore(init: set<string>, types: seq<ClassRecord>, k: nat, host: Host)
    requires k <= |types|
  {
    forall j | 0 <= j < k :: !ThrowsAt(init, types, j, host)
  }

  /** Where the class loop stands before types[i], starting from the item
      names `init`: types[..i] are registered, none of them threw, the
      item table holds NamesBefore(init, types, i), and the gore and sound
      types among them have been collected in order. */
  ghost predicate Progress(t: Tables, init: set<string>, types: seq<ClassRecord>, i: nat,
                           gores: seq<ClassRecord>, sounds: seq<ClassRecord>, host: Host)
    requires i <= |types|
  {
    && Registered(t, types[..i])
    && NoneThrowBefore(init, types, i, host)
    && t.items.items.Keys == NamesBefore(init, types, i)
    && gores == OfCategory(types[..i], GoreClass) && sounds == OfCategory(types[..i], SoundClass)
  }

  /** A type that throws when its turn comes ends the loop short of its end. */
  lemma ThrowsBeforeEnd(init: set<string>, types: seq<ClassRecord>, i: nat, host: Host)
    requires i < |types| && ThrowsAt(init, types, i, host)
    ensures !NoneThrowBefore(init, types, |types|, host)
  {
  }

  /** One pass of the class loop over types[i]: the helper throws exactly
      when ThrowsAt says so; otherwise the loop has progressed to i + 1,
      with types[i] added to the gores or sounds when it is one. */
  method AutoloadNext(m: Mod, types: seq<ClassRecord>, i: nat, ghost init: set<string>,
                      gores: seq<ClassRecord>, sounds: seq<ClassRecord>, reg: Registry, host: Host)
    returns (o: Outcome, gores': seq<ClassRecord>, sounds': seq<ClassRecord>)
    requires reg.ids.Valid() && i < |types|
    requires Progress(Snapshot(m), init, types, i, gores, sounds, host)
    modifies m`itemContent, m`tileContent, m`entityContent, m`playerContent, m`worldContent, reg.ids
    modifies reg`items, reg`questFish, reg`idToSlot, reg`globalItems, reg`dusts
    modifies reg`equipTextures, reg`armTextures, reg`femaleTextures, reg`slotToId
    modifies reg`itemInfoIndexes, reg`itemInfoList, reg`projectileInfoIndexes, reg`projectileInfoList
    modifies reg`npcInfoIndexes, reg`npcInfoList
    modifies reg`tiles, reg`globalTiles, reg`tileEntities, reg`walls, reg`globalWalls
    modifies reg`projectiles, reg`globalProjectiles, reg`npcs, reg`globalNPCs
    modifies reg`heads, reg`npcToHead, reg`headToNPC, reg`bossHeads, reg`npcToBossHead
    modifies reg`playerHooks, reg`buffs, reg`globalBuffs, reg`mountDatas
    modifies reg`worldHooks, reg`ugBgStyles, reg`surfaceBgStyles, reg`globalBgStyles
    modifies reg`waterStyles, reg`waterfallStyles, reg`recipeHooks
    ensures reg.ids.Valid() && old(reg.ids.issued) <= reg.ids.issued
    ensures Grows(old(Snapshot(m)), Snapshot(m))
    ensures o.Fail? <==> ThrowsAt(init, types, i, host)
    ensures o.Pass? ==> Progress(Snapshot(m), init, types, i + 1, gores', sounds', host)
  {
    var r := types[i];
    o := AutoloadType(m, r, reg, host);
    gores', sounds' := gores, sounds;
    if o.Fail? {
      return;
    }
    if Classify(r) == Some(GoreClass) {
      gores' := gores + [r];
    } else if Classify(r) == Some(SoundClass) {
      sounds' := sounds + [r];
    }
    assert types[..i + 1] == types[..i] + [r];
    assert types[..i + 1][..i] == types[..i];
    RegisteredGrows(old(Snapshot(m)), Snapshot(m), types[..i]);
    RegisteredSnoc(Snapshot(m), types[..i], r);
  }

  /** The loop over the assembly's types, in the given order: dispatch
      each concrete, recognised type; collect gore and sound types for the
      convention passes; an exception from a helper ends the loop. */
  method AutoloadClasses(m: Mod, types: seq<ClassRecord>, reg: Registry, host: Host)
    returns (o: Outcome, gores: seq<ClassRecord>, sounds: seq<ClassRecord>)
    requires reg.ids.Valid()
    modifies m`itemContent, m`tileContent, m`entityContent, m`playerContent, m`worldContent, reg.ids
    modifies reg`items, reg`questFish, reg`idToSlot, reg`globalItems, reg`dusts
    modifies reg`equipTextures, reg`armTextures, reg`femaleTextures, reg`slotToId
    modifies reg`itemInfoIndexes, reg`itemInfoList, reg`projectileInfoIndexes, reg`projectileInfoList
    modifies reg`npcInfoIndexes, reg`npcInfoList
    modifies reg`tiles, reg`globalTiles, reg`tileEntities, reg`walls, reg`globalWalls
    modifies reg`projectiles, reg`globalProjectiles, reg`npcs, reg`globalNPCs
    modifies reg`heads, reg`npcToHead, reg`headToNPC, reg`bossHeads, reg`npcToBossHead
    modifies reg`playerHooks, reg`buffs, reg`globalBuffs, reg`mountDatas
    modifies reg`worldHooks, reg`ugBgStyles, reg`surfaceBgStyles, reg`globalBgStyles
    modifies reg`waterStyles, reg`waterfallStyles, reg`recipeHooks
    ensures reg.ids.Valid() && old(reg.ids.issued) <= reg.ids.issued
    ensures Grows(old(Snapshot(m)), Snapshot(m))
    ensures o.Pass? <==> NoneThrowBefore(old(m.itemContent.items.Keys), types, |types|, host)
    ensures o.Fail? ==> exists k | 0 <= k < |types| ::
      ThrowsAt(old(m.itemContent.items.Keys), types, k, host) && NoneThrowBefore(old(m.itemContent.items.Keys), types, k, host)
    ensures o.Pass? ==> Progress(Snapshot(m), old(m.itemContent.items.Keys), types, |types|, gores, sounds, host)
  {
    o, gores, sounds := Pass, [], [];
    GrowsReflexive(Snapshot(m));
    ghost var init := m.itemContent.items.Keys;
    var i := 0;
    while i < |types|
      invariant 0 <= i <= |types| && o == Pass
      invariant reg.ids.Valid() && old(reg.ids.issued) <= reg.ids.issued
      invariant Grows(old(Snapshot(m)), Snapshot(m))
      invariant Progress(Snapshot(m), init, types, i, gores, sounds, host)
    {
      ghost var before := Snapshot(m);
      o, gores, sounds := AutoloadNext(m, types, i, init, gores, sounds, reg, host);
      GrowsTransitive(old(Snapshot(m)), before, Snapshot(m));
      if o.Fail? {
        ThrowsBeforeEnd(init, types, i, host);
        assert NoneThrowBefore(init, types, i, host);
        return;
      }
      i := i + 1;
    }
  }
}
