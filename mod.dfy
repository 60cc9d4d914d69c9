/** A mod: its name-keyed tables of registered content and the registration
    entry points that fill them. Each Add* reserves an ID from the loader's
    pool for its category, stamps name, ID, texture and owner onto the
    descriptor, stores it in the mod's own table and appends it to the
    loader's global list. Only AddItem refuses a name already taken; the
    others overwrite the mod's entry and still append. Look-ups return the
    stored descriptor, or a sentinel: 0 for the *Type look-ups, -1 for the
    tile-entity type and for equip, surface-background and waterfall slots. */
module Mods {
  import opened Common
  import opened Content
  import opened Loaders
  import Paths
  import Assets
  import MusicBoxes

  /** The first retired hook signature a class still declares, in the
      order the registry probes for them. */
  function LegacyHook(declared: set<string>, probes: seq<(string, string)>): (r: Option<string>)
    ensures r.Some? <==> exists i :: 0 <= i < |probes| && probes[i].0 in declared
    ensures r.Some? ==> exists i :: (0 <= i < |probes| && probes[i].0 in declared && r.value == probes[i].1
                                     && forall j :: 0 <= j < i ==> probes[j].0 !in declared)
  {
    if probes == [] then None
    else if probes[0].0 in declared then Some(probes[0].1)
    else
      var r := LegacyHook(declared, probes[1..]);
      assert forall i :: 1 <= i < |probes| ==> probes[1..][i - 1] == probes[i];
      if r.Some? then
        ghost var i :| 0 <= i < |probes[1..]| && probes[1..][i].0 in declared && r.value == probes[1..][i].1
                       && forall j :: 0 <= j < i ==> probes[1..][j].0 !in declared;
        assert probes[i + 1].0 in declared && forall j :: 0 <= j < i + 1 ==> probes[j].0 !in declared;
        r
      else r
  }

  const ItemProbes: seq<(string, string)> :=
    [("PreDrawInWorld", "ModItem.PreDrawInWorld"), ("PostDrawInWorld", "ModItem.PostDrawInWorld")]
  const GlobalItemProbes: seq<(string, string)> :=
    [("PreDrawInWorld", "GlobalItem.PreDrawInWorld"), ("PostDrawInWorld", "GlobalItem.PostDrawInWorld")]
  const PlayerProbes: seq<(string, string)> := [("CatchFish", "ModPlayer.CatchFish")]

  /** Equip types whose slot is linked back to the owning item. */
  predicate LinksItem(e: EquipType) {
    e == Head || e == Body || e == Legs
  }

  // The mod's own content tables, keyed by the names content was
  // registered under, in five groups.

  /** Items, their global hooks, equip textures, dusts and the recipe list. */
  datatype ItemContent = ItemContent(
    recipes: seq<ModRecipe>,
    items: map<string, ModItem>,
    globalItems: map<string, GlobalItem>,
    equipTextures: map<string, EquipTexture>,
    dusts: map<string, ModDust>)

  const NoItemContent: ItemContent := ItemContent([], map[], map[], map[], map[])

  /** Tiles, tile entities, walls and their global hooks. */
  datatype TileContent = TileContent(
    tiles: map<string, ModTile>,
    globalTiles: map<string, GlobalTile>,
    tileEntities: map<string, ModTileEntity>,
    walls: map<string, ModWall>,
    globalWalls: map<string, GlobalWall>)

  const NoTileContent: TileContent := TileContent(map[], map[], map[], map[], map[])

  /** Projectiles, NPCs and their global hooks. */
  datatype EntityContent = EntityContent(
    projectiles: map<string, ModProjectile>,
    globalProjectiles: map<string, GlobalProjectile>,
    npcs: map<string, ModNPC>,
    globalNPCs: map<string, GlobalNPC>)

  const NoEntityContent: EntityContent := EntityContent(map[], map[], map[], map[])

  /** Players, mounts, buffs and the global buff hooks. */
  datatype PlayerContent = PlayerContent(
    players: map<string, ModPlayer>,
    mountDatas: map<string, ModMountData>,
    buffs: map<string, ModBuff>,
    globalBuffs: map<string, GlobalBuff>)

  const NoPlayerContent: PlayerContent := PlayerContent(map[], map[], map[], map[])

  /** Worlds, background, water and waterfall styles, and the global recipe hooks. */
  datatype WorldContent = WorldContent(
    worlds: map<string, ModWorld>,
    ugBgStyles: map<string, ModUgBgStyle>,
    surfaceBgStyles: map<string, ModSurfaceBgStyle>,
    globalBgStyles: map<string, GlobalBgStyle>,
    waterStyles: map<string, ModWaterStyle>,
    waterfallStyles: map<string, ModWaterfallStyle>,
    globalRecipes: map<string, GlobalRecipe>)

  const NoWorldContent: WorldContent := WorldContent(map[], map[], map[], map[], map[], map[], map[])

  class Mod {
    const modName: string
    const version: string
    const assets: Assets.AssetCache
    var itemContent: ItemContent
    var tileContent: TileContent
    var entityContent: EntityContent
    var playerContent: PlayerContent
    var worldContent: WorldContent

    constructor (modName: string, version: string)
      ensures this.modName == modName && this.version == version && fresh(assets)
      ensures assets.Contents() == Assets.Caches(map[], map[], map[])
      ensures itemContent == NoItemContent && tileContent == NoTileContent
      ensures entityContent == NoEntityContent && playerContent == NoPlayerContent
      ensures worldContent == NoWorldContent
    {
      this.modName, this.version := modName, version;
      assets := new Assets.AssetCache();
      itemContent, tileContent, entityContent := NoItemContent, NoTileContent, NoEntityContent;
      playerContent, worldContent := NoPlayerContent, NoWorldContent;
    }

    // -------------------------------------------------------------------
    // Items

    /** AddItem: probe for retired hooks, reserve an ID and stamp name and
        type onto the item, then refuse a name already registered (the ID
        stays reserved and the item stays stamped), else store it. */
    method AddItem(name: string, item: ModItem, texture: string, reg: Registry) returns (o: Outcome)
      requires reg.ids.Valid()
      modifies this`itemContent, item`name, item`id, item`texture, item`owner
      modifies reg.ids, reg`items, reg`questFish
      ensures reg.ids.Valid()
      ensures LegacyHook(item.legacyHooks, ItemProbes).Some? ==>
        && o == Fail(OldHook(LegacyHook(item.legacyHooks, ItemProbes).value))
        && itemContent == old(itemContent) && reg.ids.issued == old(reg.ids.issued) && unchanged(item)
        && reg.items == old(reg.items) && reg.questFish == old(reg.questFish)
      ensures LegacyHook(item.legacyHooks, ItemProbes).None? ==>
        && (ItemIds, item.id) !in old(reg.ids.issued) && reg.ids.issued == old(reg.ids.issued) + {(ItemIds, item.id)}
        && item.name == name
        && (o.Fail? <==> name in old(itemContent.items))
      ensures o == Fail(DuplicateName(name)) ==>
        && itemContent == old(itemContent) && reg.items == old(reg.items) && reg.questFish == old(reg.questFish)
        && item.texture == old(item.texture) && item.owner == old(item.owner)
      ensures o.Pass? ==>
        && itemContent == old(itemContent).(items := old(itemContent.items)[name := item])
        && reg.items == old(reg.items) + [item]
        && reg.questFish == old(reg.questFish) + (if item.questFish then [item.id] else [])
        && item.texture == texture && item.owner == modName
        && GetItem(name) == Some(item) && ItemType(name) == item.id
      ensures o.Fail? ==> (o.error.OldHook? || o == Fail(DuplicateName(name))) && itemContent == old(itemContent)
    {
      var hook := LegacyHook(item.legacyHooks, ItemProbes);
      if hook.Some? {
        return Fail(OldHook(hook.value));
      }
      var id := reg.ids.Reserve(ItemIds);
      item.name := name;
      item.id := id;
      if name in itemContent.items {
        return Fail(DuplicateName(name));
      }
      itemContent := itemContent.(items := itemContent.items[name := item]);
      reg.items := reg.items + [item];
      item.texture := texture;
      item.owner := modName;
      if item.questFish {
        reg.questFish := reg.questFish + [id];
      }
      o := Pass;
    }

    function GetItem(name: string): (r: Option<ModItem>)
      reads this`itemContent
      ensures r.Some? <==> name in itemContent.items
      ensures r.Some? ==> r.value == itemContent.items[name]
    {
      if name in itemContent.items then Some(itemContent.items[name]) else None
    }

    /** ItemType: the type stamped at registration, 0 for an unknown name. */
    function ItemType(name: string): (r: int)
      reads this`itemContent, itemContent.items.Values
      ensures name !in itemContent.items ==> r == 0
      ensures name in itemContent.items ==> r == itemContent.items[name].id
    {
      match GetItem(name)
      case None => 0
      case Some(item) => item.id
    }

    method AddGlobalItem(name: string, globalItem: GlobalItem, reg: Registry) returns (o: Outcome)
      modifies this`itemContent, globalItem`name, globalItem`owner, reg`globalItems
      ensures LegacyHook(globalItem.legacyHooks, GlobalItemProbes).Some? ==>
        && o == Fail(OldHook(LegacyHook(globalItem.legacyHooks, GlobalItemProbes).value))
        && itemContent == old(itemContent) && reg.globalItems == old(reg.globalItems) && unchanged(globalItem)
      ensures LegacyHook(globalItem.legacyHooks, GlobalItemProbes).None? ==>
        && o == Pass && globalItem.name == name && globalItem.owner == modName
        && itemContent == old(itemContent).(globalItems := old(itemContent.globalItems)[name := globalItem])
        && reg.globalItems == old(reg.globalItems) + [globalItem]
    {
      var hook := LegacyHook(globalItem.legacyHooks, GlobalItemProbes);
      if hook.Some? {
        return Fail(OldHook(hook.value));
      }
      globalItem.owner := modName;
      globalItem.name := name;
      itemContent := itemContent.(globalItems := itemContent.globalItems[name := globalItem]);
      reg.globalItems := reg.globalItems + [globalItem];
      o := Pass;
    }

    function GetGlobalItem(name: string): (r: Option<GlobalItem>)
      reads this`itemContent
      ensures r.Some? <==> name in itemContent.globalItems
      ensures r.Some? ==> r.value == itemContent.globalItems[name]
    {
      if name in itemContent.globalItems then Some(itemContent.globalItems[name]) else None
    }

    /** AddItemInfo: the info's index in the loader's list, keyed "Mod:name". */
    method AddItemInfo(name: string, info: ItemInfo, reg: Registry)
      modifies info`name, info`owner, reg`itemInfoIndexes, reg`itemInfoList
      ensures info.name == name && info.owner == modName
      ensures reg.itemInfoList == old(reg.itemInfoList) + [info]
      ensures reg.itemInfoIndexes == old(reg.itemInfoIndexes)[modName + ":" + name := |old(reg.itemInfoList)|]
      ensures reg.itemInfoList[reg.itemInfoIndexes[modName + ":" + name]] == info
    {
      info.owner := modName;
      info.name := name;
      reg.itemInfoIndexes := reg.itemInfoIndexes[modName + ":" + name := |reg.itemInfoList|];
      reg.itemInfoList := reg.itemInfoList + [info];
    }

    // -------------------------------------------------------------------
    // Equip textures

    /** The part of AddEquipTexture before any texture is resolved: reserve
        the slot, stamp the equip texture and store it under (type, slot) and
        under its name. */
    method StoreEquipTexture(equipTexture: EquipTexture, item: ModItem?, equip: EquipType, name: string,
                             texture: string, reg: Registry) returns (slot: int)
      requires reg.ids.Valid()
      modifies this`itemContent, equipTexture, reg.ids, reg`equipTextures
      ensures reg.ids.Valid()
      ensures (EquipSlots(equip), slot) !in old(reg.ids.issued) && reg.ids.issued == old(reg.ids.issued) + {(EquipSlots(equip), slot)}
      ensures equipTexture.texture == texture && equipTexture.owner == modName && equipTexture.name == name
      ensures equipTexture.equipType == equip && equipTexture.item == item && equipTexture.slot == slot
      ensures reg.equipTextures == old(reg.equipTextures)[(equip, slot) := equipTexture]
      ensures itemContent == old(itemContent).(equipTextures := old(itemContent.equipTextures)[name := equipTexture])
    {
      slot := reg.ids.Reserve(EquipSlots(equip));
      equipTexture.texture := texture;
      equipTexture.owner := modName;
      equipTexture.name := name;
      equipTexture.equipType := equip;
      equipTexture.slot := slot;
      equipTexture.item := item;
      reg.equipTextures := reg.equipTextures[(equip, slot) := equipTexture];
      itemContent := itemContent.(equipTextures := itemContent.equipTextures[name := equipTexture]);
    }

    /** AddEquipTexture: reserve a slot in the equip type's pool, stamp and
        store the equip texture, then resolve its textures (for a body also
        the arm and female textures, recorded first; an empty female texture
        falls back to the main one) and link head, body and leg slots back
        to the item. A texture that does not resolve aborts after the
        writes before it. */
    method AddEquipTexture(equipTexture: EquipTexture, item: ModItem?, equip: EquipType, name: string,
                           texture: string, armTexture: string, femaleTexture: string,
                           reg: Registry, host: Host) returns (r: Result<int>)
      requires reg.ids.Valid()
      modifies this`itemContent, equipTexture
      modifies reg.ids, reg`equipTextures, reg`armTextures, reg`femaleTextures, reg`slotToId
      ensures reg.ids.Valid()
      ensures var slot := equipTexture.slot;
        && (EquipSlots(equip), slot) !in old(reg.ids.issued) && reg.ids.issued == old(reg.ids.issued) + {(EquipSlots(equip), slot)}
        && equipTexture.texture == texture && equipTexture.owner == modName && equipTexture.name == name
        && equipTexture.equipType == equip && equipTexture.item == item
        && reg.equipTextures == old(reg.equipTextures)[(equip, slot) := equipTexture]
        && itemContent == old(itemContent).(equipTextures := old(itemContent.equipTextures)[name := equipTexture])
      ensures texture !in host.textures ==> r == Err(MissingResource(texture))
      ensures texture in host.textures && equip == Body ==>
        && reg.armTextures == old(reg.armTextures)[equipTexture.slot := armTexture]
        && reg.femaleTextures == old(reg.femaleTextures)[equipTexture.slot :=
             if |femaleTexture| > 0 then femaleTexture else texture]
      ensures equip != Body || texture !in host.textures ==>
        reg.armTextures == old(reg.armTextures) && reg.femaleTextures == old(reg.femaleTextures)
      ensures texture in host.textures && equip == Body && armTexture !in host.textures ==>
        r == Err(MissingResource(armTexture))
      ensures (texture in host.textures && equip == Body && armTexture in host.textures
               && femaleTexture !in host.textures) ==> r == Err(MissingResource(femaleTexture))
      ensures r.Ok? <==> texture in host.textures
                         && (equip == Body ==> armTexture in host.textures && femaleTexture in host.textures)
      ensures r.Ok? ==> r.value == equipTexture.slot
      ensures reg.slotToId == if r.Ok? && item != null && LinksItem(equip)
                              then old(reg.slotToId)[(equip, equipTexture.slot) := item.id]
                              else old(reg.slotToId)
    {
      var slot := StoreEquipTexture(equipTexture, item, equip, name, texture, reg);
      if texture !in host.textures {
        return Err(MissingResource(texture));
      }
      if equip == Body {
        reg.armTextures := reg.armTextures[slot := armTexture];
        reg.femaleTextures := reg.femaleTextures[slot := if |femaleTexture| > 0 then femaleTexture else texture];
        if armTexture !in host.textures {
          return Err(MissingResource(armTexture));
        }
        if femaleTexture !in host.textures {
          return Err(MissingResource(femaleTexture));
        }
      }
      if item != null && LinksItem(equip) {
        reg.slotToId := reg.slotToId[(equip, slot) := item.id];
      }
      r := Ok(slot);
    }

    function GetEquipTexture(name: string): (r: Option<EquipTexture>)
      reads this`itemContent
      ensures r.Some? <==> name in itemContent.equipTextures
      ensures r.Some? ==> r.value == itemContent.equipTextures[name]
    {
      if name in itemContent.equipTextures then Some(itemContent.equipTextures[name]) else None
    }

    /** GetEquipSlot: the slot of the equip texture last registered under
        the name, -1 for an unknown name. */
    function GetEquipSlot(name: string): (r: int)
      reads this`itemContent, itemContent.equipTextures.Values
      ensures name !in itemContent.equipTextures ==> r == -1
      ensures name in itemContent.equipTextures ==> r == itemContent.equipTextures[name].slot
    {
      match GetEquipTexture(name)
      case None => -1
      case Some(e) => e.slot
    }

    /** AddFlameTexture: the flame texture must resolve before it is set. */
    method AddFlameTexture(item: ModItem, texture: string, host: Host) returns (o: Outcome)
      modifies item`flameTexture
      ensures o.Pass? <==> texture in host.textures
      ensures o.Fail? ==> o == Fail(MissingResource(texture)) && item.flameTexture == old(item.flameTexture)
      ensures o.Pass? ==> item.flameTexture == texture
    {
      if texture !in host.textures {
        return Fail(MissingResource(texture));
      }
      item.flameTexture := texture;
      o := Pass;
    }

    // -------------------------------------------------------------------
    // Dusts

    /** AddDust: the dust enters the loader's list as soon as its ID is
        reserved; an empty texture selects the vanilla dust sheet, any other
        must resolve or the dust never reaches the mod's table. */
    method AddDust(name: string, dust: ModDust, texture: string, reg: Registry, host: Host) returns (o: Outcome)
      requires reg.ids.Valid()
      modifies this`itemContent, dust, reg.ids, reg`dusts
      ensures reg.ids.Valid()
      ensures (DustIds, dust.id) !in old(reg.ids.issued) && reg.ids.issued == old(reg.ids.issued) + {(DustIds, dust.id)}
      ensures reg.dusts == old(reg.dusts) + [dust] && dust.name == name
      ensures o.Fail? <==> |texture| > 0 && texture !in host.textures
      ensures o.Fail? ==> o == Fail(MissingResource(texture)) && itemContent == old(itemContent)
      ensures o.Pass? ==>
        && dust.texture == (if |texture| > 0 then ModTexture(texture) else VanillaDustSheet)
        && dust.owner == modName && itemContent == old(itemContent).(dusts := old(itemContent.dusts)[name := dust])
        && DustType(name) == dust.id
    {
      var id := reg.ids.Reserve(DustIds);
      reg.dusts := reg.dusts + [dust];
      dust.id := id;
      dust.name := name;
      if |texture| > 0 {
        if texture !in host.textures {
          return Fail(MissingResource(texture));
        }
        dust.texture := ModTexture(texture);
      } else {
        dust.texture := VanillaDustSheet;
      }
      dust.owner := modName;
      itemContent := itemContent.(dusts := itemContent.dusts[name := dust]);
      o := Pass;
    }

    function GetDust(name: string): (r: Option<ModDust>)
      reads this`itemContent
      ensures r.Some? <==> name in itemContent.dusts
      ensures r.Some? ==> r.value == itemContent.dusts[name]
    {
      if name in itemContent.dusts then Some(itemContent.dusts[name]) else None
    }

    function DustType(name: string): (r: int)
      reads this`itemContent, itemContent.dusts.Values
      ensures name !in itemContent.dusts ==> r == 0
      ensures name in itemContent.dusts ==> r == itemContent.dusts[name].id
    {
      match GetDust(name)
      case None => 0
      case Some(d) => d.id
    }

    // -------------------------------------------------------------------
    // Tiles and tile entities

    /** AddTile: no duplicate check; the type is stored as an unsigned
        16-bit value. */
    method AddTile(name: string, tile: ModTile, texture: string, reg: Registry)
      requires reg.ids.Valid()
      modifies this`tileContent, tile, reg.ids, reg`tiles
      ensures reg.ids.Valid()
      ensures exists id :: (TileIds, id) !in old(reg.ids.issued) && reg.ids.issued == old(reg.ids.issued) + {(TileIds, id)}
                           && tile.id == id % 0x1_0000
      ensures tile.name == name && tile.texture == texture && tile.owner == modName
      ensures tileContent == old(tileContent).(tiles := old(tileContent.tiles)[name := tile]) && reg.tiles == old(reg.tiles) + [tile]
      ensures TileType(name) == tile.id
    {
      var id := reg.ids.Reserve(TileIds);
      tile.name := name;
      tile.id := id % 0x1_0000;
      tileContent := tileContent.(tiles := tileContent.tiles[name := tile]);
      reg.tiles := reg.tiles + [tile];
      tile.texture := texture;
      tile.owner := modName;
    }

    function GetTile(name: string): (r: Option<ModTile>)
      reads this`tileContent
      ensures r.Some? <==> name in tileContent.tiles
      ensures r.Some? ==> r.value == tileContent.tiles[name]
    {
      if name in tileContent.tiles then Some(tileContent.tiles[name]) else None
    }

    function TileType(name: string): (r: int)
      reads this`tileContent, tileContent.tiles.Values
      ensures 0 <= r < 0x1_0000
      ensures name !in tileContent.tiles ==> r == 0
      ensures name in tileContent.tiles ==> r == tileContent.tiles[name].id
    {
      match GetTile(name)
      case None => 0
      case Some(t) => t.id
    }

    method AddGlobalTile(name: string, globalTile: GlobalTile, reg: Registry)
      modifies this`tileContent, globalTile, reg`globalTiles
      ensures globalTile.name == name && globalTile.owner == modName
      ensures tileContent == old(tileContent).(globalTiles := old(tileContent.globalTiles)[name := globalTile])
      ensures reg.globalTiles == old(reg.globalTiles) + [globalTile]
    {
      globalTile.owner := modName;
      globalTile.name := name;
      tileContent := tileContent.(globalTiles := tileContent.globalTiles[name := globalTile]);
      reg.globalTiles := reg.globalTiles + [globalTile];
    }

    function GetGlobalTile(name: string): (r: Option<GlobalTile>)
      reads this`tileContent
      ensures r.Some? <==> name in tileContent.globalTiles
      ensures r.Some? ==> r.value == tileContent.globalTiles[name]
    {
      if name in tileContent.globalTiles then Some(tileContent.globalTiles[name]) else None
    }

    /** AddTileEntity: Type keeps the whole ID, the saved `type` its low byte. */
    method AddTileEntity(name: string, entity: ModTileEntity, reg: Registry)
      requires reg.ids.Valid()
      modifies this`tileContent, entity, reg.ids, reg`tileEntities
      ensures reg.ids.Valid()
      ensures (TileEntityIds, entity.id) !in old(reg.ids.issued)
      ensures reg.ids.issued == old(reg.ids.issued) + {(TileEntityIds, entity.id)}
      ensures entity.idByte == entity.id % 0x100
      ensures entity.name == name && entity.owner == modName
      ensures tileContent == old(tileContent).(tileEntities := old(tileContent.tileEntities)[name := entity])
      ensures reg.tileEntities == old(reg.tileEntities) + [entity]
      ensures TileEntityType(name) == entity.id
    {
      var id := reg.ids.Reserve(TileEntityIds);
      entity.owner := modName;
      entity.name := name;
      entity.id := id;
      entity.idByte := id % 0x100;
      tileContent := tileContent.(tileEntities := tileContent.tileEntities[name := entity]);
      reg.tileEntities := reg.tileEntities + [entity];
    }

    function GetTileEntity(name: string): (r: Option<ModTileEntity>)
      reads this`tileContent
      ensures r.Some? <==> name in tileContent.tileEntities
      ensures r.Some? ==> r.value == tileContent.tileEntities[name]
    {
      if name in tileContent.tileEntities then Some(tileContent.tileEntities[name]) else None
    }

    /** TileEntityType: -1 (not 0) for an unknown name. */
    function TileEntityType(name: string): (r: int)
      reads this`tileContent, tileContent.tileEntities.Values
      ensures name !in tileContent.tileEntities ==> r == -1
      ensures name in tileContent.tileEntities ==> r == tileContent.tileEntities[name].id
    {
      match GetTileEntity(name)
      case None => -1
      case Some(e) => e.id
    }

    // -------------------------------------------------------------------
    // Walls

    method AddWall(name: string, wall: ModWall, texture: string, reg: Registry)
      requires reg.ids.Valid()
      modifies this`tileContent, wall, reg.ids, reg`walls
      ensures reg.ids.Valid()
      ensures exists id :: (WallIds, id) !in old(reg.ids.issued) && reg.ids.issued == old(reg.ids.issued) + {(WallIds, id)}
                           && wall.id == id % 0x1_0000
      ensures wall.name == name && wall.texture == texture && wall.owner == modName
      ensures tileContent == old(tileContent).(walls := old(tileContent.walls)[name := wall]) && reg.walls == old(reg.walls) + [wall]
      ensures WallType(name) == wall.id
    {
      var id := reg.ids.Reserve(WallIds);
      wall.name := name;
      wall.id := id % 0x1_0000;
      tileContent := tileContent.(walls := tileContent.walls[name := wall]);
      reg.walls := reg.walls + [wall];
      wall.texture := texture;
      wall.owner := modName;
    }

    function GetWall(name: string): (r: Option<ModWall>)
      reads this`tileContent
      ensures r.Some? <==> name in tileContent.walls
      ensures r.Some? ==> r.value == tileContent.walls[name]
    {
      if name in tileContent.walls then Some(tileContent.walls[name]) else None
    }

    function WallType(name: string): (r: int)
      reads this`tileContent, tileContent.walls.Values
      ensures 0 <= r < 0x1_0000
      ensures name !in tileContent.walls ==> r == 0
      ensures name in tileContent.walls ==> r == tileContent.walls[name].id
    {
      match GetWall(name)
      case None => 0
      case Some(w) => w.id
    }

    method AddGlobalWall(name: string, globalWall: GlobalWall, reg: Registry)
      modifies this`tileContent, globalWall, reg`globalWalls
      ensures globalWall.name == name && globalWall.owner == modName
      ensures tileContent == old(tileContent).(globalWalls := old(tileContent.globalWalls)[name := globalWall])
      ensures reg.globalWalls == old(reg.globalWalls) + [globalWall]
    {
      globalWall.owner := modName;
      globalWall.name := name;
      tileContent := tileContent.(globalWalls := tileContent.globalWalls[name := globalWall]);
      reg.globalWalls := reg.globalWalls + [globalWall];
    }

    function GetGlobalWall(name: string): (r: Option<GlobalWall>)
      reads this`tileContent
      ensures r.Some? <==> name in tileContent.globalWalls
      ensures r.Some? ==> r.value == tileContent.globalWalls[name]
    {
      if name in tileContent.globalWalls then Some(tileContent.globalWalls[name]) else None
    }

    // -------------------------------------------------------------------
    // Projectiles

    method AddProjectile(name: string, projectile: ModProjectile, texture: string, reg: Registry)
      requires reg.ids.Valid()
      modifies this`entityContent, projectile, reg.ids, reg`projectiles
      ensures reg.ids.Valid()
      ensures (ProjectileIds, projectile.id) !in old(reg.ids.issued)
      ensures reg.ids.issued == old(reg.ids.issued) + {(ProjectileIds, projectile.id)}
      ensures projectile.name == name && projectile.texture == texture && projectile.owner == modName
      ensures entityContent == old(entityContent).(projectiles := old(entityContent.projectiles)[name := projectile])
      ensures reg.projectiles == old(reg.projectiles) + [projectile]
      ensures ProjectileType(name) == projectile.id
    {
      var id := reg.ids.Reserve(ProjectileIds);
      projectile.name := name;
      projectile.id := id;
      entityContent := entityContent.(projectiles := entityContent.projectiles[name := projectile]);
      reg.projectiles := reg.projectiles + [projectile];
      projectile.texture := texture;
      projectile.owner := modName;
    }

    function GetProjectile(name: string): (r: Option<ModProjectile>)
      reads this`entityContent
      ensures r.Some? <==> name in entityContent.projectiles
      ensures r.Some? ==> r.value == entityContent.projectiles[name]
    {
      if name in entityContent.projectiles then Some(entityContent.projectiles[name]) else None
    }

    function ProjectileType(name: string): (r: int)
      reads this`entityContent, entityContent.projectiles.Values
      ensures name !in entityContent.projectiles ==> r == 0
      ensures name in entityContent.projectiles ==> r == entityContent.projectiles[name].id
    {
      match GetProjectile(name)
      case None => 0
      case Some(p) => p.id
    }

    method AddGlobalProjectile(name: string, globalProjectile: GlobalProjectile, reg: Registry)
      modifies this`entityContent, globalProjectile, reg`globalProjectiles
      ensures globalProjectile.name == name && globalProjectile.owner == modName
      ensures entityContent == old(entityContent).(globalProjectiles := old(entityContent.globalProjectiles)[name := globalProjectile])
      ensures reg.globalProjectiles == old(reg.globalProjectiles) + [globalProjectile]
    {
      globalProjectile.owner := modName;
      globalProjectile.name := name;
      entityContent := entityContent.(globalProjectiles := entityContent.globalProjectiles[name := globalProjectile]);
      reg.globalProjectiles := reg.globalProjectiles + [globalProjectile];
    }

    function GetGlobalProjectile(name: string): (r: Option<GlobalProjectile>)
      reads this`entityContent
      ensures r.Some? <==> name in entityContent.globalProjectiles
      ensures r.Some? ==> r.value == entityContent.globalProjectiles[name]
    {
      if name in entityContent.globalProjectiles then Some(entityContent.globalProjectiles[name]) else None
    }

    method AddProjectileInfo(name: string, info: ProjectileInfo, reg: Registry)
      modifies info`name, info`owner, reg`projectileInfoIndexes, reg`projectileInfoList
      ensures info.name == name && info.owner == modName
      ensures reg.projectileInfoList == old(reg.projectileInfoList) + [info]
      ensures reg.projectileInfoIndexes
           == old(reg.projectileInfoIndexes)[modName + ":" + name := |old(reg.projectileInfoList)|]
      ensures reg.projectileInfoList[reg.projectileInfoIndexes[modName + ":" + name]] == info
    {
      info.owner := modName;
      info.name := name;
      reg.projectileInfoIndexes := reg.projectileInfoIndexes[modName + ":" + name := |reg.projectileInfoList|];
      reg.projectileInfoList := reg.projectileInfoList + [info];
    }

    // -------------------------------------------------------------------
    // NPCs and their head icons

    method AddNPC(name: string, npc: ModNPC, texture: string, altTextures: Option<seq<string>>, reg: Registry)
      requires reg.ids.Valid()
      modifies this`entityContent, npc, reg.ids, reg`npcs
      ensures reg.ids.Valid()
      ensures (NPCIds, npc.id) !in old(reg.ids.issued) && reg.ids.issued == old(reg.ids.issued) + {(NPCIds, npc.id)}
      ensures npc.name == name && npc.texture == texture && npc.altTextures == altTextures
      ensures npc.owner == modName
      ensures entityContent == old(entityContent).(npcs := old(entityContent.npcs)[name := npc]) && reg.npcs == old(reg.npcs) + [npc]
      ensures NPCType(name) == npc.id
    {
      var id := reg.ids.Reserve(NPCIds);
      npc.name := name;
      npc.id := id;
      entityContent := entityContent.(npcs := entityContent.npcs[name := npc]);
      reg.npcs := reg.npcs + [npc];
      npc.texture := texture;
      npc.altTextures := altTextures;
      npc.owner := modName;
    }

    function GetNPC(name: string): (r: Option<ModNPC>)
      reads this`entityContent
      ensures r.Some? <==> name in entityContent.npcs
      ensures r.Some? ==> r.value == entityContent.npcs[name]
    {
      if name in entityContent.npcs then Some(entityContent.npcs[name]) else None
    }

    function NPCType(name: string): (r: int)
      reads this`entityContent, entityContent.npcs.Values
      ensures name !in entityContent.npcs ==> r == 0
      ensures name in entityContent.npcs ==> r == entityContent.npcs[name].id
    {
      match GetNPC(name)
      case None => 0
      case Some(n) => n.id
    }

    method AddGlobalNPC(name: string, globalNPC: GlobalNPC, reg: Registry)
      modifies this`entityContent, globalNPC, reg`globalNPCs
      ensures globalNPC.name == name && globalNPC.owner == modName
      ensures entityContent == old(entityContent).(globalNPCs := old(entityContent.globalNPCs)[name := globalNPC])
      ensures reg.globalNPCs == old(reg.globalNPCs) + [globalNPC]
    {
      globalNPC.owner := modName;
      globalNPC.name := name;
      entityContent := entityContent.(globalNPCs := entityContent.globalNPCs[name := globalNPC]);
      reg.globalNPCs := reg.globalNPCs + [globalNPC];
    }

    function GetGlobalNPC(name: string): (r: Option<GlobalNPC>)
      reads this`entityContent
      ensures r.Some? <==> name in entityContent.globalNPCs
      ensures r.Some? ==> r.value == entityContent.globalNPCs[name]
    {
      if name in entityContent.globalNPCs then Some(entityContent.globalNPCs[name]) else None
    }

    method AddNPCInfo(name: string, info: NPCInfo, reg: Registry)
      modifies info`name, info`owner, reg`npcInfoIndexes, reg`npcInfoList
      ensures info.name == name && info.owner == modName
      ensures reg.npcInfoList == old(reg.npcInfoList) + [info]
      ensures reg.npcInfoIndexes == old(reg.npcInfoIndexes)[modName + ":" + name := |old(reg.npcInfoList)|]
      ensures reg.npcInfoList[reg.npcInfoIndexes[modName + ":" + name]] == info
    {
      info.owner := modName;
      info.name := name;
      reg.npcInfoIndexes := reg.npcInfoIndexes[modName + ":" + name := |reg.npcInfoList|];
      reg.npcInfoList := reg.npcInfoList + [info];
    }

    /** AddNPCHeadTexture: reserve a head slot and record it under the
        texture; the texture must resolve (on a dedicated server: its .png
        file must exist) before the NPC and the slot are linked both ways. */
    method AddNPCHeadTexture(npcType: int, texture: string, reg: Registry, host: Host) returns (o: Outcome)
      requires reg.ids.Valid()
      modifies reg.ids, reg`heads, reg`npcToHead, reg`headToNPC
      ensures reg.ids.Valid()
      ensures texture in reg.heads && (HeadSlots, reg.heads[texture]) !in old(reg.ids.issued)
      ensures reg.ids.issued == old(reg.ids.issued) + {(HeadSlots, reg.heads[texture])}
      ensures reg.heads == old(reg.heads)[texture := reg.heads[texture]]
      ensures o.Pass? <==> if host.dedicatedServer then texture + ".png" in host.files else texture in host.textures
      ensures o.Fail? ==> (o == Fail(MissingResource(texture))
                           && reg.npcToHead == old(reg.npcToHead) && reg.headToNPC == old(reg.headToNPC))
      ensures o.Pass? ==>
        && reg.npcToHead == old(reg.npcToHead)[npcType := reg.heads[texture]]
        && reg.headToNPC == old(reg.headToNPC)[reg.heads[texture] := npcType]
    {
      var slot := reg.ids.Reserve(HeadSlots);
      reg.heads := reg.heads[texture := slot];
      if !host.dedicatedServer {
        if texture !in host.textures {
          return Fail(MissingResource(texture));
        }
      } else if texture + ".png" !in host.files {
        return Fail(MissingResource(texture));
      }
      reg.npcToHead := reg.npcToHead[npcType := slot];
      reg.headToNPC := reg.headToNPC[slot := npcType];
      o := Pass;
    }

    /** AddBossHeadTexture: reserve a boss-head slot under the texture, which
        must resolve. */
    method AddBossHeadTexture(texture: string, reg: Registry, host: Host) returns (o: Outcome)
      requires reg.ids.Valid()
      modifies reg.ids, reg`bossHeads
      ensures reg.ids.Valid()
      ensures texture in reg.bossHeads && (BossHeadSlots, reg.bossHeads[texture]) !in old(reg.ids.issued)
      ensures reg.ids.issued == old(reg.ids.issued) + {(BossHeadSlots, reg.bossHeads[texture])}
      ensures reg.bossHeads == old(reg.bossHeads)[texture := reg.bossHeads[texture]]
      ensures o == if texture in host.textures then Pass else Fail(MissingResource(texture))
    {
      var slot := reg.ids.Reserve(BossHeadSlots);
      reg.bossHeads := reg.bossHeads[texture := slot];
      if texture !in host.textures {
        return Fail(MissingResource(texture));
      }
      o := Pass;
    }

    // -------------------------------------------------------------------
    // Players, buffs, mounts, worlds

    method AddPlayer(name: string, player: ModPlayer, reg: Registry) returns (o: Outcome)
      modifies this`playerContent, player, reg`playerHooks
      ensures LegacyHook(player.legacyHooks, PlayerProbes).Some? ==>
        && o == Fail(OldHook("ModPlayer.CatchFish"))
        && playerContent == old(playerContent) && reg.playerHooks == old(reg.playerHooks) && unchanged(player)
      ensures LegacyHook(player.legacyHooks, PlayerProbes).None? ==>
        && o == Pass && player.name == name && player.owner == modName
        && playerContent == old(playerContent).(players := old(playerContent.players)[name := player]) && reg.playerHooks == old(reg.playerHooks) + [player]
    {
      var hook := LegacyHook(player.legacyHooks, PlayerProbes);
      if hook.Some? {
        return Fail(OldHook(hook.value));
      }
      player.name := name;
      playerContent := playerContent.(players := playerContent.players[name := player]);
      player.owner := modName;
      reg.playerHooks := reg.playerHooks + [player];
      o := Pass;
    }

    method AddBuff(name: string, buff: ModBuff, texture: string, reg: Registry)
      requires reg.ids.Valid()
      modifies this`playerContent, buff, reg.ids, reg`buffs
      ensures reg.ids.Valid()
      ensures (BuffIds, buff.id) !in old(reg.ids.issued) && reg.ids.issued == old(reg.ids.issued) + {(BuffIds, buff.id)}
      ensures buff.name == name && buff.texture == texture && buff.owner == modName
      ensures playerContent == old(playerContent).(buffs := old(playerContent.buffs)[name := buff]) && reg.buffs == old(reg.buffs) + [buff]
      ensures BuffType(name) == buff.id
    {
      var id := reg.ids.Reserve(BuffIds);
      buff.name := name;
      buff.id := id;
      playerContent := playerContent.(buffs := playerContent.buffs[name := buff]);
      reg.buffs := reg.buffs + [buff];
      buff.texture := texture;
      buff.owner := modName;
    }

    function GetBuff(name: string): (r: Option<ModBuff>)
      reads this`playerContent
      ensures r.Some? <==> name in playerContent.buffs
      ensures r.Some? ==> r.value == playerContent.buffs[name]
    {
      if name in playerContent.buffs then Some(playerContent.buffs[name]) else None
    }

    function BuffType(name: string): (r: int)
      reads this`playerContent, playerContent.buffs.Values
      ensures name !in playerContent.buffs ==> r == 0
      ensures name in playerContent.buffs ==> r == playerContent.buffs[name].id
    {
      match GetBuff(name)
      case None => 0
      case Some(b) => b.id
    }

    method AddGlobalBuff(name: string, globalBuff: GlobalBuff, reg: Registry)
      modifies this`playerContent, globalBuff, reg`globalBuffs
      ensures globalBuff.name == name && globalBuff.owner == modName
      ensures playerContent == old(playerContent).(globalBuffs := old(playerContent.globalBuffs)[name := globalBuff])
      ensures reg.globalBuffs == old(reg.globalBuffs) + [globalBuff]
    {
      globalBuff.owner := modName;
      globalBuff.name := name;
      playerContent := playerContent.(globalBuffs := playerContent.globalBuffs[name := globalBuff]);
      reg.globalBuffs := reg.globalBuffs + [globalBuff];
    }

    function GetGlobalBuff(name: string): (r: Option<GlobalBuff>)
      reads this`playerContent
      ensures r.Some? <==> name in playerContent.globalBuffs
      ensures r.Some? ==> r.value == playerContent.globalBuffs[name]
    {
      if name in playerContent.globalBuffs then Some(playerContent.globalBuffs[name]) else None
    }

    /** AddMount: the loader keeps mounts in a table indexed by their ID. */
    method AddMount(name: string, mount: ModMountData, texture: string, reg: Registry)
      requires reg.ids.Valid()
      modifies this`playerContent, mount, reg.ids, reg`mountDatas
      ensures reg.ids.Valid()
      ensures (MountIds, mount.id) !in old(reg.ids.issued) && reg.ids.issued == old(reg.ids.issued) + {(MountIds, mount.id)}
      ensures mount.name == name && mount.texture == texture && mount.owner == modName
      ensures playerContent == old(playerContent).(mountDatas := old(playerContent.mountDatas)[name := mount])
      ensures reg.mountDatas == old(reg.mountDatas)[mount.id := mount]
      ensures MountType(name) == mount.id
    {
      var id := reg.ids.Reserve(MountIds);
      mount.name := name;
      mount.id := id;
      playerContent := playerContent.(mountDatas := playerContent.mountDatas[name := mount]);
      reg.mountDatas := reg.mountDatas[id := mount];
      mount.texture := texture;
      mount.owner := modName;
    }

    function GetMount(name: string): (r: Option<ModMountData>)
      reads this`playerContent
      ensures r.Some? <==> name in playerContent.mountDatas
      ensures r.Some? ==> r.value == playerContent.mountDatas[name]
    {
      if name in playerContent.mountDatas then Some(playerContent.mountDatas[name]) else None
    }

    function MountType(name: string): (r: int)
      reads this`playerContent, playerContent.mountDatas.Values
      ensures name !in playerContent.mountDatas ==> r == 0
      ensures name in playerContent.mountDatas ==> r == playerContent.mountDatas[name].id
    {
      match GetMount(name)
      case None => 0
      case Some(m) => m.id
    }

    method AddModWorld(name: string, world: ModWorld, reg: Registry)
      modifies this`worldContent, world, reg`worldHooks
      ensures world.name == name && world.owner == modName
      ensures worldContent == old(worldContent).(worlds := old(worldContent.worlds)[name := world])
      ensures reg.worldHooks == old(reg.worldHooks) + [world]
    {
      world.name := name;
      worldContent := worldContent.(worlds := worldContent.worlds[name := world]);
      world.owner := modName;
      reg.worldHooks := reg.worldHooks + [world];
    }

    function GetModWorld(name: string): (r: Option<ModWorld>)
      reads this`worldContent
      ensures r.Some? <==> name in worldContent.worlds
      ensures r.Some? ==> r.value == worldContent.worlds[name]
    {
      if name in worldContent.worlds then Some(worldContent.worlds[name]) else None
    }

    // -------------------------------------------------------------------
    // Background, water and waterfall styles

    method AddUgBgStyle(name: string, style: ModUgBgStyle, reg: Registry)
      requires reg.ids.Valid()
      modifies this`worldContent, style, reg.ids, reg`ugBgStyles
      ensures reg.ids.Valid()
      ensures (UgBgSlots, style.slot) !in old(reg.ids.issued) && reg.ids.issued == old(reg.ids.issued) + {(UgBgSlots, style.slot)}
      ensures style.name == name && style.owner == modName
      ensures worldContent == old(worldContent).(ugBgStyles := old(worldContent.ugBgStyles)[name := style])
      ensures reg.ugBgStyles == old(reg.ugBgStyles) + [style]
    {
      var slot := reg.ids.Reserve(UgBgSlots);
      style.owner := modName;
      style.name := name;
      style.slot := slot;
      worldContent := worldContent.(ugBgStyles := worldContent.ugBgStyles[name := style]);
      reg.ugBgStyles := reg.ugBgStyles + [style];
    }

    function GetUgBgStyle(name: string): (r: Option<ModUgBgStyle>)
      reads this`worldContent
      ensures r.Some? <==> name in worldContent.ugBgStyles
      ensures r.Some? ==> r.value == worldContent.ugBgStyles[name]
    {
      if name in worldContent.ugBgStyles then Some(worldContent.ugBgStyles[name]) else None
    }

    method AddSurfaceBgStyle(name: string, style: ModSurfaceBgStyle, reg: Registry)
      requires reg.ids.Valid()
      modifies this`worldContent, style, reg.ids, reg`surfaceBgStyles
      ensures reg.ids.Valid()
      ensures (SurfaceBgSlots, style.slot) !in old(reg.ids.issued)
      ensures reg.ids.issued == old(reg.ids.issued) + {(SurfaceBgSlots, style.slot)}
      ensures style.name == name && style.owner == modName
      ensures worldContent == old(worldContent).(surfaceBgStyles := old(worldContent.surfaceBgStyles)[name := style])
      ensures reg.surfaceBgStyles == old(reg.surfaceBgStyles) + [style]
      ensures GetSurfaceBgStyleSlot(name) == style.slot
    {
      var slot := reg.ids.Reserve(SurfaceBgSlots);
      style.owner := modName;
      style.name := name;
      style.slot := slot;
      worldContent := worldContent.(surfaceBgStyles := worldContent.surfaceBgStyles[name := style]);
      reg.surfaceBgStyles := reg.surfaceBgStyles + [style];
    }

    function GetSurfaceBgStyle(name: string): (r: Option<ModSurfaceBgStyle>)
      reads this`worldContent
      ensures r.Some? <==> name in worldContent.surfaceBgStyles
      ensures r.Some? ==> r.value == worldContent.surfaceBgStyles[name]
    {
      if name in worldContent.surfaceBgStyles then Some(worldContent.surfaceBgStyles[name]) else None
    }

    /** GetSurfaceBgStyleSlot: -1 for an unknown name. */
    function GetSurfaceBgStyleSlot(name: string): (r: int)
      reads this`worldContent, worldContent.surfaceBgStyles.Values
      ensures name !in worldContent.surfaceBgStyles ==> r == -1
      ensures name in worldContent.surfaceBgStyles ==> r == worldContent.surfaceBgStyles[name].slot
    {
      match GetSurfaceBgStyle(name)
      case None => -1
      case Some(s) => s.slot
    }

    method AddGlobalBgStyle(name: string, style: GlobalBgStyle, reg: Registry)
      modifies this`worldContent, style, reg`globalBgStyles
      ensures style.name == name && style.owner == modName
      ensures worldContent == old(worldContent).(globalBgStyles := old(worldContent.globalBgStyles)[name := style])
      ensures reg.globalBgStyles == old(reg.globalBgStyles) + [style]
    {
      style.owner := modName;
      style.name := name;
      worldContent := worldContent.(globalBgStyles := worldContent.globalBgStyles[name := style]);
      reg.globalBgStyles := reg.globalBgStyles + [style];
    }

    function GetGlobalBgStyle(name: string): (r: Option<GlobalBgStyle>)
      reads this`worldContent
      ensures r.Some? <==> name in worldContent.globalBgStyles
      ensures r.Some? ==> r.value == worldContent.globalBgStyles[name]
    {
      if name in worldContent.globalBgStyles then Some(worldContent.globalBgStyles[name]) else None
    }

    method AddWaterStyle(name: string, style: ModWaterStyle, texture: string, blockTexture: string, reg: Registry)
      requires reg.ids.Valid()
      modifies this`worldContent, style, reg.ids, reg`waterStyles
      ensures reg.ids.Valid()
      ensures (WaterStyleIds, style.id) !in old(reg.ids.issued)
      ensures reg.ids.issued == old(reg.ids.issued) + {(WaterStyleIds, style.id)}
      ensures style.name == name && style.owner == modName
      ensures style.texture == texture && style.blockTexture == blockTexture
      ensures worldContent == old(worldContent).(waterStyles := old(worldContent.waterStyles)[name := style])
      ensures reg.waterStyles == old(reg.waterStyles) + [style]
    {
      var id := reg.ids.Reserve(WaterStyleIds);
      style.owner := modName;
      style.name := name;
      style.id := id;
      style.texture := texture;
      style.blockTexture := blockTexture;
      worldContent := worldContent.(waterStyles := worldContent.waterStyles[name := style]);
      reg.waterStyles := reg.waterStyles + [style];
    }

    function GetWaterStyle(name: string): (r: Option<ModWaterStyle>)
      reads this`worldContent
      ensures r.Some? <==> name in worldContent.waterStyles
      ensures r.Some? ==> r.value == worldContent.waterStyles[name]
    {
      if name in worldContent.waterStyles then Some(worldContent.waterStyles[name]) else None
    }

    method AddWaterfallStyle(name: string, style: ModWaterfallStyle, texture: string, reg: Registry)
      requires reg.ids.Valid()
      modifies this`worldContent, style, reg.ids, reg`waterfallStyles
      ensures reg.ids.Valid()
      ensures (WaterfallStyleIds, style.id) !in old(reg.ids.issued)
      ensures reg.ids.issued == old(reg.ids.issued) + {(WaterfallStyleIds, style.id)}
      ensures style.name == name && style.owner == modName && style.texture == texture
      ensures worldContent == old(worldContent).(waterfallStyles := old(worldContent.waterfallStyles)[name := style])
      ensures reg.waterfallStyles == old(reg.waterfallStyles) + [style]
      ensures GetWaterfallStyleSlot(name) == style.id
    {
      var id := reg.ids.Reserve(WaterfallStyleIds);
      style.owner := modName;
      style.name := name;
      style.id := id;
      style.texture := texture;
      worldContent := worldContent.(waterfallStyles := worldContent.waterfallStyles[name := style]);
      reg.waterfallStyles := reg.waterfallStyles + [style];
    }

    function GetWaterfallStyle(name: string): (r: Option<ModWaterfallStyle>)
      reads this`worldContent
      ensures r.Some? <==> name in worldContent.waterfallStyles
      ensures r.Some? ==> r.value == worldContent.waterfallStyles[name]
    {
      if name in worldContent.waterfallStyles then Some(worldContent.waterfallStyles[name]) else None
    }

    /** GetWaterfallStyleSlot: -1 for an unknown name. */
    function GetWaterfallStyleSlot(name: string): (r: int)
      reads this`worldContent, worldContent.waterfallStyles.Values
      ensures name !in worldContent.waterfallStyles ==> r == -1
      ensures name in worldContent.waterfallStyles ==> r == worldContent.waterfallStyles[name].id
    {
      match GetWaterfallStyle(name)
      case None => -1
      case Some(s) => s.id
    }

    // -------------------------------------------------------------------
    // Gores, sounds, backgrounds (keyed by qualified texture or sound path)

    /** AddGore: a fresh gore ID under the texture; the behaviour class, if
        any, is recorded under that ID. */
    method AddGore(texture: string, modGore: ModGore?, reg: Registry)
      requires reg.ids.Valid() && reg.HooksIssued()
      modifies reg.ids, reg`gores, reg`modGores
      ensures reg.ids.Valid() && reg.HooksIssued()
      ensures texture in reg.gores && (GoreIds, reg.gores[texture]) !in old(reg.ids.issued)
      ensures reg.ids.issued == old(reg.ids.issued) + {(GoreIds, reg.gores[texture])}
      ensures reg.gores == old(reg.gores)[texture := reg.gores[texture]]
      ensures reg.gores[texture] !in old(reg.modGores)
      ensures reg.modGores == if modGore == null then old(reg.modGores)
                              else old(reg.modGores)[reg.gores[texture] := modGore]
    {
      var id := reg.ids.Reserve(GoreIds);
      reg.gores := reg.gores[texture := id];
      if modGore != null {
        reg.modGores := reg.modGores[id := modGore];
      }
    }

    /** AddSound: a fresh ID in the sound type's pool under the path; a
        behaviour class is recorded under that ID and bound to the sound,
        which must resolve. */
    method AddSound(soundType: Paths.SoundType, soundPath: string, modSound: ModSound?, reg: Registry, host: Host)
      returns (o: Outcome)
      requires reg.ids.Valid() && reg.HooksIssued()
      modifies reg.ids, reg`sounds, reg`modSounds, modSound
      ensures reg.ids.Valid() && reg.HooksIssued()
      ensures var key := (soundType, soundPath);
        && key in reg.sounds && (SoundIds(soundType), reg.sounds[key]) !in old(reg.ids.issued)
        && reg.ids.issued == old(reg.ids.issued) + {(SoundIds(soundType), reg.sounds[key])}
        && reg.sounds == old(reg.sounds)[key := reg.sounds[key]]
        && (soundType, reg.sounds[key]) !in old(reg.modSounds)
        && reg.modSounds == if modSound == null then old(reg.modSounds)
                            else old(reg.modSounds)[(soundType, reg.sounds[key]) := modSound]
      ensures o == if modSound != null && soundPath !in host.sounds then Fail(MissingResource(soundPath)) else Pass
      ensures modSound != null && o.Pass? ==> modSound.sound == Some(soundPath)
    {
      var id := reg.ids.Reserve(SoundIds(soundType));
      reg.sounds := reg.sounds[(soundType, soundPath) := id];
      if modSound != null {
        reg.modSounds := reg.modSounds[(soundType, id) := modSound];
        if soundPath !in host.sounds {
          return Fail(MissingResource(soundPath));
        }
        modSound.sound := Some(soundPath);
      }
      o := Pass;
    }

    /** AddBackgroundTexture: a fresh background slot under the texture,
        which must resolve. */
    method AddBackgroundTexture(texture: string, reg: Registry, host: Host) returns (o: Outcome)
      requires reg.ids.Valid()
      modifies reg.ids, reg`backgrounds
      ensures reg.ids.Valid()
      ensures texture in reg.backgrounds && (BackgroundSlots, reg.backgrounds[texture]) !in old(reg.ids.issued)
      ensures reg.ids.issued == old(reg.ids.issued) + {(BackgroundSlots, reg.backgrounds[texture])}
      ensures reg.backgrounds == old(reg.backgrounds)[texture := reg.backgrounds[texture]]
      ensures o == if texture in host.textures then Pass else Fail(MissingResource(texture))
    {
      var slot := reg.ids.Reserve(BackgroundSlots);
      reg.backgrounds := reg.backgrounds[texture := slot];
      if texture !in host.textures {
        return Fail(MissingResource(texture));
      }
      o := Pass;
    }

    /** GetGoreSlot: the gore ID registered for this mod's texture `name`,
        which is looked up under its path qualified by the mod's name. */
    function GetGoreSlot(name: string, reg: Registry): (r: Option<int>)
      reads reg`gores
      ensures r.Some? <==> Paths.Qualified(modName, name) in reg.gores
      ensures r.Some? ==> r.value == reg.gores[Paths.Qualified(modName, name)]
    {
      var key := Paths.Qualified(modName, name);
      if key in reg.gores then Some(reg.gores[key]) else None
    }

    /** GetSoundSlot: the ID registered for this mod's sound `name` in the
        pool of `soundType`, under the qualified path. */
    function GetSoundSlot(soundType: Paths.SoundType, name: string, reg: Registry): (r: Option<int>)
      reads reg`sounds
      ensures r.Some? <==> (soundType, Paths.Qualified(modName, name)) in reg.sounds
      ensures r.Some? ==> r.value == reg.sounds[(soundType, Paths.Qualified(modName, name))]
    {
      var key := (soundType, Paths.Qualified(modName, name));
      if key in reg.sounds then Some(reg.sounds[key]) else None
    }

    /** GetBackgroundSlot: the background slot registered for this mod's
        texture `name`, under the qualified path. */
    function GetBackgroundSlot(name: string, reg: Registry): (r: Option<int>)
      reads reg`backgrounds
      ensures r.Some? <==> Paths.Qualified(modName, name) in reg.backgrounds
      ensures r.Some? ==> r.value == reg.backgrounds[Paths.Qualified(modName, name)]
    {
      var key := Paths.Qualified(modName, name);
      if key in reg.backgrounds then Some(reg.backgrounds[key]) else None
    }

    // -------------------------------------------------------------------
    // Recipes

    method AddGlobalRecipe(name: string, globalRecipe: GlobalRecipe, reg: Registry)
      modifies this`worldContent, globalRecipe, reg`recipeHooks
      ensures globalRecipe.name == name && globalRecipe.owner == modName
      ensures worldContent == old(worldContent).(globalRecipes := old(worldContent.globalRecipes)[name := globalRecipe])
      ensures reg.recipeHooks == old(reg.recipeHooks) + [globalRecipe]
    {
      globalRecipe.name := name;
      worldContent := worldContent.(globalRecipes := worldContent.globalRecipes[name := globalRecipe]);
      globalRecipe.owner := modName;
      reg.recipeHooks := reg.recipeHooks + [globalRecipe];
    }

    function GetGlobalRecipe(name: string): (r: Option<GlobalRecipe>)
      reads this`worldContent
      ensures r.Some? <==> name in worldContent.globalRecipes
      ensures r.Some? ==> r.value == worldContent.globalRecipes[name]
    {
      if name in worldContent.globalRecipes then Some(worldContent.globalRecipes[name]) else None
    }

    // -------------------------------------------------------------------
    // Music boxes

    /** AddMusicBox: run the checks in their fixed order; on success bind
        all three tables. A tile with no frame table yet gets an empty one
        before the frame checks, so a call rejected by those leaves it. */
    method AddMusicBox(musicSlot: int, itemType: int, tileType: int, tileFrameY: int, reg: Registry)
      returns (o: Outcome)
      modifies reg`musicBoxes
      ensures var w := MusicBoxes.World(reg.vanillaMusicCount, reg.ids.Count(SoundIds(Paths.Music)),
                                        reg.vanillaItemCount, reg.HasItem(itemType),
                                        reg.vanillaTileCount, reg.HasTile(tileType));
        var failure := MusicBoxes.FirstFailure(old(reg.musicBoxes), w, musicSlot, itemType, tileType, tileFrameY);
        && (o == if failure.None? then Pass else Fail(MusicBox(failure.value)))
        && (o.Pass? ==> reg.musicBoxes == MusicBoxes.Bind(old(reg.musicBoxes), musicSlot, itemType, tileType, tileFrameY))
        && (o.Fail? ==> (reg.musicBoxes ==
              if failure.value == FrameNotMultiple && tileType !in old(reg.musicBoxes.tileToMusic)
              then old(reg.musicBoxes).(tileToMusic := old(reg.musicBoxes.tileToMusic)[tileType := map[]])
              else old(reg.musicBoxes)))
    {
      var t := reg.musicBoxes;
      if musicSlot < reg.vanillaMusicCount {
        return Fail(MusicBox(VanillaMusic));
      }
      if musicSlot >= reg.ids.Count(SoundIds(Paths.Music)) {
        return Fail(MusicBox(NoSuchMusic));
      }
      if itemType < reg.vanillaItemCount {
        return Fail(MusicBox(VanillaItem));
      }
      if !reg.HasItem(itemType) {
        return Fail(MusicBox(NoSuchItem));
      }
      if tileType < reg.vanillaTileCount {
        return Fail(MusicBox(VanillaTile));
      }
      if !reg.HasTile(tileType) {
        return Fail(MusicBox(NoSuchTile));
      }
      if musicSlot in t.musicToItem {
        return Fail(MusicBox(MusicTaken));
      }
      if itemType in t.itemToMusic {
        return Fail(MusicBox(ItemTaken));
      }
      if tileType !in t.tileToMusic {
        t := t.(tileToMusic := t.tileToMusic[tileType := map[]]);
        reg.musicBoxes := t;
      }
      if tileFrameY in t.tileToMusic[tileType] {
        return Fail(MusicBox(FrameTaken));
      }
      if tileFrameY % MusicBoxes.FrameHeight != 0 {
        return Fail(MusicBox(FrameNotMultiple));
      }
      reg.musicBoxes := MusicBoxes.Tables(
        t.musicToItem[musicSlot := itemType],
        t.itemToMusic[itemType := musicSlot],
        t.tileToMusic[tileType := t.tileToMusic[tileType][tileFrameY := musicSlot]]);
      o := Pass;
    }

    // -------------------------------------------------------------------
    // Unloading

    /** UnloadContent: after the mod's own Unload hook (not modelled), empty
        the recipe list and every content table except players and mounts,
        which stay as they are, as do the asset caches; every look-up then
        answers with its sentinel. */
    method UnloadContent()
      modifies this`itemContent, this`tileContent, this`entityContent, this`playerContent, this`worldContent
      ensures itemContent == NoItemContent && tileContent == NoTileContent
      ensures entityContent == NoEntityContent && worldContent == NoWorldContent
      ensures playerContent == NoPlayerContent.(players := old(playerContent.players),
                                                mountDatas := old(playerContent.mountDatas))
      ensures forall n :: ItemType(n) == 0 && TileType(n) == 0 && WallType(n) == 0 && ProjectileType(n) == 0
      ensures forall n :: NPCType(n) == 0 && BuffType(n) == 0 && DustType(n) == 0
      ensures forall n :: TileEntityType(n) == -1 && GetEquipSlot(n) == -1
      ensures forall n :: GetSurfaceBgStyleSlot(n) == -1 && GetWaterfallStyleSlot(n) == -1
    {
      itemContent, tileContent, entityContent, worldContent :=
        NoItemContent, NoTileContent, NoEntityContent, NoWorldContent;
      playerContent := playerContent.(buffs := map[], globalBuffs := map[]);
    }
  }
}
