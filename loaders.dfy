/** The process-wide tables of the loader classes (ItemLoader, TileLoader,
    EquipLoader, SoundLoader, NPCHeadLoader, ModGore, ...), gathered in one
    Registry object that every mod registers into. The loaders' own code is
    not part of this model: their ID reservation is an abstract allocator
    whose only promise is that it never hands out the same ID twice from the
    same pool, and the look-ups the registry makes into them are stated
    over the tables held here. */
module Loaders {
  import opened Common
  import opened Content
  import Paths
  import MusicBoxes

  /** One ID space per content category (and per equip type and sound type). */
  datatype Pool =
    | ItemIds | EquipSlots(equip: EquipType) | DustIds | TileIds | TileEntityIds
    | WallIds | ProjectileIds | NPCIds | HeadSlots | BossHeadSlots | BuffIds
    | MountIds | UgBgSlots | SurfaceBgSlots | WaterStyleIds | WaterfallStyleIds
    | GoreIds | SoundIds(sound: Paths.SoundType) | BackgroundSlots

  /** The loaders' ID counters, one per pool. Their code is not part of
      this model: the only promise is that a reservation never hands out
      an ID already issued from the same pool. */
  class Allocator {
    var next: map<Pool, int>
    ghost var issued: set<(Pool, int)>

    /** How many IDs the pool's counter has passed (SoundLoader.SoundCount
        for the sound pools). */
    function Count(p: Pool): int
      reads this`next
    {
      if p in next then next[p] else 0
    }

    /** Every issued ID lies below its pool's count. */
    ghost predicate Valid()
      reads this`next, this`issued
    {
      forall e | e in issued :: e.1 < Count(e.0)
    }

    constructor (start: map<Pool, int>)
      ensures Valid() && next == start && issued == {}
    {
      next, issued := start, {};
    }

    /** Reserve a fresh ID from a pool (ItemLoader.ReserveItemID and the like). */
    method Reserve(p: Pool) returns (id: int)
      requires Valid()
      modifies this
      ensures Valid()
      ensures (p, id) !in old(issued) && issued == old(issued) + {(p, id)}
    {
      id := Count(p);
      next := next[p := id + 1];
      issued := issued + {(p, id)};
    }
  }

  /** Gore hooks and sound hooks are indexed only by issued IDs. */
  ghost predicate IndexedByIssued(modGores: map<int, ModGore>, modSounds: map<(Paths.SoundType, int), ModSound>,
                                  issued: set<(Pool, int)>)
  {
    && (forall id | id in modGores :: (GoreIds, id) in issued)
    && (forall k | k in modSounds :: (SoundIds(k.0), k.1) in issued)
  }

  lemma IndexedByMoreIssued(modGores: map<int, ModGore>, modSounds: map<(Paths.SoundType, int), ModSound>,
                            issued: set<(Pool, int)>, issued': set<(Pool, int)>)
    requires IndexedByIssued(modGores, modSounds, issued) && issued <= issued'
    ensures IndexedByIssued(modGores, modSounds, issued')
  {
  }

  class Registry {
    const ids: Allocator

    // vanilla counts (Main.maxMusic, ItemID.Count, TileID.Count)
    const vanillaMusicCount: int
    const vanillaItemCount: int
    const vanillaTileCount: int

    // ItemLoader
    var items: seq<ModItem>
    var questFish: seq<int>
    var globalItems: seq<GlobalItem>
    var itemInfoIndexes: map<string, int>
    var itemInfoList: seq<ItemInfo>
    // EquipLoader
    var equipTextures: map<(EquipType, int), EquipTexture>
    var armTextures: map<int, string>
    var femaleTextures: map<int, string>
    var slotToId: map<(EquipType, int), int>
    var idToSlot: map<int, map<EquipType, int>>
    // ModDust
    var dusts: seq<ModDust>
    // TileLoader, ModTileEntity, WallLoader
    var tiles: seq<ModTile>
    var globalTiles: seq<GlobalTile>
    var tileEntities: seq<ModTileEntity>
    var walls: seq<ModWall>
    var globalWalls: seq<GlobalWall>
    // ProjectileLoader
    var projectiles: seq<ModProjectile>
    var globalProjectiles: seq<GlobalProjectile>
    var projectileInfoIndexes: map<string, int>
    var projectileInfoList: seq<ProjectileInfo>
    // NPCLoader, NPCHeadLoader
    var npcs: seq<ModNPC>
    var globalNPCs: seq<GlobalNPC>
    var npcInfoIndexes: map<string, int>
    var npcInfoList: seq<NPCInfo>
    var heads: map<string, int>
    var npcToHead: map<int, int>
    var headToNPC: map<int, int>
    var bossHeads: map<string, int>
    var npcToBossHead: map<int, int>
    // PlayerHooks, BuffLoader, MountLoader, WorldHooks
    var playerHooks: seq<ModPlayer>
    var buffs: seq<ModBuff>
    var globalBuffs: seq<GlobalBuff>
    var mountDatas: map<int, ModMountData>
    var worldHooks: seq<ModWorld>
    // background and liquid styles
    var ugBgStyles: seq<ModUgBgStyle>
    var surfaceBgStyles: seq<ModSurfaceBgStyle>
    var globalBgStyles: seq<GlobalBgStyle>
    var waterStyles: seq<ModWaterStyle>
    var waterfallStyles: seq<ModWaterfallStyle>
    // ModGore, SoundLoader, BackgroundTextureLoader
    var gores: map<string, int>
    var modGores: map<int, ModGore>
    var sounds: map<(Paths.SoundType, string), int>
    var modSounds: map<(Paths.SoundType, int), ModSound>
    var backgrounds: map<string, int>
    var musicBoxes: MusicBoxes.Tables   // musicToItem, itemToMusic, tileToMusic
    // RecipeHooks
    var recipeHooks: seq<GlobalRecipe>

    /** The gore and sound hook tables are indexed only by issued IDs. */
    ghost predicate HooksIssued()
      reads this`modGores, this`modSounds, ids
    {
      IndexedByIssued(modGores, modSounds, ids.issued)
    }

    constructor (start: map<Pool, int>, maxMusic: int, itemCount: int, tileCount: int)
      ensures fresh(ids) && ids.Valid() && ids.next == start && ids.issued == {} && HooksIssued()
      ensures vanillaMusicCount == maxMusic && vanillaItemCount == itemCount && vanillaTileCount == tileCount
      ensures items == [] && tiles == [] && gores == map[] && sounds == map[] && backgrounds == map[]
      ensures musicBoxes == MusicBoxes.Tables(map[], map[], map[])
    {
      ids := new Allocator(start);
      vanillaMusicCount, vanillaItemCount, vanillaTileCount := maxMusic, itemCount, tileCount;
      items, questFish, globalItems, itemInfoIndexes, itemInfoList := [], [], [], map[], [];
      equipTextures, armTextures, femaleTextures, slotToId, idToSlot := map[], map[], map[], map[], map[];
      dusts, tiles, globalTiles, tileEntities, walls, globalWalls := [], [], [], [], [], [];
      projectiles, globalProjectiles, projectileInfoIndexes, projectileInfoList := [], [], map[], [];
      npcs, globalNPCs, npcInfoIndexes, npcInfoList := [], [], map[], [];
      heads, npcToHead, headToNPC, bossHeads, npcToBossHead := map[], map[], map[], map[], map[];
      playerHooks, buffs, globalBuffs, mountDatas, worldHooks := [], [], [], map[], [];
      ugBgStyles, surfaceBgStyles, globalBgStyles, waterStyles, waterfallStyles := [], [], [], [], [];
      gores, modGores, sounds, modSounds, backgrounds := map[], map[], map[], map[], map[];
      musicBoxes := MusicBoxes.Tables(map[], map[], map[]);
      recipeHooks := [];
    }

    /** ItemLoader.GetItem(t) != null: some registered modded item has type t. */
    predicate HasItem(t: int)
      reads this`items, items
    {
      exists i :: 0 <= i < |items| && items[i].id == t
    }

    /** TileLoader.GetTile(t) != null: some registered modded tile has type t. */
    predicate HasTile(t: int)
      reads this`tiles, tiles
    {
      exists i :: 0 <= i < |tiles| && tiles[i].id == t
    }
  }
}
