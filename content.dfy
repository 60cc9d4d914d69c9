/** The content descriptors a mod registers. Each is an object whose fields
    the registry stamps in place (name, type or slot, texture, owning mod),
    as the C# classes ModItem, ModTile, ... are. The owning mod is recorded
    by its name. Behaviour hooks that only the game calls are not modelled;
    the few that the registry consults are constant fields. */
module Content {
  import opened Common

  type ushort = x: int | 0 <= x < 0x1_0000
  type byte = x: int | 0 <= x < 0x100

  datatype EquipType =
    Head | Body | Legs | HandsOn | HandsOff | Back | Front | Shoes | Waist | Wings | Shield | Neck | Face | Balloon

  /** EquipType.ToString(). */
  function EquipName(e: EquipType): string {
    match e
    case Head => "Head" case Body => "Body" case Legs => "Legs"
    case HandsOn => "HandsOn" case HandsOff => "HandsOff" case Back => "Back"
    case Front => "Front" case Shoes => "Shoes" case Waist => "Waist"
    case Wings => "Wings" case Shield => "Shield" case Neck => "Neck"
    case Face => "Face" case Balloon => "Balloon"
  }

  /** The dust sheet a ModDust draws from: the vanilla one or a mod texture. */
  datatype DustTexture = VanillaDustSheet | ModTexture(path: string)

  class ModItem {
    var name: string
    var id: int
    var texture: string
    var flameTexture: string
    var owner: string
    const questFish: bool            // IsQuestFish()
    const legacyHooks: set<string>   // old-signature hooks the class still declares
    constructor (questFish: bool, legacyHooks: set<string>)
      ensures this.questFish == questFish && this.legacyHooks == legacyHooks && flameTexture == ""
    {
      name, id, texture, flameTexture, owner := "", 0, "", "", "";
      this.questFish, this.legacyHooks := questFish, legacyHooks;
    }
  }

  class GlobalItem {
    var name: string
    var owner: string
    const legacyHooks: set<string>
    constructor (legacyHooks: set<string>) ensures this.legacyHooks == legacyHooks {
      name, owner := "", "";
      this.legacyHooks := legacyHooks;
    }
  }

  class ItemInfo {
    var name: string
    var owner: string
    constructor () { name, owner := "", ""; }
  }

  class EquipTexture {
    var name: string
    var texture: string
    var owner: string
    var equipType: EquipType
    var slot: int
    var item: ModItem?
    constructor () { name, texture, owner, equipType, slot, item := "", "", "", Head, 0, null; }
  }

  class ModDust {
    var name: string
    var id: int
    var texture: DustTexture
    var owner: string
    constructor () { name, id, texture, owner := "", 0, VanillaDustSheet, ""; }
  }

  class ModTile {
    var name: string
    var id: ushort
    var texture: string
    var owner: string
    constructor () { name, id, texture, owner := "", 0, "", ""; }
  }

  class GlobalTile {
    var name: string
    var owner: string
    constructor () { name, owner := "", ""; }
  }

  class ModTileEntity {
    var name: string
    var id: int       // Type
    var idByte: byte   // the byte-sized `type` the game saves
    var owner: string
    constructor () { name, id, idByte, owner := "", 0, 0, ""; }
  }

  class ModWall {
    var name: string
    var id: ushort
    var texture: string
    var owner: string
    constructor () { name, id, texture, owner := "", 0, "", ""; }
  }

  class GlobalWall {
    var name: string
    var owner: string
    constructor () { name, owner := "", ""; }
  }

  class ModProjectile {
    var name: string
    var id: int
    var texture: string
    var owner: string
    constructor () { name, id, texture, owner := "", 0, "", ""; }
  }

  class GlobalProjectile {
    var name: string
    var owner: string
    constructor () { name, owner := "", ""; }
  }

  class ProjectileInfo {
    var name: string
    var owner: string
    constructor () { name, owner := "", ""; }
  }

  class ModNPC {
    var name: string
    var id: int
    var texture: string
    var altTextures: Option<seq<string>>   // null when AddNPC was given none
    var owner: string
    constructor () { name, id, texture, altTextures, owner := "", 0, "", None, ""; }
  }

  class GlobalNPC {
    var name: string
    var owner: string
    constructor () { name, owner := "", ""; }
  }

  class NPCInfo {
    var name: string
    var owner: string
    constructor () { name, owner := "", ""; }
  }

  class ModPlayer {
    var name: string
    var owner: string
    const legacyHooks: set<string>
    constructor (legacyHooks: set<string>) ensures this.legacyHooks == legacyHooks {
      name, owner := "", "";
      this.legacyHooks := legacyHooks;
    }
  }

  class ModBuff {
    var name: string
    var id: int
    var texture: string
    var owner: string
    constructor () { name, id, texture, owner := "", 0, "", ""; }
  }

  class GlobalBuff {
    var name: string
    var owner: string
    constructor () { name, owner := "", ""; }
  }

  class ModMountData {
    var name: string
    var id: int
    var texture: string
    var owner: string
    constructor () { name, id, texture, owner := "", 0, "", ""; }
  }

  class ModWorld {
    var name: string
    var owner: string
    constructor () { name, owner := "", ""; }
  }

  class ModUgBgStyle {
    var name: string
    var slot: int
    var owner: string
    constructor () { name, slot, owner := "", 0, ""; }
  }

  class ModSurfaceBgStyle {
    var name: string
    var slot: int
    var owner: string
    constructor () { name, slot, owner := "", 0, ""; }
  }

  class GlobalBgStyle {
    var name: string
    var owner: string
    constructor () { name, owner := "", ""; }
  }

  class ModWaterStyle {
    var name: string
    var id: int
    var texture: string
    var blockTexture: string
    var owner: string
    constructor () { name, id, texture, blockTexture, owner := "", 0, "", "", ""; }
  }

  class ModWaterfallStyle {
    var name: string
    var id: int
    var texture: string
    var owner: string
    constructor () { name, id, texture, owner := "", 0, "", ""; }
  }

  class GlobalRecipe {
    var name: string
    var owner: string
    constructor () { name, owner := "", ""; }
  }

  /** A gore behaviour class, known by its full name. */
  class ModGore {
    const fullName: string
    constructor (fullName: string) ensures this.fullName == fullName { this.fullName := fullName; }
  }

  /** A sound behaviour class; `sound` is the sound it was bound to. */
  class ModSound {
    const fullName: string
    var sound: Option<string>
    constructor (fullName: string) ensures this.fullName == fullName && sound == None {
      this.fullName := fullName;
      sound := None;
    }
  }

  /** A recipe the mod added (its contents are not part of this model). */
  class ModRecipe {
    constructor () { }
  }
}
