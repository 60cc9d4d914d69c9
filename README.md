# tModLoader `Mod`: content registry, autoload and asset cache

This project models the `Mod` class of tModLoader, the loader that lets
third-party mods add content to Terraria. A mod registers its items, tiles,
walls, projectiles, NPCs, buffs, mounts, worlds, background, water and
waterfall styles, gores, sounds and backgrounds, and the hooks that apply
to all of them. Each kind is registered under a name. Every registration
reserves an ID from the matching loader's pool, stamps name, ID, texture
and owner onto the descriptor, stores it in the mod's own table and
appends it to the loader's global list.

The model covers:

- the registration entry points (`Add*`) and their error paths:
  - a retired hook signature is refused;
  - a duplicate item name is refused;
  - a texture that does not resolve fails, after the writes that precede it;
  - the music-box validator;
- the look-ups (`Get*`, `*Type`, the slot getters), with their 0 and -1 sentinels;
- `Autoload`:
  - the legacy `ChatInput` check;
  - the archive pass that fills the mod's texture, sound and font caches;
  - the loop over the assembly's types, sorted by full name, and the
    first-match dispatch that sends each type to its `Autoload*` helper,
    with the default name and texture derived from the type;
  - the `Gores/`, `Sounds/` and `Backgrounds/` passes over the cached asset keys;
- the two per-NPC rules of `SetupContent`: life bytes, and the alternate-texture array;
- `UnloadContent`.

The files are:

| file | module | what it holds |
|---|---|---|
| `common.dfy` | `Common` | `Option`, `Outcome`/`Result`, the errors the loader throws, `Host` |
| `paths.dfy` | `Paths` | character replacement, extension splitting, default texture paths, suffixes, qualified names, sound sub-folders |
| `content.dfy` | `Content` | the descriptor classes (`ModItem`, `ModTile`, `ModNPC`, ...) whose fields registration stamps in place |
| `loaders.dfy` | `Loaders` | the loaders' global tables as one `Registry` object, and the ID allocator |
| `assets.dfy` | `Assets` | the asset cache and the archive pass |
| `musicbox.dfy` | `MusicBoxes` | the music-box checks and tables |
| `mod.dfy` | `Mods` | the `Mod` class: registration, look-ups, unloading |
| `discovery.dfy` | `Discovery` | type records, the dispatch chain, the full-name sort, default names |
| `autoload.dfy` | `Autoloading` | the per-category `Autoload*` helpers and the loop over types |
| `conventions.dfy` | `Conventions` | the gore, sound and background passes |
| `load.dfy` | `Loading` | `Autoload` as a whole |
| `setup.dfy` | `Setup` | life bytes and alternate textures |

Conventions of the model:

- An exception becomes a `Fail`/`Err` value. The state changes made
  before the throw are kept, as they are in the program.
- Reflection is replaced by a record per type. The record holds:
  - its namespace and simple name;
  - whether it is abstract;
  - its recognised base classes;
  - which retired hooks it declares;
  - what its virtual `Autoload` hooks answer.
- The game's global asset look-up and the server flag come in as a
  `Host` value. `ModLoader.GetTexture`, `TextureExists`, `FileExists`
  and `GetSound` become membership tests on it. These look-ups answer
  for every loaded mod, this one included. `Assets.HostSeesOwn` states
  the link to this mod's own caches: every cached key answers under
  "Mod/path". The operations do not assume it. The contracts that rely
  on it say so.

## Model

All source paths are in `patches/tModLoader/Terraria.ModLoader/Mod.cs`.

| member | source | states |
|---|---|---|
| Mods.Mod.AddItem | patches/tModLoader/Terraria.ModLoader/Mod.cs:310-343 | A retired PreDrawInWorld/PostDrawInWorld hook fails with OldHook and changes nothing. Otherwise a fresh item ID is reserved and the name stamped. A name already in the table then fails with DuplicateName, leaving the ID reserved and the tables unchanged. On success the item is stored and listed, its texture and owner are set, quest fish are recorded, and GetItem/ItemType return it |
| Mods.Mod.GetItem | patches/tModLoader/Terraria.ModLoader/Mod.cs:345-355 | Some exactly when the name is registered, and then the stored item |
| Mods.Mod.ItemType | patches/tModLoader/Terraria.ModLoader/Mod.cs:357-365 | the stored item's ID, 0 for an unknown name |
| Mods.Mod.AddGlobalItem | patches/tModLoader/Terraria.ModLoader/Mod.cs:372-394 | refused with OldHook and no change when a retired hook is declared; otherwise stored under the name and appended to the global list |
| Mods.Mod.GetGlobalItem | patches/tModLoader/Terraria.ModLoader/Mod.cs:396-406 | Some exactly when registered, then the stored hook |
| Mods.Mod.AddItemInfo | patches/tModLoader/Terraria.ModLoader/Mod.cs:408-414 | the info is stamped with its name and owner and appended to the list, "Mod:name" indexes its position, and that position holds the info |
| Mods.Mod.AddEquipTexture | patches/tModLoader/Terraria.ModLoader/Mod.cs:422-447 | A fresh slot in the equip type's pool, with the equip texture stamped and stored under (type, slot) and under its name. The texture must resolve; a body also records its arm and female textures (an empty female texture falls back to the main one) and needs both to resolve. Head, body and legs link the slot to the item. The result is the slot exactly when every needed texture resolves, otherwise the first missing one |
| Mods.Mod.StoreEquipTexture | patches/tModLoader/Terraria.ModLoader/Mod.cs:424-431 | the slot is fresh, and the stamping and storing happen before any texture is resolved |
| Mods.Mod.GetEquipTexture | patches/tModLoader/Terraria.ModLoader/Mod.cs:449-459 | Some exactly when registered, then the stored equip texture |
| Mods.Mod.GetEquipSlot | patches/tModLoader/Terraria.ModLoader/Mod.cs:461-469 | the stored slot, -1 for an unknown name |
| Mods.Mod.AddFlameTexture | patches/tModLoader/Terraria.ModLoader/Mod.cs:476-480 | passes exactly when the texture resolves; only then is it set on the item |
| Mods.Mod.AddDust | patches/tModLoader/Terraria.ModLoader/Mod.cs:536-545 | The ID is reserved and the dust listed before its texture is checked. A non-empty texture that does not resolve fails, and the dust never reaches the mod's table. An empty texture selects the vanilla dust sheet. On success DustType returns the ID |
| Mods.Mod.GetDust | patches/tModLoader/Terraria.ModLoader/Mod.cs:547-557 | Some exactly when registered, then the stored dust |
| Mods.Mod.DustType | patches/tModLoader/Terraria.ModLoader/Mod.cs:559-567 | the stored ID, 0 for an unknown name |
| Mods.Mod.AddTile | patches/tModLoader/Terraria.ModLoader/Mod.cs:586-595 | a fresh tile ID, kept as an unsigned 16-bit value; name, texture and owner stamped; stored and listed |
| Mods.Mod.GetTile | patches/tModLoader/Terraria.ModLoader/Mod.cs:597-607 | Some exactly when registered, then the stored tile |
| Mods.Mod.TileType | patches/tModLoader/Terraria.ModLoader/Mod.cs:609-617 | the stored type, 0 for an unknown name |
| Mods.Mod.AddGlobalTile | patches/tModLoader/Terraria.ModLoader/Mod.cs:624-630 | stored under the name and appended to the global list |
| Mods.Mod.GetGlobalTile | patches/tModLoader/Terraria.ModLoader/Mod.cs:632-642 | Some exactly when registered, then the stored hook |
| Mods.Mod.AddTileEntity | patches/tModLoader/Terraria.ModLoader/Mod.cs:667-676 | a fresh ID: Type keeps the whole ID and the saved type its low byte |
| Mods.Mod.GetTileEntity | patches/tModLoader/Terraria.ModLoader/Mod.cs:678-688 | Some exactly when registered, then the stored entity |
| Mods.Mod.TileEntityType | patches/tModLoader/Terraria.ModLoader/Mod.cs:690-698 | the stored Type, -1 for an unknown name |
| Mods.Mod.AddWall | patches/tModLoader/Terraria.ModLoader/Mod.cs:711-720 | a fresh wall ID, kept as an unsigned 16-bit value; stamped, stored and listed |
| Mods.Mod.GetWall | patches/tModLoader/Terraria.ModLoader/Mod.cs:722-732 | Some exactly when registered, then the stored wall |
| Mods.Mod.WallType | patches/tModLoader/Terraria.ModLoader/Mod.cs:734-742 | the stored type, 0 for an unknown name |
| Mods.Mod.AddGlobalWall | patches/tModLoader/Terraria.ModLoader/Mod.cs:749-755 | stored under the name and appended to the global list |
| Mods.Mod.GetGlobalWall | patches/tModLoader/Terraria.ModLoader/Mod.cs:757-767 | Some exactly when registered, then the stored hook |
| Mods.Mod.AddProjectile | patches/tModLoader/Terraria.ModLoader/Mod.cs:792-802 | a fresh projectile ID; stamped, stored and listed |
| Mods.Mod.GetProjectile | patches/tModLoader/Terraria.ModLoader/Mod.cs:804-814 | Some exactly when registered, then the stored projectile |
| Mods.Mod.ProjectileType | patches/tModLoader/Terraria.ModLoader/Mod.cs:816-824 | the stored ID, 0 for an unknown name |
| Mods.Mod.AddGlobalProjectile | patches/tModLoader/Terraria.ModLoader/Mod.cs:831-837 | stored under the name and appended to the global list |
| Mods.Mod.GetGlobalProjectile | patches/tModLoader/Terraria.ModLoader/Mod.cs:839-849 | Some exactly when registered, then the stored hook |
| Mods.Mod.AddProjectileInfo | patches/tModLoader/Terraria.ModLoader/Mod.cs:851-857 | the info is stamped with its name and owner and appended to the list, "Mod:name" indexes its position, and that position holds the info |
| Mods.Mod.AddNPC | patches/tModLoader/Terraria.ModLoader/Mod.cs:893-903 | a fresh NPC ID; name, texture, alternate textures and owner stamped; stored and listed |
| Mods.Mod.GetNPC | patches/tModLoader/Terraria.ModLoader/Mod.cs:905-915 | Some exactly when registered, then the stored NPC |
| Mods.Mod.NPCType | patches/tModLoader/Terraria.ModLoader/Mod.cs:917-925 | the stored ID, 0 for an unknown name |
| Mods.Mod.AddGlobalNPC | patches/tModLoader/Terraria.ModLoader/Mod.cs:932-938 | stored under the name and appended to the global list |
| Mods.Mod.GetGlobalNPC | patches/tModLoader/Terraria.ModLoader/Mod.cs:940-950 | Some exactly when registered, then the stored hook |
| Mods.Mod.AddNPCInfo | patches/tModLoader/Terraria.ModLoader/Mod.cs:952-958 | the info is stamped with its name and owner and appended to the list, "Mod:name" indexes its position, and that position holds the info |
| Mods.Mod.AddNPCHeadTexture | patches/tModLoader/Terraria.ModLoader/Mod.cs:960-974 | A fresh head slot is recorded under the texture. Off a dedicated server the call passes exactly when the texture resolves. On a dedicated server it passes exactly when its .png file exists. A failure comes after the slot is recorded, and only a pass links the slot and the NPC type both ways |
| Mods.Mod.AddBossHeadTexture | patches/tModLoader/Terraria.ModLoader/Mod.cs:976-981 | a fresh boss-head slot is recorded under the texture, which must resolve |
| Mods.Mod.AddPlayer | patches/tModLoader/Terraria.ModLoader/Mod.cs:1031-1045 | refused with OldHook and no change when CatchFish is declared; otherwise stored and listed |
| Mods.Mod.AddBuff | patches/tModLoader/Terraria.ModLoader/Mod.cs:1058-1067 | a fresh buff ID; stamped, stored and listed |
| Mods.Mod.GetBuff | patches/tModLoader/Terraria.ModLoader/Mod.cs:1069-1079 | Some exactly when registered, then the stored buff |
| Mods.Mod.BuffType | patches/tModLoader/Terraria.ModLoader/Mod.cs:1081-1089 | the stored ID, 0 for an unknown name |
| Mods.Mod.AddGlobalBuff | patches/tModLoader/Terraria.ModLoader/Mod.cs:1096-1102 | stored under the name and appended to the global list |
| Mods.Mod.GetGlobalBuff | patches/tModLoader/Terraria.ModLoader/Mod.cs:1104-1114 | Some exactly when registered, then the stored hook |
| Mods.Mod.AddMount | patches/tModLoader/Terraria.ModLoader/Mod.cs:1156-1208 | a fresh mount ID; stamped and stored, and the loader's table is indexed by that ID |
| Mods.Mod.GetMount | patches/tModLoader/Terraria.ModLoader/Mod.cs:1210-1220 | Some exactly when registered, then the stored mount |
| Mods.Mod.MountType | patches/tModLoader/Terraria.ModLoader/Mod.cs:1222-1230 | the stored ID, 0 for an unknown name |
| Mods.Mod.AddModWorld | patches/tModLoader/Terraria.ModLoader/Mod.cs:1237-1243 | stored under the name and appended to the world hooks |
| Mods.Mod.GetModWorld | patches/tModLoader/Terraria.ModLoader/Mod.cs:1256-1266 | Some exactly when registered, then the stored world |
| Mods.Mod.AddUgBgStyle | patches/tModLoader/Terraria.ModLoader/Mod.cs:1273-1281 | a fresh underground-background slot; stamped, stored and listed |
| Mods.Mod.GetUgBgStyle | patches/tModLoader/Terraria.ModLoader/Mod.cs:1283-1293 | Some exactly when registered, then the stored style |
| Mods.Mod.AddSurfaceBgStyle | patches/tModLoader/Terraria.ModLoader/Mod.cs:1306-1314 | a fresh surface-background slot; stamped, stored and listed |
| Mods.Mod.GetSurfaceBgStyle | patches/tModLoader/Terraria.ModLoader/Mod.cs:1316-1326 | Some exactly when registered, then the stored style |
| Mods.Mod.GetSurfaceBgStyleSlot | patches/tModLoader/Terraria.ModLoader/Mod.cs:1328-1332 | the stored slot, -1 for an unknown name |
| Mods.Mod.AddGlobalBgStyle | patches/tModLoader/Terraria.ModLoader/Mod.cs:1345-1351 | stored under the name and appended to the global list |
| Mods.Mod.GetGlobalBgStyle | patches/tModLoader/Terraria.ModLoader/Mod.cs:1353-1363 | Some exactly when registered, then the stored hook |
| Mods.Mod.AddWaterStyle | patches/tModLoader/Terraria.ModLoader/Mod.cs:1376-1386 | a fresh water-style ID; texture and block texture stamped; stored and listed |
| Mods.Mod.GetWaterStyle | patches/tModLoader/Terraria.ModLoader/Mod.cs:1388-1398 | Some exactly when registered, then the stored style |
| Mods.Mod.AddWaterfallStyle | patches/tModLoader/Terraria.ModLoader/Mod.cs:1413-1422 | a fresh waterfall-style ID; stamped, stored and listed |
| Mods.Mod.GetWaterfallStyle | patches/tModLoader/Terraria.ModLoader/Mod.cs:1424-1434 | Some exactly when registered, then the stored style |
| Mods.Mod.GetWaterfallStyleSlot | patches/tModLoader/Terraria.ModLoader/Mod.cs:1436-1440 | the stored ID, -1 for an unknown name |
| Mods.Mod.AddGore | patches/tModLoader/Terraria.ModLoader/Mod.cs:1454-1462 | a fresh gore ID under the texture; a behaviour class, when given, is recorded under that ID, which had none before |
| Mods.Mod.GetGoreSlot | patches/tModLoader/Terraria.ModLoader/Mod.cs:1464-1467 | the ID registered under "Mod/name", and None when there is none |
| Mods.Mod.AddSound | patches/tModLoader/Terraria.ModLoader/Mod.cs:1488-1497 | A fresh ID in the sound type's pool is stored under the path. A behaviour class, when given, is recorded under that ID and bound to the sound, and fails with MissingResource when the sound does not resolve |
| Mods.Mod.GetSoundSlot | patches/tModLoader/Terraria.ModLoader/Mod.cs:1499-1502 | the ID registered for (type, "Mod/name"), and None when there is none |
| Mods.Mod.AddBackgroundTexture | patches/tModLoader/Terraria.ModLoader/Mod.cs:1541-1546 | a fresh background slot is stored under the texture, and the call passes exactly when the texture resolves |
| Mods.Mod.GetBackgroundSlot | patches/tModLoader/Terraria.ModLoader/Mod.cs:1548-1551 | the slot registered under "Mod/name", and None when there is none |
| Mods.Mod.AddGlobalRecipe | patches/tModLoader/Terraria.ModLoader/Mod.cs:1561-1567 | stored under the name and appended to the recipe hooks |
| Mods.Mod.GetGlobalRecipe | patches/tModLoader/Terraria.ModLoader/Mod.cs:1589-1599 | Some exactly when registered, then the stored hook |
| Mods.Mod.AddMusicBox | patches/tModLoader/Terraria.ModLoader/Mod.cs:1601-1651 | The call fails exactly when MusicBoxes.FirstFailure finds a failing check, and reports that check. A failure changes nothing, except that a frame that is not a multiple of 36 leaves behind the empty frame table created for a new tile. Otherwise the call binds music to item, item to music, and (tile, frame) to music |
| Mods.Mod.UnloadContent | patches/tModLoader/Terraria.ModLoader/Mod.cs:1774-1800 | Empties every content table except players and mounts, which stay as they are, as do the asset caches. Afterwards ItemType, TileType, WallType, ProjectileType, NPCType, BuffType and DustType answer 0 for every name (MountType is not among them: mounts stay), and TileEntityType, GetEquipSlot, GetSurfaceBgStyleSlot and GetWaterfallStyleSlot answer -1 |
| Mods.LegacyHook | patches/tModLoader/Terraria.ModLoader/Mod.cs:315-326 | Some exactly when the class declares one of the probed signatures; the answer is the first such one in probe order |
| MusicBoxes.FirstFailure | patches/tModLoader/Terraria.ModLoader/Mod.cs:1603-1645 | None exactly when every check passes. A vanilla music slot is reported first, then a vanilla item. A frame that is not a multiple of 36 always fails. The out-of-range checks are exactly those raised as ArgumentOutOfRangeException |
| MusicBoxes.BindKeepsConsistent | patches/tModLoader/Terraria.ModLoader/Mod.cs:1646-1650 | binding an admissible music box keeps the three tables mutually consistent, and changes the music at that (tile, frame) only |
| MusicBoxes.EmptyConsistent | patches/tModLoader/Terraria.ModLoader/Mod.cs:1646-1650 | the empty tables are consistent |
| Assets.AssetCache.LoadArchive | patches/tModLoader/Terraria.ModLoader/Mod.cs:89-157 | the files are read in order until the first image the graphics library refuses; it fails exactly when there is one, with ImageDecode naming that file, and the caches become LoadAll over the files before it (over all of them when none is refused) |
| Assets.ArchiveStop | patches/tModLoader/Terraria.ModLoader/Mod.cs:97-104 | where reading the archive stops: no image before it is refused, and the file at it, when there is one, is a refused image |
| Assets.AssetCache.LoadFile | patches/tModLoader/Terraria.ModLoader/Mod.cs:93-155 | one file that is not a refused image enters the caches as LoadEntry says |
| Assets.LoadedTextures | patches/tModLoader/Terraria.ModLoader/Mod.cs:95-105 | after the archive pass a key is a texture exactly when it was one before or some .png file has that key without its extension. Such a key holds the bytes of the last .png file with that key, tagged "Mod/key"; every other key keeps its old texture |
| Assets.LoadedSounds | patches/tModLoader/Terraria.ModLoader/Mod.cs:106-134 | after the archive pass a key is a sound exactly when it was one before or some .wav or .mp3 file has that key without its extension. Such a key comes from the last such file: its sound when the file decodes, and None (null) exactly when it does not. Every other key keeps its old entry |
| Assets.LoadEntrySounds | patches/tModLoader/Terraria.ModLoader/Mod.cs:106-134 | one file sets the sound under its key exactly when it is a .wav or .mp3, to None when it does not decode, and keeps the others |
| Assets.LastImage | patches/tModLoader/Terraria.ModLoader/Mod.cs:98-104 | some position exactly when a .png file has the key, and then a .png file with that key |
| Assets.LastImageIsLast | patches/tModLoader/Terraria.ModLoader/Mod.cs:98-104 | no later file is a .png with that key, so LastImage finds the last one |
| Assets.LastSound | patches/tModLoader/Terraria.ModLoader/Mod.cs:106-134 | some position exactly when a .wav or .mp3 file has the key, and then such a file |
| Assets.LastSoundIsLast | patches/tModLoader/Terraria.ModLoader/Mod.cs:106-134 | no later file is a .wav or .mp3 with that key, so LastSound finds the last one |
| Assets.LoadedFonts | patches/tModLoader/Terraria.ModLoader/Mod.cs:135-155 | a key is a font exactly when it was one before or some .xnb file under Fonts/ has that key |
| Assets.LoadEntryTextures | patches/tModLoader/Terraria.ModLoader/Mod.cs:98-104 | one file adds or replaces the texture under its key exactly when it is a .png, and keeps the others |
| Assets.LoadEntryFonts | patches/tModLoader/Terraria.ModLoader/Mod.cs:135-155 | one file adds or replaces a font exactly when it is an .xnb under Fonts/ |
| Assets.ImageAtIndex | patches/tModLoader/Terraria.ModLoader/Mod.cs:91-105 | a .png anywhere in the archive counts as an image for its key |
| Assets.ImageLoadedUnderKey | patches/tModLoader/Terraria.ModLoader/Mod.cs:98-103 | a .png file's texture is cached under its path without the extension |
| Assets.AssetCache.GetTexture | patches/tModLoader/Terraria.ModLoader/Mod.cs:1812-1819 | the cached texture, or MissingResource exactly when absent |
| Assets.AssetCache.TextureExists | patches/tModLoader/Terraria.ModLoader/Mod.cs:1821-1824 | true exactly when GetTexture succeeds |
| Assets.AssetCache.AddTexture | patches/tModLoader/Terraria.ModLoader/Mod.cs:1826-1832 | fails, changing nothing, exactly when the name exists; otherwise the texture is added and GetTexture returns it |
| Assets.AssetCache.GetSound | patches/tModLoader/Terraria.ModLoader/Mod.cs:1834-1841 | the cached sound (possibly null), or MissingResource exactly when absent |
| Assets.AssetCache.SoundExists | patches/tModLoader/Terraria.ModLoader/Mod.cs:1843-1846 | true exactly when GetSound succeeds |
| Assets.AssetCache.GetFont | patches/tModLoader/Terraria.ModLoader/Mod.cs:1848-1855 | the cached font (possibly null), or MissingResource exactly when absent |
| Assets.AssetCache.FontExists | patches/tModLoader/Terraria.ModLoader/Mod.cs:1857-1860 | true exactly when GetFont succeeds |
| Paths.DotIndex | patches/tModLoader/Terraria.ModLoader/Mod.cs:95 | the position of the last dot after the last directory separator, if any |
| Paths.SplitExtension | patches/tModLoader/Terraria.ModLoader/Mod.cs:95-99 | a path with an extension is its stem followed by that extension, and the extension is a dot followed by no separator or dot |
| Paths.ExtensionRoundTrip | patches/tModLoader/Terraria.ModLoader/Mod.cs:95-99 | appending an extension to a key and splitting it again gives back the key and the extension |
| Paths.DotIndexOfSuffixed | patches/tModLoader/Terraria.ModLoader/Mod.cs:95 | the extension's dot is found at the end of the key |
| Paths.Replace | patches/tModLoader/Terraria.ModLoader/Mod.cs:487 | same length, each matching character replaced, none of it left |
| Paths.ReplaceAppend | patches/tModLoader/Terraria.ModLoader/Mod.cs:1481 | replacement distributes over concatenation |
| Paths.DefaultTexture | patches/tModLoader/Terraria.ModLoader/Mod.cs:487 | the default texture of a type has no dot and is as long as namespace, separator and name together |
| Paths.DefaultTextureParts | patches/tModLoader/Terraria.ModLoader/Mod.cs:487 | the default texture is the namespace with dots turned to slashes, a slash, then the name with its dots turned to slashes |
| Paths.Suffixed | patches/tModLoader/Terraria.ModLoader/Mod.cs:497-499 | the result is the texture, then an underscore, then exactly the tag, and nothing else |
| Paths.SuffixedInjective | patches/tModLoader/Terraria.ModLoader/Mod.cs:497-499 | different tags give different suffixed textures |
| Paths.Qualified | patches/tModLoader/Terraria.ModLoader/Mod.cs:1484 | "Mod/" followed by the path |
| Paths.FullNameIsDotted | patches/tModLoader/Terraria.ModLoader/Mod.cs:165 | Type.FullName, by which the types are sorted, equals the dotted Namespace + "." + Name used for textures exactly when the class is top-level in a named namespace |
| Paths.NestedNameLonger | patches/tModLoader/Terraria.ModLoader/Mod.cs:165 | a nested class's name is at least as long as its simple name plus one separator per enclosing class |
| Paths.QualifiedInjective | patches/tModLoader/Terraria.ModLoader/Mod.cs:1484 | different paths give different qualified names |
| Paths.ClassNameConventionsAgree | patches/tModLoader/Terraria.ModLoader/Mod.cs:1481-1531 | the gore pass's class name and the sound pass's class name for a path are the same string |
| Paths.SoundTypeOfFolder | patches/tModLoader/Terraria.ModLoader/Mod.cs:1512-1529 | Item, NPCHit, NPCKilled and Music exactly when the path after Sounds/ starts with that folder, and Custom exactly when it starts with none of them |
| Discovery.FirstBase | patches/tModLoader/Terraria.ModLoader/Mod.cs:171-286 | the earliest recognised base class in the else-if chain from position k on, and None exactly when there is none |
| Discovery.ClassifyIsLeastRank | patches/tModLoader/Terraria.ModLoader/Mod.cs:167-286 | a type is classified as c exactly when it is concrete, c is among its bases, and no base comes earlier in the chain. It is unclassified exactly when it is abstract or has no recognised base |
| Discovery.RankOfCategoryAt | patches/tModLoader/Terraria.ModLoader/Mod.cs:171-286 | the chain position of the base class at position k is k |
| Discovery.CategoryAtRank | patches/tModLoader/Terraria.ModLoader/Mod.cs:171-286 | every recognised base class sits at its own position in the chain |
| Discovery.SortByKeySorted | patches/tModLoader/Terraria.ModLoader/Mod.cs:165 | the visiting order is sorted by Type.FullName, ordinally compared |
| Discovery.SortByKeyCorrect | patches/tModLoader/Terraria.ModLoader/Mod.cs:165 | types are visited in order of Type.FullName (no leading dot in the global namespace, "+" before a nested class), ordinally compared: the result is sorted and a permutation of the input |
| Discovery.InsertSorted | patches/tModLoader/Terraria.ModLoader/Mod.cs:165 | inserting into a sorted sequence keeps it sorted |
| Discovery.InsertPermutes | patches/tModLoader/Terraria.ModLoader/Mod.cs:165 | inserting adds exactly that element |
| Discovery.NameLeTotal | patches/tModLoader/Terraria.ModLoader/Mod.cs:165 | ordinal order on names is total |
| Discovery.NameLeTransitive | patches/tModLoader/Terraria.ModLoader/Mod.cs:165 | ordinal order on names is transitive |
| Discovery.ItemTexturesDistinct | patches/tModLoader/Terraria.ModLoader/Mod.cs:497-499 | When the hooks keep the defaults, an item's equip, arm and female textures differ from each other, from its flame texture and from its main texture, and the equip textures of different equip types differ |
| Discovery.EquipNamesAreNotTags | patches/tModLoader/Terraria.ModLoader/Mod.cs:497-505 | no equip type is named Arms, FemaleBody or Flame |
| Discovery.NPCHeadTexturesFromDefault | patches/tModLoader/Terraria.ModLoader/Mod.cs:994-995 | when the hooks keep the defaults, the boss-head texture is the head texture with "_Boss" appended, and differs from it |
| Autoloading.AutoloadItem | patches/tModLoader/Terraria.ModLoader/Mod.cs:482-512 | When the item's hook declines, nothing changes. Otherwise it fails exactly when the class declares a retired hook, its loaded name is already an item, or some requested equip texture (with the arm and female textures of a body) does not resolve. On success the item is under its loaded name and texture, each requested equip type's slot in the item's table holds the texture AutoloadEquip names, a body slot also its arm and female textures, and the flame texture is set when it resolves. On success the item names gain exactly its loaded name |
| Autoloading.AutoloadEquips | patches/tModLoader/Terraria.ModLoader/Mod.cs:492-504 | the item gets an equip-slot table; the loop fails exactly when some requested equip type's textures do not resolve, and on success every requested type's slot is recorded and holds exactly that type's textures |
| Autoloading.RecordEquip | patches/tModLoader/Terraria.ModLoader/Mod.cs:497-502 | one step of the equip loop: it succeeds exactly when this equip type's textures resolve, and then every equip type so far has a fresh slot holding its own textures |
| Autoloading.LoadEquip | patches/tModLoader/Terraria.ModLoader/Mod.cs:501 | AddEquipTexture on a new EquipTexture: a slot is given exactly when the textures resolve; it is fresh in its pool, and the slot's texture, arm and female entries become this type's and nothing else's |
| Autoloading.NameEquip | patches/tModLoader/Terraria.ModLoader/Mod.cs:497-502 | adding one more equip texture under a fresh slot keeps every earlier equip type's slot and textures and records the new one |
| Autoloading.AutoloadItemTextures | patches/tModLoader/Terraria.ModLoader/Mod.cs:490-510 | the equip textures and then the flame texture: fails exactly when a requested equip texture does not resolve; on success every requested type is named in the registry and the flame texture is set when it resolves |
| Autoloading.FemaleOrBody | patches/tModLoader/Terraria.ModLoader/Mod.cs:438 | the female body texture falls back to the body texture when it is empty |
| Autoloading.EquipTextureMap | patches/tModLoader/Terraria.ModLoader/Mod.cs:495-500 | each requested equip type maps to the textures AutoloadEquip answers for it |
| Autoloading.QuietGroups | patches/tModLoader/Terraria.ModLoader/Mod.cs:183-282 | tile, world, info and unrecognised types never throw |
| Autoloading.LastGroupsThrow | patches/tModLoader/Terraria.ModLoader/Mod.cs:219-282 | among the player, world and info categories only a player class with a retired hook throws |
| Autoloading.ThrowsGrows | patches/tModLoader/Terraria.ModLoader/Mod.cs:331-334 | a type that throws against some item table also throws against any larger one |
| Autoloading.AutoloadNext | patches/tModLoader/Terraria.ModLoader/Mod.cs:165-286 | one iteration of the loop, reached with the item table holding NamesBefore at that index: it fails exactly when this type throws against those names (ThrowsAt); otherwise the loop has progressed by one: this type is registered too, the item names become NamesBefore at the next index, and a gore or sound type is appended to its list |
| Autoloading.AutoloadGlobalItem | patches/tModLoader/Terraria.ModLoader/Mod.cs:514-523 | fails exactly when the hook agrees and a retired hook is declared; otherwise the hook is registered under its loaded name; the item table is untouched |
| Autoloading.AutoloadItemInfo | patches/tModLoader/Terraria.ModLoader/Mod.cs:525-534 | When the hook agrees, one fresh info is appended to the list, stamped with the loaded name and the mod, and "Mod:name" indexes its position. When the hook declines, the list and the index are unchanged |
| Autoloading.AutoloadDust | patches/tModLoader/Terraria.ModLoader/Mod.cs:574-584 | fails exactly when the hook agrees and a non-empty texture does not resolve; otherwise registered; the item table is untouched |
| Autoloading.AutoloadTile | patches/tModLoader/Terraria.ModLoader/Mod.cs:644-654 | registered under the loaded name and texture when the hook agrees; nothing changes otherwise |
| Autoloading.AutoloadGlobalTile | patches/tModLoader/Terraria.ModLoader/Mod.cs:656-665 | registered when the hook agrees; nothing changes otherwise |
| Autoloading.AutoloadTileEntity | patches/tModLoader/Terraria.ModLoader/Mod.cs:700-709 | registered when the hook agrees; nothing changes otherwise |
| Autoloading.AutoloadWall | patches/tModLoader/Terraria.ModLoader/Mod.cs:769-779 | registered under the loaded name and texture when the hook agrees; nothing changes otherwise |
| Autoloading.AutoloadGlobalWall | patches/tModLoader/Terraria.ModLoader/Mod.cs:781-790 | registered when the hook agrees; nothing changes otherwise |
| Autoloading.AutoloadProjectile | patches/tModLoader/Terraria.ModLoader/Mod.cs:859-869 | registered under the loaded name and texture when the hook agrees; nothing changes otherwise |
| Autoloading.AutoloadGlobalProjectile | patches/tModLoader/Terraria.ModLoader/Mod.cs:871-880 | registered when the hook agrees; nothing changes otherwise |
| Autoloading.AutoloadProjectileInfo | patches/tModLoader/Terraria.ModLoader/Mod.cs:882-891 | When the hook agrees, one fresh info is appended to the list, stamped with the loaded name and the mod, and "Mod:name" indexes its position. When the hook declines, the list and the index are unchanged |
| Autoloading.AutoloadNPC | patches/tModLoader/Terraria.ModLoader/Mod.cs:983-1007 | When the hook agrees, the NPC is added with its loaded texture and alternate textures. Its head texture is added when it resolves, or when its file exists on a dedicated server. Its boss-head texture is added when it resolves, and the boss head is then linked to the NPC |
| Autoloading.AutoloadNPCHeads | patches/tModLoader/Terraria.ModLoader/Mod.cs:994-1005 | The head texture is added when it resolves, or when its file exists on a dedicated server; that fails exactly when the texture resolves on a dedicated server whose file is missing. The boss-head texture is added when it resolves, and the NPC is linked to its boss-head slot |
| Autoloading.AutoloadGlobalNPC | patches/tModLoader/Terraria.ModLoader/Mod.cs:1009-1018 | registered when the hook agrees; nothing changes otherwise |
| Autoloading.AutoloadNPCInfo | patches/tModLoader/Terraria.ModLoader/Mod.cs:1020-1029 | When the hook agrees, one fresh info is appended to the list, stamped with the loaded name and the mod, and "Mod:name" indexes its position. When the hook declines, the list and the index are unchanged |
| Autoloading.AutoloadPlayer | patches/tModLoader/Terraria.ModLoader/Mod.cs:1047-1056 | fails exactly when the hook agrees and CatchFish is declared; otherwise registered |
| Autoloading.AutoloadBuff | patches/tModLoader/Terraria.ModLoader/Mod.cs:1116-1126 | registered under the loaded name and texture when the hook agrees; nothing changes otherwise |
| Autoloading.AutoloadGlobalBuff | patches/tModLoader/Terraria.ModLoader/Mod.cs:1128-1137 | registered when the hook agrees; nothing changes otherwise |
| Autoloading.AutoloadMountData | patches/tModLoader/Terraria.ModLoader/Mod.cs:1139-1154 | registered under the loaded name and texture when the hook agrees; nothing changes otherwise |
| Autoloading.AutoloadModWorld | patches/tModLoader/Terraria.ModLoader/Mod.cs:1245-1254 | registered when the hook agrees; nothing changes otherwise |
| Autoloading.AutoloadUgBgStyle | patches/tModLoader/Terraria.ModLoader/Mod.cs:1295-1304 | registered when the hook agrees; nothing changes otherwise |
| Autoloading.AutoloadSurfaceBgStyle | patches/tModLoader/Terraria.ModLoader/Mod.cs:1334-1343 | registered when the hook agrees; nothing changes otherwise |
| Autoloading.AutoloadGlobalBgStyle | patches/tModLoader/Terraria.ModLoader/Mod.cs:1365-1374 | registered when the hook agrees; nothing changes otherwise |
| Autoloading.AutoloadWaterStyle | patches/tModLoader/Terraria.ModLoader/Mod.cs:1400-1411 | registered with the loaded texture and block texture when the hook agrees (the block texture defaults to the default texture with "_Block"); nothing changes otherwise |
| Autoloading.AutoloadWaterfallStyle | patches/tModLoader/Terraria.ModLoader/Mod.cs:1442-1452 | registered under the loaded name and texture when the hook agrees; nothing changes otherwise |
| Autoloading.AutoloadGlobalRecipe | patches/tModLoader/Terraria.ModLoader/Mod.cs:1569-1578 | registered when the hook agrees; nothing changes otherwise |
| Autoloading.AutoloadType | patches/tModLoader/Terraria.ModLoader/Mod.cs:167-286 | one step of the loop: an abstract or unrecognised type is skipped; a type that loads ends up in its category's table, and the tables only grow. It fails exactly when its category's helper throws: an item, global item or player class with a retired hook, an item whose name is taken or whose equip textures do not resolve, a dust whose texture does not resolve, or an NPC head missing on a dedicated server. On success the item names gain exactly the loaded name of an accepted item type and nothing else |
| Autoloading.AutoloadFirstGroups | patches/tModLoader/Terraria.ModLoader/Mod.cs:171-218 | dispatch of the item, tile and entity categories: the type is registered when it loads, the tables only grow, it fails exactly when the category's helper throws, and on success the item names gain exactly an accepted item's loaded name |
| Autoloading.AutoloadLastGroups | patches/tModLoader/Terraria.ModLoader/Mod.cs:219-282 | dispatch of the player, world and info categories: the type is registered when it loads, the tables only grow, and it fails exactly when it is a player class that loads and declares a retired hook |
| Autoloading.AutoloadItemGroup | patches/tModLoader/Terraria.ModLoader/Mod.cs:171-182 | item, global item and dust types are registered when they load and fail exactly when their helper throws; on success the item names gain exactly an accepted item's loaded name |
| Autoloading.AutoloadTileGroup | patches/tModLoader/Terraria.ModLoader/Mod.cs:183-202 | tile, global tile, tile entity, wall and global wall types are registered when they load |
| Autoloading.AutoloadEntityGroup | patches/tModLoader/Terraria.ModLoader/Mod.cs:203-218 | projectile and NPC types are registered when they load; it fails exactly when an NPC's head texture is missing on a dedicated server |
| Autoloading.AutoloadPlayerGroup | patches/tModLoader/Terraria.ModLoader/Mod.cs:219-234 | player, buff, global buff and mount types are registered when they load; it fails exactly when a player class that loads declares a retired hook |
| Autoloading.AutoloadWorldGroup | patches/tModLoader/Terraria.ModLoader/Mod.cs:255-282 | world, background, water, waterfall and global recipe types are registered when they load |
| Autoloading.GroupOf | patches/tModLoader/Terraria.ModLoader/Mod.cs:171-282 | each category belongs to exactly one group of the dispatch, and belongs to a group exactly when the group's category test holds |
| Autoloading.GroupKeysGrow | patches/tModLoader/Terraria.ModLoader/Mod.cs:171-282 | when every group of tables keeps its names, so does every category |
| Autoloading.GrowsInOneGroup | patches/tModLoader/Terraria.ModLoader/Mod.cs:171-282 | a dispatch step that only grows the tables of one group and leaves the other groups as they were grows all the tables |
| Autoloading.AutoloadClasses | patches/tModLoader/Terraria.ModLoader/Mod.cs:163-287 | The loop over the types, in the given order. It succeeds exactly when no type throws when its turn comes, measured against the item names registered by then (NamesBefore); on failure there is a first type that throws, none before it having thrown. On success every type that loads is registered under its loaded name in its category's table, the item names are the old ones plus those of the accepted item types, the gore and sound types come back in visiting order, and the tables only grow |
| Autoloading.ItemNamesAfter | patches/tModLoader/Terraria.ModLoader/Mod.cs:331-334 | a type adds at most its own loaded name to the item names, and only an item type that Autoload accepts adds it |
| Autoloading.NamesBefore | patches/tModLoader/Terraria.ModLoader/Mod.cs:165-286 | the item names registered when the loop reaches a type include those it started from |
| Autoloading.NamesBeforeAccepted | patches/tModLoader/Terraria.ModLoader/Mod.cs:165-286 | the names registered before a type are the starting names plus the loaded names of the accepted item types before it |
| Autoloading.AutoloadCategory | patches/tModLoader/Terraria.ModLoader/Mod.cs:171-282 | dispatch of a keyed category: the type is registered when it loads, the tables only grow, it fails exactly when the helper throws, and on success the item names gain exactly an accepted item's loaded name |
| Autoloading.AutoloadPlacedGroups | patches/tModLoader/Terraria.ModLoader/Mod.cs:183-218 | dispatch of the tile and entity categories: registered when it loads, only their tables grow, and it fails exactly when the helper throws |
| Autoloading.OfCategoryMembers | patches/tModLoader/Terraria.ModLoader/Mod.cs:247-254 | a type is in the collected gore or sound list exactly when it is one of the input types and is classified in that category |
| Autoloading.RegisteredSameTypes | patches/tModLoader/Terraria.ModLoader/Mod.cs:165 | whether every type is registered does not depend on the order of the types |
| Autoloading.RegisteredGrows | patches/tModLoader/Terraria.ModLoader/Mod.cs:165-287 | growing tables keep every type registered |
| Autoloading.GrowsTransitive | patches/tModLoader/Terraria.ModLoader/Mod.cs:165-287 | table growth composes across loop steps |
| Conventions.AutoloadGores | patches/tModLoader/Terraria.ModLoader/Mod.cs:1474-1486 | Two gore classes with the same full name fail with DuplicateKey and change nothing. Otherwise every cached texture under Gores/ gets a fresh, distinct gore ID under "Mod/path". A behaviour hook exists exactly when a class is named after the path with slashes turned to dots. Earlier entries are kept |
| Conventions.AddGores | patches/tModLoader/Terraria.ModLoader/Mod.cs:1476-1485 | the loop over the Gores/ textures, in any order, reaching the state AutoloadGores states |
| Conventions.GoreStep | patches/tModLoader/Terraria.ModLoader/Mod.cs:1478-1484 | one more gore registered keeps the earlier ones loaded |
| Conventions.DistinctStep | patches/tModLoader/Terraria.ModLoader/Mod.cs:1484 | one more fresh ID keeps the IDs of the pass distinct |
| Conventions.NamesStep | patches/tModLoader/Terraria.ModLoader/Mod.cs:1484 | one more qualified key keeps the table's keys equal to the earlier ones plus the qualified keys done |
| Conventions.QualifiedAllAdd | patches/tModLoader/Terraria.ModLoader/Mod.cs:1484 | qualifying a set with one more path adds exactly that qualified path |
| Conventions.FirstRepeatDistinct | patches/tModLoader/Terraria.ModLoader/Mod.cs:1476 | the dictionary of classes builds exactly when the full names are distinct, and a reported duplicate occurs among the classes |
| Conventions.ClassNamed | patches/tModLoader/Terraria.ModLoader/Mod.cs:1481 | a class with the given full name when there is one, and None exactly when there is none |
| Conventions.WithPrefix | patches/tModLoader/Terraria.ModLoader/Mod.cs:1477 | exactly the cached keys under a folder; the gore, sound and background passes visit the keys under Gores/, Sounds/ (line 1512) and Backgrounds/ (line 1555) |
| Conventions.QualifiedAll | patches/tModLoader/Terraria.ModLoader/Mod.cs:1484 | exactly the "Mod/"-qualified paths |
| Conventions.AutoloadSounds | patches/tModLoader/Terraria.ModLoader/Mod.cs:1509-1539 | Two sound classes with the same full name fail with DuplicateKey and change nothing. Otherwise every cached sound under Sounds/ gets a fresh ID in its sub-folder's pool under "Mod/path". A hook exists exactly when a class is named after the path. The pass succeeds exactly when every hooked sound resolves, and a failure names an unresolved one. When the host sees this mod's own sounds (HostSeesOwn), the pass succeeds exactly when no two sound classes share a name |
| Conventions.AddSounds | patches/tModLoader/Terraria.ModLoader/Mod.cs:1511-1538 | the loop over the Sounds/ keys, in any order, which in addition binds every hook to its sound |
| Conventions.AddSoundFile | patches/tModLoader/Terraria.ModLoader/Mod.cs:1513-1537 | one sound file: the sub-folder decides the pool, and the hook is created when a class is named after the path and bound when the sound resolves |
| Conventions.NewSoundHook | patches/tModLoader/Terraria.ModLoader/Mod.cs:1533-1535 | a fresh hook exactly when a class has the name, carrying that name |
| Conventions.SoundStep | patches/tModLoader/Terraria.ModLoader/Mod.cs:1536 | one more sound registered keeps the earlier ones loaded |
| Conventions.SoundNamesStep | patches/tModLoader/Terraria.ModLoader/Mod.cs:1536 | one more sound key keeps the sound table's keys equal to the earlier ones plus those done |
| Conventions.SoundKeyInjective | patches/tModLoader/Terraria.ModLoader/Mod.cs:1536 | different sound files give different (type, path) keys |
| Conventions.SoundKeysOf | patches/tModLoader/Terraria.ModLoader/Mod.cs:1536 | the keys of a set of sound files are exactly their (type, path) pairs |
| Conventions.AutoloadBackgrounds | patches/tModLoader/Terraria.ModLoader/Mod.cs:1553-1559 | every cached texture under Backgrounds/ gets a fresh, distinct slot under "Mod/path". The pass succeeds exactly when every such texture resolves, and a failure names one that does not. When the host sees this mod's own textures (HostSeesOwn), the pass always succeeds |
| Loading.Autoload | patches/tModLoader/Terraria.ModLoader/Mod.cs:82-300 | A declared ChatInput fails with OldHook and changes nothing. Otherwise the caches are filled from the archive unless this is a dedicated server or there is none, up to the first refused image; a refused image fails with ImageDecode and registers no content. Without an assembly nothing is registered. With one, it succeeds exactly when the class loop in full-name order meets no throwing type (ClassesLoad) and every requested pass succeeds; on success every loading type is registered, the item names gain exactly the accepted items' names, and the passes have loaded their gores, sounds and backgrounds |
| Loading.ReadArchive | patches/tModLoader/Terraria.ModLoader/Mod.cs:89-157 | the archive is read unless this is a dedicated server or there is none; it fails exactly when the archive holds a refused image, naming the first one |
| Loading.LoadCode | patches/tModLoader/Terraria.ModLoader/Mod.cs:163-299 | the class loop and then the passes, with the pass guarantees over the IDs issued during the whole load; it succeeds exactly when no type throws when its turn comes in full-name order and every requested pass succeeds |
| Loading.LoadClasses | patches/tModLoader/Terraria.ModLoader/Mod.cs:163-287 | the types are visited in full-name order; it succeeds exactly when none of them throws when its turn comes (ClassesLoad); the gore and sound lists are exactly those categories' types in that order, and on success the item names are the old ones plus the accepted items' names |
| Loading.ConventionPasses | patches/tModLoader/Terraria.ModLoader/Mod.cs:288-299 | Each pass runs only when its property is set. With none set, nothing changes. It succeeds exactly when every requested pass does (PassesSucceed): no gore or sound class is bound twice, every sound resolves, and every background texture resolves. On success the requested passes keep earlier entries and load their gores, sounds and backgrounds |
| Loading.OwnPassesSucceed | patches/tModLoader/Terraria.ModLoader/Mod.cs:1509-1559 | When the host sees this mod's own caches (HostSeesOwn), the convention passes succeed exactly when no requested gore or sound pass finds two classes sharing a name: the own-asset look-ups never fail |
| Loading.LoadedItemNamesSameTypes | patches/tModLoader/Terraria.ModLoader/Mod.cs:165 | the item names the loop adds depend only on which types there are, not on their order |
| Loading.GoresLoadedEarlier | patches/tModLoader/Terraria.ModLoader/Mod.cs:288-291 | the gore pass's guarantee still holds when measured from an earlier point of the load |
| Loading.SoundsLoadedEarlier | patches/tModLoader/Terraria.ModLoader/Mod.cs:292-295 | the sound pass's guarantee still holds when measured from an earlier point of the load |
| Loading.BackgroundsLoadedEarlier | patches/tModLoader/Terraria.ModLoader/Mod.cs:296-299 | the background pass's guarantee still holds when measured from an earlier point of the load |
| Setup.LifeBytes | patches/tModLoader/Terraria.ModLoader/Mod.cs:1725-1736 | 1, 2 or 4. It is 4 exactly for a boss or a maximum life over 32767, and 1 exactly for a non-boss with at most 127. For a non-boss it is the narrowest signed width that holds the maximum life |
| Setup.LifeBytesMonotonic | patches/tModLoader/Terraria.ModLoader/Mod.cs:1725-1736 | more life never means fewer bytes |
| Setup.SetupAltTextures | patches/tModLoader/Terraria.ModLoader/Mod.cs:1737-1746 | A count below -1, or int.MaxValue (whose 32-bit successor wraps to a negative length), fails with NegativeLength and no array. Otherwise the array has count + 1 slots. Slot 0 holds the main texture exactly when the count is positive. Slots 1 to k hold the list's textures up to the first that does not resolve. The outcome is AltTexturesOutcome |
| Setup.AltTexturesSucceed | patches/tModLoader/Terraria.ModLoader/Mod.cs:1737-1746 | setup succeeds exactly when the count is at least -1 and below int.MaxValue, and either it is at most 0 or the list is present, long enough, and every needed texture resolves |
| Setup.FirstUnresolved | patches/tModLoader/Terraria.ModLoader/Mod.cs:1743-1746 | the first slot that fails, with every slot before it resolving, and None exactly when all resolve |
| Setup.FirstUnresolvedAt | patches/tModLoader/Terraria.ModLoader/Mod.cs:1743-1746 | a scan that passes every slot before an unresolved one stops at that slot |
| Setup.SlotCount | patches/tModLoader/Terraria.ModLoader/Mod.cs:1738 | the array length count + 1 on 32-bit integers: it is negative exactly when the count is below -1 or is int.MaxValue, and equals count + 1 otherwise |
| Setup.SlotError | patches/tModLoader/Terraria.ModLoader/Mod.cs:1745 | a null list gives NullAltTextures and a short one AltTextureIndex; otherwise the error is MissingResource for an unresolved texture |
| Loaders.Allocator.Reserve | patches/tModLoader/Terraria.ModLoader/Mod.cs:327 | the reserved ID was never issued from that pool before, and it is the only one added |

## Left out

- I/O and decoding: reading the archive, the WAV and font cache files,
  and image, sound and font decoding. An archive entry carries a flag
  saying whether its image, sound or font decodes; GetFileBytes and
  FileExists read the archive and are not modelled.
- Reflection and instantiation. `Activator.CreateInstance` and the
  `Autoload` virtual hooks become fields of a type record. The hooks'
  answers are given, and they do not run code.
- The loaders' own code (ItemLoader, TileLoader, SoundLoader, ModGore,
  BackgroundTextureLoader, ...) is not part of this model. ID reservation
  is an abstract allocator that promises fresh IDs and nothing else.
- Writes into the game's global arrays in SetupContent (textures, names,
  frames, liquids, mounts), and the SetDefaults callbacks. Only the two
  per-NPC rules are kept.
- The loop of SetupContent over the NPC table is not modelled.
  Setup.SetupAltTextures is one NPC's iteration. The extra-texture count
  and the maximum life come in as parameters, because they come from
  SetDefaults, which is not modelled.
- AddCommand, GetPacket, Call, RegisterHotKey and AutoloadCommand are
  outside the modelled core. The dispatch still recognises command types
  and then does nothing with them.
- The generic look-ups (ItemType<T>() and the like) are ItemType applied
  to the class's simple name, and are not modelled separately.
- GetLegacySoundSlot wraps GetSoundSlot in a game sound style, and is not modelled.
- GetAccessorySlot's truncation to a signed byte is not modelled.
- Mods.Mod.AddMount: the per-equip extra textures of a mount are not modelled.
- Mods.Mod.GetGoreSlot, Mods.Mod.GetSoundSlot, Mods.Mod.GetBackgroundSlot:
  these answer None where the loader's own look-up returns its sentinel.
  That look-up is not part of this model.
- Dictionary iteration order in the convention passes is unspecified.
  The model picks keys in an arbitrary order, and its guarantees hold for any order.
- Type order: OrderBy on the full name uses the culture-sensitive string
  comparer. The model sorts ordinally, character by character.
- Conventions.AutoloadSounds: does not state that the sound IDs of one
  pass are distinct (the gore and background passes do). The binding of
  each hook to its sound is stated by Conventions.AddSounds only.
- Loading.Autoload: the pass tables' relation to their earlier entries
  is stated by Loading.ConventionPasses, not carried up to Autoload.
- Loading.LoadCode: like Loading.Autoload, it leaves the earlier-entry
  relation of the pass tables to Loading.ConventionPasses.
- Mods.Mod.UnloadContent: the call to the mod's own Unload() hook, which
  comes first, is not modelled; it runs the mod's code, which is outside
  the model, so the model clears the tables without it.
- Mods.Mod.AddBossHeadTexture: always issues a fresh boss-head slot.
  The slot comes from NPCHeadLoader.ReserveBossHeadSlot, which receives the
  texture and may hand back a slot already recorded for it; NPCHeadLoader
  is not part of this model.
- Concurrency: loading is single-threaded and nothing else is assumed.
