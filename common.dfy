/** Shared result types, the errors the mod loader raises, and the host-side
    services (other mods' assets, the archive, server mode) that the registry
    consults but that are not part of this model. */
module Common {

  datatype Option<+T> = None | Some(value: T) {
    function GetOr(default: T): T {
      match this
      case Some(v) => v
      case None => default
    }
  }

  /** Why a check in the music-box validator failed; the first six are
      raised as ArgumentOutOfRangeException, the last four as ArgumentException. */
  datatype MusicBoxCheck =
    | VanillaMusic | NoSuchMusic
    | VanillaItem | NoSuchItem
    | VanillaTile | NoSuchTile
    | MusicTaken | ItemTaken | FrameTaken | FrameNotMultiple
  {
    predicate IsOutOfRange() {
      this in {VanillaMusic, NoSuchMusic, VanillaItem, NoSuchItem, VanillaTile, NoSuchTile}
    }
  }

  /** The exceptions the registry throws. */
  datatype Error =
    | DuplicateName(name: string)          // AddItem on a name already in `items`
    | OldHook(hook: string)                // OldHookException: a retired hook signature
    | MissingResource(resource: string)    // MissingResourceException
    | TextureAlreadyExists(texture: string) // ModNameException from AddTexture
    | MusicBox(check: MusicBoxCheck)       // AddMusicBox validation
    | NullAltTextures                      // alt-texture list is null while the NPC needs some
    | AltTextureIndex(index: nat)          // alt-texture list shorter than the NPC needs
    | DuplicateKey(key: string)            // ArgumentException from building a dictionary
    | NegativeLength(length: int)          // OverflowException from allocating a negative-length array
    | ImageDecode(path: string)            // the graphics library refused an archive image

  datatype Outcome = Pass | Fail(error: Error)

  datatype Result<+T> = Ok(value: T) | Err(error: Error) {
    function ToOutcome(): Outcome {
      match this
      case Ok(_) => Pass
      case Err(e) => Fail(e)
    }
  }

  /** What the rest of the loader can resolve: texture, sound and file names
      across all loaded mods (ModLoader.GetTexture, TextureExists, GetSound,
      FileExists), and whether this is a dedicated server (Main.dedServ). */
  datatype Host = Host(
    textures: set<string>,
    sounds: set<string>,
    files: set<string>,
    dedicatedServer: bool)
}
