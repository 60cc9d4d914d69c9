/** A mod's asset cache: its textures, sounds and fonts by path, filled
    once from the mod's archive and then queried by name. Decoding is done
    by the game's graphics and audio libraries and is not modelled: an
    archive entry carries its bytes and whether the external decoder
    accepts them. */
module Assets {
  import opened Common
  import opened Paths

  type byte = bv8

  /** A decoded image, tagged "Mod/path" for diagnostics. */
  datatype Texture = Texture(name: string, data: seq<byte>)
  /** A decoded, playable sound. */
  datatype Sound = Sound(data: seq<byte>)
  /** A font, loaded by the resource name of its cached copy. */
  datatype Font = Font(resource: string)

  /** One file of the mod's archive; `decodes` says whether the image,
      sound or font library accepts its bytes. */
  datatype ArchiveEntry = ArchiveEntry(path: string, data: seq<byte>, decodes: bool)

  datatype Caches = Caches(
    textures: map<string, Texture>,
    sounds: map<string, Option<Sound>>,   // None: the sound could not be decoded (null)
    fonts: map<string, Option<Font>>)     // None: the font could not be loaded (null)

  const FontFolder: string := "Fonts/"

  /** Name of the cached font file, without extension: Mod_path_version with
      slashes of the path turned into underscores. */
  function FontCacheName(modName: string, key: string, version: string): string {
    modName + "_" + Replace(key, '/', '_') + "_" + version
  }

  /** The effect of one archive file on the caches, by its extension; the
      key is the path with the extension removed. A later file with the
      same key replaces an earlier one. */
  function LoadEntry(c: Caches, modName: string, version: string, e: ArchiveEntry): Caches {
    var ext, key := Extension(e.path), WithoutExtension(e.path);
    if ext == ".png" then
      c.(textures := c.textures[key := Texture(Qualified(modName, key), e.data)])
    else if ext == ".wav" || ext == ".mp3" then
      c.(sounds := c.sounds[key := if e.decodes then Some(Sound(e.data)) else None])
    else if ext == ".xnb" && StartsWith(key, FontFolder) then
      c.(fonts := c.fonts[key :=
        if e.decodes then Some(Font("Fonts/ModFonts/" + FontCacheName(modName, key, version))) else None])
    else c
  }

  /** The archive file `e` is an image the graphics library refuses; unlike
      a sound or a font, nothing catches that refusal. */
  predicate Undecodable(e: ArchiveEntry) {
    Extension(e.path) == ".png" && !e.decodes
  }

  /** Where reading the archive stops: the index of its first refused
      image, or its length when there is none. */
  function ArchiveStop(entries: seq<ArchiveEntry>): (n: nat)
    ensures n <= |entries|
    ensures forall i | 0 <= i < n :: !Undecodable(entries[i])
    ensures n < |entries| ==> Undecodable(entries[n])
  {
    if entries == [] || Undecodable(entries[0]) then 0 else 1 + ArchiveStop(entries[1..])
  }

  /** No image among entries[..i] is refused. */
  predicate Readable(entries: seq<ArchiveEntry>, i: nat)
    requires i <= |entries|
  {
    forall j | 0 <= j < i :: !Undecodable(entries[j])
  }

  /** Reading stops at the first refused image: at `i` when none before
      it is refused and it is, at the end when none is. */
  lemma StopsAt(entries: seq<ArchiveEntry>, i: nat)
    requires i <= |entries| && Readable(entries, i)
    requires i < |entries| ==> Undecodable(entries[i])
    ensures ArchiveStop(entries) == i
  {
  }

  /** The game's look-ups of "Mod/path" (ModLoader.GetTexture and
      GetSound) reach this mod's own caches: every cached texture and
      sound key answers under its qualified name. */
  predicate HostSeesOwn(modName: string, c: Caches, host: Host) {
    && (forall k | k in c.textures :: Qualified(modName, k) in host.textures)
    && (forall k | k in c.sounds :: Qualified(modName, k) in host.sounds)
  }

  /** The caches after the files of an archive are read in order. */
  function LoadAll(c: Caches, modName: string, version: string, entries: seq<ArchiveEntry>): Caches
    decreases |entries|
  {
    if entries == [] then c
    else LoadEntry(LoadAll(c, modName, version, entries[..|entries| - 1]), modName, version, entries[|entries| - 1])
  }

  /** The archive file `e` is an image stored under `key`. */
  predicate ImageFor(e: ArchiveEntry, key: string) {
    Extension(e.path) == ".png" && WithoutExtension(e.path) == key
  }

  /** The archive file `e` is a font stored under `key`: an .xnb file
      below Fonts/. */
  predicate FontFor(e: ArchiveEntry, key: string) {
    Extension(e.path) == ".xnb" && StartsWith(key, FontFolder) && WithoutExtension(e.path) == key
  }

  /** The archive file `e` is a sound stored under `key`: a .wav or .mp3 file. */
  predicate SoundFor(e: ArchiveEntry, key: string) {
    (Extension(e.path) == ".wav" || Extension(e.path) == ".mp3") && WithoutExtension(e.path) == key
  }

  /** Some file of the archive is an image stored under `key`. */
  predicate ImageAt(entries: seq<ArchiveEntry>, key: string)
    decreases |entries|
  {
    entries != [] && (ImageAt(entries[..|entries| - 1], key) || ImageFor(entries[|entries| - 1], key))
  }

  /** Some file of the archive is a font stored under `key`. */
  predicate FontAt(entries: seq<ArchiveEntry>, key: string)
    decreases |entries|
  {
    entries != [] && (FontAt(entries[..|entries| - 1], key) || FontFor(entries[|entries| - 1], key))
  }

  /** Some file of the archive is a sound stored under `key`. */
  predicate SoundAt(entries: seq<ArchiveEntry>, key: string)
    decreases |entries|
  {
    entries != [] && (SoundAt(entries[..|entries| - 1], key) || SoundFor(entries[|entries| - 1], key))
  }

  /** The position of the last image of the archive stored under `key`. */
  function LastImage(entries: seq<ArchiveEntry>, key: string): (r: Option<nat>)
    decreases |entries|
    ensures r.Some? <==> ImageAt(entries, key)
    ensures r.Some? ==> r.value < |entries| && ImageFor(entries[r.value], key)
  {
    if entries == [] then None
    else if ImageFor(entries[|entries| - 1], key) then Some(|entries| - 1)
    else LastImage(entries[..|entries| - 1], key)
  }

  /** No file after the one LastImage finds is an image stored under `key`. */
  lemma {:induction false} LastImageIsLast(entries: seq<ArchiveEntry>, key: string, j: nat)
    requires LastImage(entries, key).Some? && LastImage(entries, key).value < j < |entries|
    ensures !ImageFor(entries[j], key)
    decreases |entries|
  {
    if j < |entries| - 1 {
      var init := entries[..|entries| - 1];
      assert init[j] == entries[j];
      LastImageIsLast(init, key, j);
    }
  }

  /** The position of the last sound of the archive stored under `key`. */
  function LastSound(entries: seq<ArchiveEntry>, key: string): (r: Option<nat>)
    decreases |entries|
    ensures r.Some? <==> SoundAt(entries, key)
    ensures r.Some? ==> r.value < |entries| && SoundFor(entries[r.value], key)
  {
    if entries == [] then None
    else if SoundFor(entries[|entries| - 1], key) then Some(|entries| - 1)
    else LastSound(entries[..|entries| - 1], key)
  }

  /** No file after the one LastSound finds is a sound stored under `key`. */
  lemma {:induction false} LastSoundIsLast(entries: seq<ArchiveEntry>, key: string, j: nat)
    requires LastSound(entries, key).Some? && LastSound(entries, key).value < j < |entries|
    ensures !SoundFor(entries[j], key)
    decreases |entries|
  {
    if j < |entries| - 1 {
      var init := entries[..|entries| - 1];
      assert init[j] == entries[j];
      LastSoundIsLast(init, key, j);
    }
  }

  lemma {:induction false} ImageAtIndex(entries: seq<ArchiveEntry>, i: nat, key: string)
    requires i < |entries| && ImageFor(entries[i], key)
    ensures ImageAt(entries, key)
    decreases |entries|
  {
    if i < |entries| - 1 {
      assert entries[..|entries| - 1][i] == entries[i];
      ImageAtIndex(entries[..|entries| - 1], i, key);
    }
  }

  /** One file's effect on the texture cache. */
  lemma LoadEntryTextures(c: Caches, modName: string, version: string, e: ArchiveEntry, key: string)
    ensures key in LoadEntry(c, modName, version, e).textures <==> key in c.textures || ImageFor(e, key)
    ensures ImageFor(e, key) ==>
      LoadEntry(c, modName, version, e).textures[key] == Texture(Qualified(modName, key), e.data)
    ensures !ImageFor(e, key) && key in c.textures ==>
      LoadEntry(c, modName, version, e).textures[key] == c.textures[key]
  {
  }

  /** One file's effect on the sound cache. */
  lemma LoadEntrySounds(c: Caches, modName: string, version: string, e: ArchiveEntry, key: string)
    ensures key in LoadEntry(c, modName, version, e).sounds <==> key in c.sounds || SoundFor(e, key)
    ensures SoundFor(e, key) ==>
      LoadEntry(c, modName, version, e).sounds[key] == if e.decodes then Some(Sound(e.data)) else None
    ensures !SoundFor(e, key) && key in c.sounds ==>
      LoadEntry(c, modName, version, e).sounds[key] == c.sounds[key]
  {
  }

  /** One file's effect on the font cache. */
  lemma LoadEntryFonts(c: Caches, modName: string, version: string, e: ArchiveEntry, key: string)
    ensures key in LoadEntry(c, modName, version, e).fonts <==> key in c.fonts || FontFor(e, key)
  {
  }

  /** After loading, the texture keys are the old ones plus exactly the
      paths of the archive's .png files without their extension. A texture
      loaded from the archive holds the bytes of the last .png file with its
      key and is tagged with its qualified name; any other keeps its old value. */
  lemma {:induction false} LoadedTextures(c: Caches, modName: string, version: string,
                                          entries: seq<ArchiveEntry>, key: string)
    ensures key in LoadAll(c, modName, version, entries).textures <==> key in c.textures || ImageAt(entries, key)
    ensures ImageAt(entries, key) ==>
      LoadAll(c, modName, version, entries).textures[key] ==
        Texture(Qualified(modName, key), entries[LastImage(entries, key).value].data)
    ensures !ImageAt(entries, key) && key in c.textures ==>
      LoadAll(c, modName, version, entries).textures[key] == c.textures[key]
    decreases |entries|
  {
    if entries != [] {
      var init := entries[..|entries| - 1];
      LoadedTextures(c, modName, version, init, key);
      LoadEntryTextures(LoadAll(c, modName, version, init), modName, version, entries[|entries| - 1], key);
    }
  }

  /** After loading, the sound keys are the old ones plus exactly the paths
      of the archive's .wav and .mp3 files without their extension. A sound
      loaded from the archive comes from the last such file with its key: it
      is that file's sound when the file decodes and None (null) when it does
      not. Any other key keeps its old value. */
  lemma {:induction false} LoadedSounds(c: Caches, modName: string, version: string,
                                        entries: seq<ArchiveEntry>, key: string)
    ensures key in LoadAll(c, modName, version, entries).sounds <==> key in c.sounds || SoundAt(entries, key)
    ensures SoundAt(entries, key) ==>
      var last := entries[LastSound(entries, key).value];
      LoadAll(c, modName, version, entries).sounds[key] == if last.decodes then Some(Sound(last.data)) else None
    ensures !SoundAt(entries, key) && key in c.sounds ==>
      LoadAll(c, modName, version, entries).sounds[key] == c.sounds[key]
    decreases |entries|
  {
    if entries != [] {
      var init := entries[..|entries| - 1];
      LoadedSounds(c, modName, version, init, key);
      LoadEntrySounds(LoadAll(c, modName, version, init), modName, version, entries[|entries| - 1], key);
    }
  }

  /** After loading, the font keys are the old ones plus exactly the
      .xnb files under Fonts/; an .xnb file elsewhere loads nothing. */
  lemma {:induction false} LoadedFonts(c: Caches, modName: string, version: string,
                                       entries: seq<ArchiveEntry>, key: string)
    ensures key in LoadAll(c, modName, version, entries).fonts <==> key in c.fonts || FontAt(entries, key)
    decreases |entries|
  {
    if entries != [] {
      var init := entries[..|entries| - 1];
      LoadedFonts(c, modName, version, init, key);
      LoadEntryFonts(LoadAll(c, modName, version, init), modName, version, entries[|entries| - 1], key);
    }
  }

  /** A file named key + ".png" is loaded under `key`. */
  lemma ImageLoadedUnderKey(c: Caches, modName: string, version: string,
                            entries: seq<ArchiveEntry>, i: nat, key: string)
    requires i < |entries| && entries[i].path == key + ".png"
    ensures key in LoadAll(c, modName, version, entries).textures
  {
    ExtensionRoundTrip(key, ".png");
    ImageAtIndex(entries, i, key);
    LoadedTextures(c, modName, version, entries, key);
  }

  class AssetCache {
    var textures: map<string, Texture>
    var sounds: map<string, Option<Sound>>
    var fonts: map<string, Option<Font>>

    function Contents(): Caches
      reads this
    {
      Caches(textures, sounds, fonts)
    }

    constructor ()
      ensures Contents() == Caches(map[], map[], map[])
    {
      textures, sounds, fonts := map[], map[], map[];
    }

    /** Read the files of the archive in order into the caches; an image
      the graphics library refuses ends the reading with an exception,
      the files before it already read. */
    method LoadArchive(modName: string, version: string, entries: seq<ArchiveEntry>) returns (o: Outcome)
      modifies this
      ensures o.Fail? <==> ArchiveStop(entries) < |entries|
      ensures o.Fail? ==> o.error == ImageDecode(entries[ArchiveStop(entries)].path)
      ensures Contents() == LoadAll(old(Contents()), modName, version, entries[..ArchiveStop(entries)])
    {
      ghost var start := Contents();
      var i := 0;
      while i < |entries|
        invariant 0 <= i <= |entries|
        invariant Readable(entries, i)
        invariant Contents() == LoadAll(start, modName, version, entries[..i])
      {
        var e := entries[i];
        if Undecodable(e) {
          StopsAt(entries, i);
          return Fail(ImageDecode(e.path));
        }
        LoadFile(modName, version, e);
        assert Readable(entries, i + 1);
        assert entries[..i + 1][..i] == entries[..i];
        i := i + 1;
      }
      StopsAt(entries, i);
      assert entries[..i] == entries;
      o := Pass;
    }

    /** One file of the archive into the caches, by its extension. */
    method LoadFile(modName: string, version: string, e: ArchiveEntry)
      requires !Undecodable(e)
      modifies this
      ensures Contents() == LoadEntry(old(Contents()), modName, version, e)
    {
      var ext, key := Extension(e.path), WithoutExtension(e.path);
      if ext == ".png" {
        textures := textures[key := Texture(Qualified(modName, key), e.data)];
      } else if ext == ".wav" || ext == ".mp3" {
        sounds := sounds[key := if e.decodes then Some(Sound(e.data)) else None];
      } else if ext == ".xnb" {
        if StartsWith(key, FontFolder) {
          var font := if e.decodes then Some(Font("Fonts/ModFonts/" + FontCacheName(modName, key, version))) else None;
          fonts := fonts[key := font];
        }
      }
    }

    /** Mod.GetTexture: the texture, or MissingResourceException. */
    function GetTexture(name: string): (r: Result<Texture>)
      reads this
      ensures r.Err? <==> name !in textures
      ensures r.Ok? ==> r.value == textures[name]
      ensures r.Err? ==> r.error == MissingResource(name)
    {
      if name in textures then Ok(textures[name]) else Err(MissingResource(name))
    }

    function TextureExists(name: string): (r: bool)
      reads this
      ensures r <==> GetTexture(name).Ok?
    {
      name in textures
    }

    /** Mod.AddTexture: refuses a name already present, otherwise adds it
        and changes nothing else. */
    method AddTexture(name: string, texture: Texture) returns (o: Outcome)
      modifies this`textures
      ensures o == (if old(TextureExists(name)) then Fail(TextureAlreadyExists(name)) else Pass)
      ensures textures == if o.Pass? then old(textures)[name := texture] else old(textures)
      ensures o.Pass? ==> GetTexture(name) == Ok(texture)
    {
      if TextureExists(name) {
        return Fail(TextureAlreadyExists(name));
      }
      textures := textures[name := texture];
      o := Pass;
    }

    /** Mod.GetSound: the sound (None when it could not be decoded), or
        MissingResourceException. */
    function GetSound(name: string): (r: Result<Option<Sound>>)
      reads this
      ensures r.Err? <==> name !in sounds
      ensures r.Ok? ==> r.value == sounds[name]
      ensures r.Err? ==> r.error == MissingResource(name)
    {
      if name in sounds then Ok(sounds[name]) else Err(MissingResource(name))
    }

    function SoundExists(name: string): (r: bool)
      reads this
      ensures r <==> GetSound(name).Ok?
    {
      name in sounds
    }

    /** Mod.GetFont: the font (None when it could not be loaded), or
        MissingResourceException. */
    function GetFont(name: string): (r: Result<Option<Font>>)
      reads this
      ensures r.Err? <==> name !in fonts
      ensures r.Ok? ==> r.value == fonts[name]
      ensures r.Err? ==> r.error == MissingResource(name)
    {
      if name in fonts then Ok(fonts[name]) else Err(MissingResource(name))
    }

    function FontExists(name: string): (r: bool)
      reads this
      ensures r <==> GetFont(name).Ok?
    {
      name in fonts
    }
  }
}
