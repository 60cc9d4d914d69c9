/** Music boxes: a three-way binding between a modded music slot, a modded
    item and a frame of a modded tile, kept in SoundLoader's musicToItem,
    itemToMusic and tileToMusic[tile][frameY]. This module holds the
    validation AddMusicBox performs, in its fixed order, the binding it
    commits, and the consistency the three tables keep. */
module MusicBoxes {
  import opened Common

  /** Height of one tile frame in pixels; music-box frames start at multiples of it. */
  const FrameHeight: int := 36

  datatype Tables = Tables(
    musicToItem: map<int, int>,
    itemToMusic: map<int, int>,
    tileToMusic: map<int, map<int, int>>)

  /** What the validator reads from the rest of the loader for one call:
      the vanilla counts, the number of music slots, and whether the item
      and tile IDs name registered modded content. */
  datatype World = World(
    vanillaMusicCount: int, musicCount: int,
    vanillaItemCount: int, itemExists: bool,
    vanillaTileCount: int, tileExists: bool)

  predicate FrameBound(t: Tables, tile: int, frameY: int) {
    tile in t.tileToMusic && frameY in t.tileToMusic[tile]
  }

  /** Every condition a binding must meet, independent of checking order.
      Divisibility by 36 does not depend on the sign convention of `%`. */
  predicate Admissible(t: Tables, w: World, music: int, item: int, tile: int, frameY: int) {
    && w.vanillaMusicCount <= music < w.musicCount
    && w.vanillaItemCount <= item && w.itemExists
    && w.vanillaTileCount <= tile && w.tileExists
    && music !in t.musicToItem
    && item !in t.itemToMusic
    && !FrameBound(t, tile, frameY)
    && frameY % FrameHeight == 0
  }

  /** The first check AddMusicBox fails, in its order: music range, item
      range, tile range, then music, item and frame uniqueness, then the
      frame height; None when the binding is accepted. */
  function FirstFailure(t: Tables, w: World, music: int, item: int, tile: int, frameY: int)
    : (r: Option<MusicBoxCheck>)
    ensures r.None? <==> Admissible(t, w, music, item, tile, frameY)
    ensures music < w.vanillaMusicCount ==> r == Some(VanillaMusic)
    ensures item < w.vanillaItemCount && w.vanillaMusicCount <= music < w.musicCount ==> r == Some(VanillaItem)
    ensures frameY % FrameHeight != 0 ==> r.Some?
    ensures r.Some? && r.value.IsOutOfRange() <==>
      !(w.vanillaMusicCount <= music < w.musicCount && w.vanillaItemCount <= item && w.itemExists
        && w.vanillaTileCount <= tile && w.tileExists)
  {
    if music < w.vanillaMusicCount then Some(VanillaMusic)
    else if music >= w.musicCount then Some(NoSuchMusic)
    else if item < w.vanillaItemCount then Some(VanillaItem)
    else if !w.itemExists then Some(NoSuchItem)
    else if tile < w.vanillaTileCount then Some(VanillaTile)
    else if !w.tileExists then Some(NoSuchTile)
    else if music in t.musicToItem then Some(MusicTaken)
    else if item in t.itemToMusic then Some(ItemTaken)
    else if FrameBound(t, tile, frameY) then Some(FrameTaken)
    else if frameY % FrameHeight != 0 then Some(FrameNotMultiple)
    else None
  }

  /** The tables after a binding is committed. */
  function Bind(t: Tables, music: int, item: int, tile: int, frameY: int): Tables {
    var inner := if tile in t.tileToMusic then t.tileToMusic[tile] else map[];
    Tables(
      t.musicToItem[music := item],
      t.itemToMusic[item := music],
      t.tileToMusic[tile := inner[frameY := music]])
  }

  /** The music bound to a tile frame, if any. */
  function MusicAt(t: Tables, tile: int, frameY: int): Option<int> {
    if FrameBound(t, tile, frameY) then Some(t.tileToMusic[tile][frameY]) else None
  }

  /** The three tables describe one set of bindings: musicToItem and
      itemToMusic are inverse to each other, every bound frame is a multiple
      of the frame height and plays a bound music, and no music plays at two
      frames. */
  ghost predicate Consistent(t: Tables) {
    && (forall m | m in t.musicToItem ::
          t.musicToItem[m] in t.itemToMusic && t.itemToMusic[t.musicToItem[m]] == m)
    && (forall i | i in t.itemToMusic ::
          t.itemToMusic[i] in t.musicToItem && t.musicToItem[t.itemToMusic[i]] == i)
    && (forall tile, f | FrameBound(t, tile, f) ::
          f % FrameHeight == 0 && t.tileToMusic[tile][f] in t.musicToItem)
    && (forall tile1, f1, tile2, f2 |
          FrameBound(t, tile1, f1) && FrameBound(t, tile2, f2)
          && MusicAt(t, tile1, f1) == MusicAt(t, tile2, f2) ::
          tile1 == tile2 && f1 == f2)
  }

  lemma EmptyConsistent()
    ensures Consistent(Tables(map[], map[], map[]))
  {
  }

  /** Committing an admissible binding keeps the tables consistent, and the
      new binding is readable from each of the three sides. */
  lemma BindKeepsConsistent(t: Tables, w: World, music: int, item: int, tile: int, frameY: int)
    requires Consistent(t)
    requires FirstFailure(t, w, music, item, tile, frameY) == None
    ensures Consistent(Bind(t, music, item, tile, frameY))
    ensures var b := Bind(t, music, item, tile, frameY);
      b.musicToItem[music] == item && b.itemToMusic[item] == music
      && MusicAt(b, tile, frameY) == Some(music)
  {
    var b := Bind(t, music, item, tile, frameY);
    forall tile', f' | FrameBound(b, tile', f')
      ensures MusicAt(b, tile', f') == (if tile' == tile && f' == frameY then Some(music) else MusicAt(t, tile', f'))
      ensures !(tile' == tile && f' == frameY) ==> FrameBound(t, tile', f')
    {
    }
  }
}
