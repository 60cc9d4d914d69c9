/** What Autoload learns about the types of a mod's assembly, without
    reflection: each type is an explicit record of its namespace, simple
    name, abstractness, the recognised base classes it derives from and the
    answers of its virtual autoload hooks. This module holds the pure part
    of discovery: the order in which types are visited (by full name), the
    first-match chain that decides a type's category, and the default names
    and texture paths derived from a type. */
module Discovery {
  import opened Common
  import opened Content
  import opened Paths

  /** The base classes Autoload recognises. */
  datatype Category =
    | ItemClass | GlobalItemClass | DustClass | TileClass | GlobalTileClass | TileEntityClass
    | WallClass | GlobalWallClass | ProjectileClass | GlobalProjectileClass
    | NPCClass | GlobalNPCClass | PlayerClass | BuffClass | GlobalBuffClass | MountClass
    | ItemInfoClass | ProjectileInfoClass | NPCInfoClass | GoreClass | SoundClass | WorldClass
    | UgBgStyleClass | SurfaceBgStyleClass | GlobalBgStyleClass | WaterStyleClass
    | WaterfallStyleClass | GlobalRecipeClass | CommandClass

  /** The number of base classes Autoload tests. */
  const ChainLength: nat := 29

  /** The base class Autoload tests at position k of its else-if chain. */
  function CategoryAt(k: nat): Category
    requires k < ChainLength
  {
    if k == 0 then ItemClass
    else if k == 1 then GlobalItemClass
    else if k == 2 then DustClass
    else if k == 3 then TileClass
    else if k == 4 then GlobalTileClass
    else if k == 5 then TileEntityClass
    else if k == 6 then WallClass
    else if k == 7 then GlobalWallClass
    else if k == 8 then ProjectileClass
    else if k == 9 then GlobalProjectileClass
    else if k == 10 then NPCClass
    else if k == 11 then GlobalNPCClass
    else if k == 12 then PlayerClass
    else if k == 13 then BuffClass
    else if k == 14 then GlobalBuffClass
    else if k == 15 then MountClass
    else if k == 16 then ItemInfoClass
    else if k == 17 then ProjectileInfoClass
    else if k == 18 then NPCInfoClass
    else if k == 19 then GoreClass
    else if k == 20 then SoundClass
    else if k == 21 then WorldClass
    else if k == 22 then UgBgStyleClass
    else if k == 23 then SurfaceBgStyleClass
    else if k == 24 then GlobalBgStyleClass
    else if k == 25 then WaterStyleClass
    else if k == 26 then WaterfallStyleClass
    else if k == 27 then GlobalRecipeClass
    else CommandClass
  }

  /** A category's position in the chain, by its own table. */
  function Rank(c: Category): nat {
    match c
    case ItemClass => 0
    case GlobalItemClass => 1
    case DustClass => 2
    case TileClass => 3
    case GlobalTileClass => 4
    case TileEntityClass => 5
    case WallClass => 6
    case GlobalWallClass => 7
    case ProjectileClass => 8
    case GlobalProjectileClass => 9
    case NPCClass => 10
    case GlobalNPCClass => 11
    case PlayerClass => 12
    case BuffClass => 13
    case GlobalBuffClass => 14
    case MountClass => 15
    case ItemInfoClass => 16
    case ProjectileInfoClass => 17
    case NPCInfoClass => 18
    case GoreClass => 19
    case SoundClass => 20
    case WorldClass => 21
    case UgBgStyleClass => 22
    case SurfaceBgStyleClass => 23
    case GlobalBgStyleClass => 24
    case WaterStyleClass => 25
    case WaterfallStyleClass => 26
    case GlobalRecipeClass => 27
    case CommandClass => 28
  }

  /** The chain tests every category exactly once: position and rank are
      inverse to each other. */
  lemma RankOfCategoryAt(k: nat)
    requires k < ChainLength
    ensures Rank(CategoryAt(k)) == k
  {
  }

  lemma CategoryAtRank(c: Category)
    ensures Rank(c) < ChainLength && CategoryAt(Rank(c)) == c
  {
  }

  /** The textures an equip slot is loaded from (AutoloadEquip's three
      by-reference arguments). */
  datatype EquipTextures = EquipTextures(texture: string, arm: string, female: string)

  /** What the type's virtual autoload hooks answer. `load` is the result
      of Autoload; a Some replaces the default passed by reference, a None
      leaves it as it was. `equips` is the list Autoload fills for an item;
      `altTextures` is the NPC's alternate-texture array after the hook
      (Some([]) unless the hook replaced it, None when it set it to null). */
  datatype Hooks = Hooks(
    load: bool,
    name: Option<string>,
    texture: Option<string>,
    equips: seq<EquipType>,
    equipTextures: map<EquipType, EquipTextures>,
    flame: Option<string>,
    head: Option<string>,
    bossHead: Option<string>,
    blockTexture: Option<string>,
    altTextures: Option<seq<string>>)

  /** One type of the mod's assembly. `outer` names the classes a nested
      class is declared in, outermost first (empty for a top-level class);
      `legacyHooks` are the retired hook signatures it still declares;
      `questFish` is its IsQuestFish answer. */
  datatype ClassRecord = ClassRecord(
    ns: string,
    outer: seq<string>,
    simpleName: string,
    isAbstract: bool,
    bases: set<Category>,
    hooks: Hooks,
    legacyHooks: set<string>,
    questFish: bool)

  /** The key the gore and sound passes look classes up by: namespace, a
      dot, simple name. */
  function Key(r: ClassRecord): string {
    DottedName(r.ns, r.simpleName)
  }

  /** The key the assembly's types are sorted by: Type.FullName. */
  function SortKey(r: ClassRecord): string {
    TypeFullName(r.ns, r.outer, r.simpleName)
  }

  // ---------------------------------------------------------------------
  // First-match dispatch

  /** The first category the type derives from, testing the chain from
      position k on. */
  function FirstBase(k: nat, bases: set<Category>): (r: Option<Category>)
    requires k <= ChainLength
    ensures r.None? <==> forall j :: k <= j < ChainLength ==> CategoryAt(j) !in bases
    ensures r.Some? ==> (r.value in bases && k <= Rank(r.value) < ChainLength
      && forall j :: k <= j < Rank(r.value) ==> CategoryAt(j) !in bases)
    decreases ChainLength - k
  {
    if k == ChainLength then None
    else if CategoryAt(k) in bases then (RankOfCategoryAt(k); Some(CategoryAt(k)))
    else FirstBase(k + 1, bases)
  }

  /** The category Autoload files a type under: none for an abstract type
      or one that derives from no recognised base, else the first base the
      chain tests. */
  function Classify(r: ClassRecord): Option<Category> {
    if r.isAbstract then None else FirstBase(0, r.bases)
  }

  /** The chain picks, among the recognised bases of a concrete type, the
      one of least rank; every concrete type with a recognised base gets a
      category. */
  lemma ClassifyIsLeastRank(r: ClassRecord, c: Category)
    ensures Classify(r) == Some(c) <==>
      !r.isAbstract && c in r.bases && forall d | d in r.bases :: Rank(c) <= Rank(d)
    ensures Classify(r).None? <==> r.isAbstract || r.bases == {}
  {
    if !r.isAbstract {
      var f := FirstBase(0, r.bases);
      if f.Some? {
        CategoryAtRank(f.value);
        forall d | d in r.bases ensures Rank(f.value) <= Rank(d) {
          CategoryAtRank(d);
        }
        if c in r.bases && forall d | d in r.bases :: Rank(c) <= Rank(d) {
          CategoryAtRank(c);
        }
      } else {
        forall d | d in r.bases ensures false {
          CategoryAtRank(d);
        }
      }
    }
  }

  // ---------------------------------------------------------------------
  // Visiting order: OrderBy(type => type.FullName)

  /** Ordinal order of strings: character codes compared left to right, a
      proper prefix first. */
  predicate NameLe(a: string, b: string)
    decreases |a|
  {
    a == [] || (b != [] && (a[0] < b[0] || (a[0] == b[0] && NameLe(a[1..], b[1..]))))
  }

  lemma {:induction false} NameLeTotal(a: string, b: string)
    ensures NameLe(a, b) || NameLe(b, a)
    decreases |a|
  {
    if a != [] && b != [] && a[0] == b[0] {
      NameLeTotal(a[1..], b[1..]);
    }
  }

  lemma {:induction false} NameLeTransitive(a: string, b: string, c: string)
    requires NameLe(a, b) && NameLe(b, c)
    ensures NameLe(a, c)
    decreases |a|
  {
    if a != [] && a[0] == b[0] && b[0] == c[0] {
      NameLeTransitive(a[1..], b[1..], c[1..]);
    }
  }

  predicate SortedByKey(rs: seq<ClassRecord>) {
    forall i, j :: 0 <= i < j < |rs| ==> NameLe(SortKey(rs[i]), SortKey(rs[j]))
  }

  /** Insert a record before the first one whose key is not smaller. */
  function Insert(r: ClassRecord, rs: seq<ClassRecord>): seq<ClassRecord>
    decreases |rs|
  {
    if rs == [] then [r]
    else if NameLe(SortKey(r), SortKey(rs[0])) then [r] + rs
    else [rs[0]] + Insert(r, rs[1..])
  }

  /** The records in ascending order of their keys (insertion sort; records
      with equal keys keep their relative order). */
  function SortByKey(rs: seq<ClassRecord>): seq<ClassRecord>
    decreases |rs|
  {
    if rs == [] then [] else Insert(rs[0], SortByKey(rs[1..]))
  }

  lemma {:induction false} InsertPermutes(r: ClassRecord, rs: seq<ClassRecord>)
    ensures multiset(Insert(r, rs)) == multiset(rs) + multiset{r}
    decreases |rs|
  {
    if rs != [] && !NameLe(SortKey(r), SortKey(rs[0])) {
      InsertPermutes(r, rs[1..]);
      assert rs == [rs[0]] + rs[1..];
    }
  }

  /** A record no greater than any of a sorted list can be put in front. */
  lemma SortedCons(x: ClassRecord, t: seq<ClassRecord>)
    requires SortedByKey(t) && forall y | y in t :: NameLe(SortKey(x), SortKey(y))
    ensures SortedByKey([x] + t)
  {
    var s := [x] + t;
    forall i, j | 0 <= i < j < |s| ensures NameLe(SortKey(s[i]), SortKey(s[j])) {
      if i == 0 {
        assert s[j] == t[j - 1];
      } else {
        assert s[i] == t[i - 1] && s[j] == t[j - 1];
      }
    }
  }

  lemma {:induction false} InsertSorted(r: ClassRecord, rs: seq<ClassRecord>)
    requires SortedByKey(rs)
    ensures SortedByKey(Insert(r, rs))
    decreases |rs|
  {
    if rs == [] {
    } else if NameLe(SortKey(r), SortKey(rs[0])) {
      forall y | y in rs ensures NameLe(SortKey(r), SortKey(y)) {
        var j :| 0 <= j < |rs| && rs[j] == y;
        if j > 0 {
          NameLeTransitive(SortKey(r), SortKey(rs[0]), SortKey(y));
        }
      }
      SortedCons(r, rs);
    } else {
      var tail := rs[1..];
      InsertSorted(r, tail);
      InsertPermutes(r, tail);
      NameLeTotal(SortKey(r), SortKey(rs[0]));
      var ins := Insert(r, tail);
      forall x | x in ins ensures NameLe(SortKey(rs[0]), SortKey(x)) {
        assert x in multiset(ins);
        if x != r {
          assert x in multiset(tail);
          var k :| 0 <= k < |tail| && tail[k] == x;
          assert rs[k + 1] == x;
        }
      }
      SortedCons(rs[0], ins);
    }
  }

  /** The visiting order is sorted by full name. */
  lemma {:induction false} SortByKeySorted(rs: seq<ClassRecord>)
    ensures SortedByKey(SortByKey(rs))
    decreases |rs|
  {
    if rs != [] {
      SortByKeySorted(rs[1..]);
      InsertSorted(rs[0], SortByKey(rs[1..]));
    }
  }

  /** The visiting order is sorted by full name and visits every type of
      the assembly exactly as often as it occurs. */
  lemma {:induction false} SortByKeyCorrect(rs: seq<ClassRecord>)
    ensures SortedByKey(SortByKey(rs))
    ensures multiset(SortByKey(rs)) == multiset(rs)
    decreases |rs|
  {
    SortByKeySorted(rs);
    if rs != [] {
      var sortedTail := SortByKey(rs[1..]);
      SortByKeyCorrect(rs[1..]);
      InsertPermutes(rs[0], sortedTail);
      assert rs == [rs[0]] + rs[1..];
    }
  }

  // ---------------------------------------------------------------------
  // Default names and texture paths

  /** The name a type registers under: its simple name unless the hook
      replaced it. */
  function LoadedName(r: ClassRecord): string {
    r.hooks.name.GetOr(r.simpleName)
  }

  /** The main texture: the default texture path unless the hook replaced it. */
  function LoadedTexture(r: ClassRecord): string {
    r.hooks.texture.GetOr(DefaultTexture(r.ns, r.simpleName))
  }

  /** The textures of an item's equip slot, derived from the item's loaded
      texture: "_<equip>", "_Arms" and "_FemaleBody", unless AutoloadEquip
      replaced them. */
  function EquipTexturesOf(r: ClassRecord, e: EquipType): EquipTextures {
    var t := LoadedTexture(r);
    if e in r.hooks.equipTextures then r.hooks.equipTextures[e]
    else EquipTextures(Suffixed(t, EquipName(e)), Suffixed(t, "Arms"), Suffixed(t, "FemaleBody"))
  }

  /** An item's flame texture: the loaded texture with "_Flame". */
  function FlameTexture(r: ClassRecord): string {
    r.hooks.flame.GetOr(Suffixed(LoadedTexture(r), "Flame"))
  }

  /** An NPC's head texture: the DEFAULT texture (whatever Autoload
      answered) with "_Head". */
  function HeadTexture(r: ClassRecord): string {
    r.hooks.head.GetOr(Suffixed(DefaultTexture(r.ns, r.simpleName), "Head"))
  }

  /** An NPC's boss-head texture: the default head texture with "_Boss". */
  function BossHeadTexture(r: ClassRecord): string {
    r.hooks.bossHead.GetOr(Suffixed(Suffixed(DefaultTexture(r.ns, r.simpleName), "Head"), "Boss"))
  }

  /** A water style's block texture: computed from the default texture
      before Autoload runs, so a replaced main texture does not move it. */
  function BlockTexture(r: ClassRecord): string {
    r.hooks.blockTexture.GetOr(Suffixed(DefaultTexture(r.ns, r.simpleName), "Block"))
  }

  /** No equip type is spelled like one of the other suffixes. */
  lemma EquipNamesAreNotTags(e: EquipType)
    ensures EquipName(e) != "Arms" && EquipName(e) != "FemaleBody" && EquipName(e) != "Flame"
  {
  }

  /** The default secondary textures of an item never coincide with each
      other or with the main texture, and those of two different equip
      types differ. */
  lemma ItemTexturesDistinct(r: ClassRecord, e1: EquipType, e2: EquipType)
    requires r.hooks.flame.None? && e1 !in r.hooks.equipTextures && e2 !in r.hooks.equipTextures
    ensures var t1 := EquipTexturesOf(r, e1);
      && t1.texture != t1.arm && t1.texture != t1.female && t1.arm != t1.female
      && FlameTexture(r) !in {t1.texture, t1.arm, t1.female}
      && LoadedTexture(r) !in {t1.texture, t1.arm, t1.female, FlameTexture(r)}
    ensures e1 != e2 ==> EquipTexturesOf(r, e1).texture != EquipTexturesOf(r, e2).texture
  {
    var t := LoadedTexture(r);
    EquipNamesAreNotTags(e1);
    SuffixedInjective(t, EquipName(e1), "Arms");
    SuffixedInjective(t, EquipName(e1), "FemaleBody");
    SuffixedInjective(t, "Arms", "FemaleBody");
    SuffixedInjective(t, "Flame", EquipName(e1));
    SuffixedInjective(t, "Flame", "Arms");
    SuffixedInjective(t, "Flame", "FemaleBody");
    SuffixedInjective(t, EquipName(e1), EquipName(e2));
  }

  /** Without hook answers, the NPC boss-head texture is the head texture
      with "_Boss", and the two are distinct paths. */
  lemma NPCHeadTexturesFromDefault(r: ClassRecord)
    requires r.hooks.head.None? && r.hooks.bossHead.None?
    ensures HeadTexture(r) != BossHeadTexture(r)
    ensures BossHeadTexture(r) == Suffixed(HeadTexture(r), "Boss")
  {
  }
}
