/** String conventions of the mod loader: prefix tests, character
    replacement, file extensions as .NET's Path class computes them, the
    default texture path of a content class, and the suffixes that derive
    secondary texture paths from a main one. */
module Paths {
  import opened Common

  predicate StartsWith(s: string, prefix: string) {
    |prefix| <= |s| && s[..|prefix|] == prefix
  }

  /** `s` with every `from` replaced by `to` (String.Replace(char, char)). */
  function Replace(s: string, from: char, to: char): (r: string)
    ensures |r| == |s|
    ensures forall i :: 0 <= i < |s| ==> r[i] == (if s[i] == from then to else s[i])
    ensures from != to ==> from !in r
  {
    seq(|s|, i requires 0 <= i < |s| => if s[i] == from then to else s[i])
  }

  lemma ReplaceAppend(a: string, b: string, from: char, to: char)
    ensures Replace(a + b, from, to) == Replace(a, from, to) + Replace(b, from, to)
  {
    var l, r := Replace(a + b, from, to), Replace(a, from, to) + Replace(b, from, to);
    assert |l| == |r|;
    forall i | 0 <= i < |l| ensures l[i] == r[i] {
      if i < |a| { assert (a + b)[i] == a[i]; } else { assert (a + b)[i] == b[i - |a|]; }
    }
  }

  // ---------------------------------------------------------------------
  // Extensions (Path.GetExtension, Path.ChangeExtension(path, null))

  predicate IsSeparator(c: char) {
    c == '/' || c == '\\' || c == ':'
  }

  /** Position of the dot that starts the extension: the last '.' that no
      separator follows. */
  function DotIndex(p: string): (r: Option<nat>)
    ensures r.Some? ==> r.value < |p| && p[r.value] == '.'
    ensures r.Some? ==> forall j :: r.value < j < |p| ==> p[j] != '.' && !IsSeparator(p[j])
    ensures r.None? ==> forall j :: 0 <= j < |p| && p[j] == '.' ==>
                          exists k :: j < k < |p| && IsSeparator(p[k])
  {
    if p == [] then None
    else if p[|p| - 1] == '.' then Some(|p| - 1)
    else if IsSeparator(p[|p| - 1]) then None
    else
      var r := DotIndex(p[..|p| - 1]);
      assert forall j :: 0 <= j < |p| - 1 ==> p[..|p| - 1][j] == p[j];
      r
  }

  /** Path.GetExtension: the extension with its dot, or "" when there is
      none or the dot is the last character. */
  function Extension(p: string): string {
    match DotIndex(p)
    case Some(i) => if i == |p| - 1 then "" else p[i..]
    case None => ""
  }

  /** Path.ChangeExtension(p, null): `p` without its extension. */
  function WithoutExtension(p: string): string {
    match DotIndex(p)
    case Some(i) => p[..i]
    case None => p
  }

  /** An extension is a dot followed by at least one character that is
      neither a dot nor a separator. */
  predicate IsExtension(e: string) {
    |e| >= 2 && e[0] == '.' && forall j :: 1 <= j < |e| ==> e[j] != '.' && !IsSeparator(e[j])
  }

  /** Splitting a path at its extension and joining the parts gives the path back. */
  lemma SplitExtension(p: string)
    requires Extension(p) != ""
    ensures IsExtension(Extension(p))
    ensures WithoutExtension(p) + Extension(p) == p
  {
    var i := DotIndex(p).value;
    assert p[..i] + p[i..] == p;
  }

  lemma {:induction false} DotIndexOfSuffixed(key: string, e: string, n: nat)
    requires IsExtension(e) && 1 <= n <= |e|
    ensures DotIndex(key + e[..n]) == Some(|key|)
    decreases n
  {
    var p := key + e[..n];
    if n == 1 {
      assert p[|p| - 1] == '.';
    } else {
      assert p[|p| - 1] == e[n - 1];
      assert p[..|p| - 1] == key + e[..n - 1];
      DotIndexOfSuffixed(key, e, n - 1);
    }
  }

  /** Appending an extension to any key and stripping it again gives the
      key back: the key under which an archive file is stored. */
  lemma {:induction false} ExtensionRoundTrip(key: string, e: string)
    requires IsExtension(e)
    ensures Extension(key + e) == e
    ensures WithoutExtension(key + e) == key
  {
    assert e[..|e|] == e;
    DotIndexOfSuffixed(key, e, |e|);
    assert (key + e)[..|key|] == key;
    assert (key + e)[|key|..] == e;
  }

  // ---------------------------------------------------------------------
  // Naming conventions of autoloading

  /** Namespace + "." + Name, joined the way autoloading joins them for
      default textures and for the gore and sound look-ups. A class in the
      global namespace has ns == "" (its Namespace is null, which the
      concatenation treats as empty), so its dotted name starts with a dot. */
  function DottedName(ns: string, simpleName: string): string {
    ns + "." + simpleName
  }

  /** Type.FullName, the key the assembly's types are sorted by: the
      namespace and a dot (neither for the global namespace), then the
      declaring types of a nested class, outermost first, and the class's
      own name, joined with '+'. */
  function TypeFullName(ns: string, outer: seq<string>, simpleName: string): string {
    (if ns == "" then "" else ns + ".") + NestedName(outer, simpleName)
  }

  function NestedName(outer: seq<string>, simpleName: string): string
    decreases |outer|
  {
    if outer == [] then simpleName else outer[0] + "+" + NestedName(outer[1..], simpleName)
  }

  /** The full name and the dotted name agree exactly for a top-level class
      in a named namespace; a nested class or one in the global namespace
      is sorted under a name other than the one the passes look it up by. */
  lemma {:induction false} FullNameIsDotted(ns: string, outer: seq<string>, simpleName: string)
    ensures TypeFullName(ns, outer, simpleName) == DottedName(ns, simpleName) <==> ns != "" && outer == []
  {
    var full, dotted := TypeFullName(ns, outer, simpleName), DottedName(ns, simpleName);
    if outer == [] && ns == "" {
      assert |full| < |dotted|;
    } else if outer != [] {
      var rest := NestedName(outer[1..], simpleName);
      NestedNameLonger(outer[1..], simpleName);
      if ns != "" {
        assert |full| > |dotted|;
      } else if outer[0] == "" {
        assert full[0] == '+' && dotted[0] == '.';
      } else {
        assert |full| > |dotted|;
      }
    }
  }

  lemma {:induction false} NestedNameLonger(outer: seq<string>, simpleName: string)
    ensures |NestedName(outer, simpleName)| >= |simpleName| + |outer|
    decreases |outer|
  {
    if outer != [] {
      NestedNameLonger(outer[1..], simpleName);
    }
  }

  /** The default texture: the dotted name with dots turned into slashes. */
  function DefaultTexture(ns: string, simpleName: string): (r: string)
    ensures '.' !in r
    ensures |r| == |ns| + 1 + |simpleName|
  {
    Replace(DottedName(ns, simpleName), '.', '/')
  }

  lemma DefaultTextureParts(ns: string, simpleName: string)
    ensures DefaultTexture(ns, simpleName)
         == Replace(ns, '.', '/') + "/" + Replace(simpleName, '.', '/')
  {
    var full := DottedName(ns, simpleName);
    var a, b := Replace(ns, '.', '/'), Replace(simpleName, '.', '/');
    var l, r := Replace(full, '.', '/'), a + "/" + b;
    forall i | 0 <= i < |l| ensures l[i] == r[i] {
      if i < |ns| {
        assert full[i] == ns[i] && r[i] == a[i];
      } else if i == |ns| {
        assert full[i] == '.' && r[i] == '/';
      } else {
        assert full[i] == simpleName[i - |ns| - 1] && r[i] == b[i - |ns| - 1];
      }
    }
    assert l == r;
  }

  /** A secondary texture path: the main path, an underscore, and a tag. */
  function Suffixed(texture: string, tag: string): (r: string)
    ensures |r| == |texture| + 1 + |tag| && r[..|texture|] == texture && r[|texture|] == '_'
    ensures r[|texture| + 1..] == tag
  {
    texture + "_" + tag
  }

  /** Two secondary textures of the same main texture differ exactly when
      their tags differ. */
  lemma SuffixedInjective(texture: string, tag1: string, tag2: string)
    ensures Suffixed(texture, tag1) == Suffixed(texture, tag2) <==> tag1 == tag2
  {
    if Suffixed(texture, tag1) == Suffixed(texture, tag2) {
      var s1, s2 := Suffixed(texture, tag1), Suffixed(texture, tag2);
      assert s1[|texture| + 1..] == tag1;
      assert s2[|texture| + 1..] == tag2;
    }
  }

  /** "Mod/path": how a mod-qualified asset name is written. */
  function Qualified(modName: string, path: string): (r: string)
    ensures StartsWith(r, modName + "/")
    ensures r[|modName| + 1..] == path
  {
    assert (modName + "/" + path)[..|modName| + 1] == modName + "/";
    modName + "/" + path
  }

  lemma QualifiedInjective(modName: string, p1: string, p2: string)
    ensures Qualified(modName, p1) == Qualified(modName, p2) <==> p1 == p2
  {
  }

  /** The class full name that a gore texture binds to. */
  function GoreClassName(modName: string, texture: string): string {
    modName + "." + Replace(texture, '/', '.')
  }

  /** The class full name that a sound binds to: the qualified sound path
      with slashes turned into dots. */
  function SoundClassName(modName: string, sound: string): string {
    Replace(Qualified(modName, sound), '/', '.')
  }

  /** The gore and sound passes build the class name in two different ways;
      they agree whenever the mod name itself holds no slash. */
  lemma ClassNameConventionsAgree(modName: string, path: string)
    requires '/' !in modName
    ensures SoundClassName(modName, path) == GoreClassName(modName, path)
  {
    ReplaceAppend(modName, "/" + path, '/', '.');
    ReplaceAppend("/", path, '/', '.');
    var r := Replace(modName, '/', '.');
    assert |r| == |modName|;
    assert forall i :: 0 <= i < |modName| ==> r[i] == modName[i];
    assert r == modName;
    assert modName + "/" + path == modName + ("/" + path);
  }

  // ---------------------------------------------------------------------
  // Sound sub-categories

  datatype SoundType = Item | NPCHit | NPCKilled | Music | Custom

  const SoundRoot: string := "Sounds/"

  /** The sub-category of a sound from its path below "Sounds/": the first
      matching folder among Item/, NPCHit/, NPCKilled/, Music/, else Custom. */
  function SoundTypeOf(rest: string): SoundType {
    if StartsWith(rest, "Item/") then Item
    else if StartsWith(rest, "NPCHit/") then NPCHit
    else if StartsWith(rest, "NPCKilled/") then NPCKilled
    else if StartsWith(rest, "Music/") then Music
    else Custom
  }

  /** A path starts with at most one of the four folders, so the
      classification is exactly "the folder the path starts with". */
  lemma SoundTypeOfFolder(rest: string)
    ensures SoundTypeOf(rest) == Item <==> StartsWith(rest, "Item/")
    ensures SoundTypeOf(rest) == NPCHit <==> StartsWith(rest, "NPCHit/")
    ensures SoundTypeOf(rest) == NPCKilled <==> StartsWith(rest, "NPCKilled/")
    ensures SoundTypeOf(rest) == Music <==> StartsWith(rest, "Music/")
    ensures SoundTypeOf(rest) == Custom <==>
      !StartsWith(rest, "Item/") && !StartsWith(rest, "NPCHit/")
      && !StartsWith(rest, "NPCKilled/") && !StartsWith(rest, "Music/")
  {
    if StartsWith(rest, "NPCHit/") {
      assert rest[0] == 'N' && rest[3] == 'H';
      assert !StartsWith(rest, "Item/") && !StartsWith(rest, "NPCKilled/") && !StartsWith(rest, "Music/");
    }
    if StartsWith(rest, "NPCKilled/") {
      assert rest[0] == 'N' && rest[3] == 'K';
      assert !StartsWith(rest, "Item/") && !StartsWith(rest, "NPCHit/") && !StartsWith(rest, "Music/");
    }
    if StartsWith(rest, "Music/") {
      assert rest[0] == 'M';
      assert !StartsWith(rest, "Item/");
    }
  }
}
