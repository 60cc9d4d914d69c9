/** The two rules of SetupContent that depend only on an NPC's own values:
    how many bytes its life is synchronised with, and how its array of
    alternate textures is sized and filled. */
module Setup {
  import opened Common

  // -------------------------------------------------------------------
  // Life bytes

  /** One more than the largest value a signed integer of `bytes` bytes holds,
      for the three widths the game uses. */
  function SignedBound(bytes: int): nat
    requires bytes == 1 || bytes == 2 || bytes == 4
  {
    if bytes == 1 then 0x80 else if bytes == 2 then 0x8000 else 0x8000_0000
  }

  /** Main.npcLifeBytes for an NPC: 4 for a boss or for a maximum life over
      32767, otherwise 2 when it is over 127, otherwise 1. This is the
      narrowest signed width that holds the maximum life (a 32-bit int in
      the game), except that a boss always gets four bytes. */
  function LifeBytes(lifeMax: int, boss: bool): (r: int)
    ensures r == 1 || r == 2 || r == 4
    ensures r == 4 <==> boss || lifeMax > 32767
    ensures r == 1 <==> !boss && lifeMax <= 127
    ensures lifeMax < 0x8000_0000 ==> lifeMax < SignedBound(r)
    ensures !boss && r != 1 ==> lifeMax >= SignedBound(r / 2)
  {
    if lifeMax > 32767 || boss then 4
    else if lifeMax > 127 then 2
    else 1
  }

  /** Life bytes only grow with the maximum life. */
  lemma LifeBytesMonotonic(lifeMax: int, lifeMax': int, boss: bool)
    requires lifeMax <= lifeMax'
    ensures LifeBytes(lifeMax, boss) <= LifeBytes(lifeMax', boss)
  {
  }

  // -------------------------------------------------------------------
  // Alternate textures

  /** Slot `k` (counted from 1) of the alternate-texture array takes entry
      `k - 1` of the NPC's alternate-texture list, which must exist and
      name a texture the loader can resolve. */
  predicate Resolves(altTextures: Option<seq<string>>, k: int, host: Host) {
    && altTextures.Some?
    && 0 <= k - 1 < |altTextures.value|
    && altTextures.value[k - 1] in host.textures
  }

  /** The exception filling slot `k` raises when it does not resolve: a null
      list, an index past its end, or a texture nobody provides. */
  function SlotError(altTextures: Option<seq<string>>, k: int, host: Host): (e: Error)
    requires 1 <= k && !Resolves(altTextures, k, host)
    ensures altTextures.None? <==> e == NullAltTextures
    ensures altTextures.Some? && k - 1 >= |altTextures.value| <==> e == AltTextureIndex(k - 1)
    ensures e.MissingResource? ==> altTextures.Some? && e.resource == altTextures.value[k - 1] && e.resource !in host.textures
  {
    if altTextures.None? then NullAltTextures
    else if k - 1 >= |altTextures.value| then AltTextureIndex(k - 1)
    else MissingResource(altTextures.value[k - 1])
  }

  /** The first slot from `k` to `count` that does not resolve, if any. */
  function FirstUnresolved(count: int, altTextures: Option<seq<string>>, host: Host, k: nat): (r: Option<nat>)
    requires 1 <= k
    decreases count - k
    ensures r.None? <==> forall j | k <= j <= count :: Resolves(altTextures, j, host)
    ensures r.Some? ==> k <= r.value <= count && !Resolves(altTextures, r.value, host)
    ensures r.Some? ==> forall j | k <= j < r.value :: Resolves(altTextures, j, host)
  {
    if count < k then None
    else if !Resolves(altTextures, k, host) then Some(k)
    else FirstUnresolved(count, altTextures, host, k + 1)
  }

  /** Whether `n` fits a signed 32-bit integer, the type of the extra-texture count. */
  predicate IsInt32(n: int)
  {
    -0x8000_0000 <= n < 0x8000_0000
  }

  /** The length of the alternate-texture array, `count + 1` computed on
      signed 32-bit integers: one past the largest count wraps round to
      the smallest negative value. */
  function SlotCount(count: int): (n: int)
    requires IsInt32(count)
    ensures IsInt32(n)
    ensures n < 0 <==> count < -1 || count == 0x7FFF_FFFF
    ensures n >= 0 ==> n == count + 1
  {
    if count == 0x7FFF_FFFF then -0x8000_0000 else count + 1
  }

  /** How setting up the alternate textures of an NPC with `count` extra
      textures ends. */
  function AltTexturesOutcome(count: int, altTextures: Option<seq<string>>, host: Host): (o: Outcome)
    requires IsInt32(count)
  {
    if SlotCount(count) < 0 then Fail(NegativeLength(SlotCount(count)))
    else match FirstUnresolved(count, altTextures, host, 1)
      case None => Pass
      case Some(k) => Fail(SlotError(altTextures, k, host))
  }

  /** Setting up the alternate textures succeeds exactly when the count is
      at least -1 and below the largest 32-bit value, and either there are
      none to fill or the list is there, is long enough and every texture in
      its first `count` entries resolves. */
  lemma {:induction false} AltTexturesSucceed(count: int, altTextures: Option<seq<string>>, host: Host)
    requires IsInt32(count)
    ensures AltTexturesOutcome(count, altTextures, host) == Pass <==>
      && -1 <= count < 0x7FFF_FFFF
      && (count <= 0 ||
          (&& altTextures.Some?
           && |altTextures.value| >= count
           && forall i | 0 <= i < count :: altTextures.value[i] in host.textures))
  {
    if count >= 1 && AltTexturesOutcome(count, altTextures, host) == Pass {
      assert Resolves(altTextures, 1, host);
      assert Resolves(altTextures, count, host);
      forall i | 0 <= i < count
        ensures altTextures.value[i] in host.textures
      {
        assert Resolves(altTextures, i + 1, host);
      }
    }
    if count >= 1 && altTextures.Some? && |altTextures.value| >= count &&
       (forall i | 0 <= i < count :: altTextures.value[i] in host.textures) {
      forall j | 1 <= j <= count
        ensures Resolves(altTextures, j, host)
      {
        assert altTextures.value[j - 1] in host.textures;
      }
    }
  }

  /** The alternate-texture array of an NPC whose main texture is
      `mainTexture` and that declares `count` extra textures (a texture is
      named by its path; an unset slot is None). A count below -1, or the
      largest 32-bit count, whose successor wraps round to a negative length,
      makes the array allocation throw before anything is stored. Otherwise the array
      has `count + 1` slots; slot 0 holds the main texture when there is at
      least one extra texture, and slots 1.. are filled in order from the
      list until one fails to resolve, which raises the failure and leaves
      that slot and the rest unset. */
  method SetupAltTextures(mainTexture: string, count: int, altTextures: Option<seq<string>>, host: Host)
    returns (slots: Option<array<Option<string>>>, o: Outcome)
    requires IsInt32(count)
    ensures o == AltTexturesOutcome(count, altTextures, host)
    ensures slots.None? <==> count < -1 || count == 0x7FFF_FFFF
    ensures slots.Some? ==> fresh(slots.value) && slots.value.Length == count + 1
    ensures slots.Some? && count > 0 ==> slots.value[0] == Some(mainTexture)
    ensures slots.Some? && count == 0 ==> slots.value[0] == None
    ensures slots.Some? ==> forall k | 1 <= k <= count ::
      slots.value[k] == (if Resolves(altTextures, k, host) && forall j | 1 <= j < k :: Resolves(altTextures, j, host)
                         then Some(altTextures.value[k - 1]) else None)
  {
    var length := SlotCount(count);
    if length < 0 {
      return None, Fail(NegativeLength(length));
    }
    var a := new Option<string>[count + 1](_ => None);
    if count > 0 {
      a[0] := Some(mainTexture);
    }
    var k := 1;
    while k <= count
      invariant 1 <= k <= count + 1 || (count <= 0 && k == 1)
      invariant count >= 0 ==> a[0] == if count > 0 then Some(mainTexture) else None
      invariant forall j | 1 <= j < k :: Resolves(altTextures, j, host) && a[j] == Some(altTextures.value[j - 1])
      invariant forall j | k <= j <= count :: a[j] == None
    {
      if !Resolves(altTextures, k, host) {
        o := Fail(SlotError(altTextures, k, host));
        assert FirstUnresolved(count, altTextures, host, 1) == Some(k) by {
          FirstUnresolvedAt(count, altTextures, host, 1, k);
        }
        return Some(a), o;
      }
      a[k] := Some(altTextures.value[k - 1]);
      k := k + 1;
    }
    return Some(a), Pass;
  }

  /** A scan that passes every slot before an unresolved one stops there. */
  lemma {:induction false} FirstUnresolvedAt(count: int, altTextures: Option<seq<string>>, host: Host, from: nat, k: nat)
    requires 1 <= from <= k <= count
    requires forall j | from <= j < k :: Resolves(altTextures, j, host)
    requires !Resolves(altTextures, k, host)
    ensures FirstUnresolved(count, altTextures, host, from) == Some(k)
    decreases k - from
  {
    if from < k {
      FirstUnresolvedAt(count, altTextures, host, from + 1, k);
    }
  }
}
