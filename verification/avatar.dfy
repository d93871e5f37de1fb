/**
 * The avatar component's choice of image: a deterministic index into a
 * fixed collection of six pictures, derived from a hash of the user id,
 * and the priority chain `src || avatarUrl || collection[index]`.
 */
module Avatar {
  import opened JsSemantics

  const AvatarCollection: seq<string> := [
    "/images/avatars/pixar-1.png",
    "/images/avatars/pixar-2.png",
    "/images/avatars/pixar-3.png",
    "/images/avatars/pixar-4.png",
    "/images/avatars/pixar-5.png",
    "/images/avatars/pixar-6.png"
  ]

  function Abs(x: int): nat
  {
    if x < 0 then -x else x
  }

  /**
   * One step of the id hash: `charCode + ((hash << 5) - hash)`. The shift
   * works on the 32-bit view of `hash`; the subtraction and the addition
   * work on the unwrapped number.
   */
  function HashStep(hash: int, unit: CodeUnit): (next: int)
    ensures Congruent32(next, 31 * hash + unit)
    ensures Abs(next) <= StepBound + Abs(hash)
  {
    var shifted := ShiftLeft(hash, 5);
    assert Pow2(5) == 32;
    CongruentLinear(shifted, hash * 32, 1, unit - hash);
    unit + (shifted - hash)
  }

  /** The largest move of one step: a shifted 32-bit value plus one code unit. */
  const StepBound: int := TwoTo31 + 0xFFFF

  /**
   * The hash after the loop has consumed every code unit of `u`, left to
   * right; each code unit moves it by at most `StepBound`.
   */
  function Hash(u: seq<CodeUnit>): (h: int)
    ensures Abs(h) <= |u| * StepBound
  {
    if u == [] then 0
    else
      var p := u[..|u| - 1];
      MulSucc(|p|, StepBound);
      HashStep(Hash(p), u[|u| - 1])
  }

  /** Specification of `getAvatarIndex`: `Math.abs(hash) % avatarCollection.length`. */
  function AvatarIndex(id: string): (index: nat)
    ensures index < |AvatarCollection|
  {
    Abs(Hash(Utf16(id))) % |AvatarCollection|
  }

  /** The loop of `getAvatarIndex`, accumulating the hash one code unit at a time. */
  method GetAvatarIndex(str: string) returns (index: nat)
    ensures index < |AvatarCollection|
    ensures index == AvatarIndex(str)
  {
    var units := Utf16(str);
    var hash := 0;
    var i := 0;
    while i < |units|
      invariant 0 <= i <= |units|
      invariant hash == Hash(units[..i])
    {
      assert units[..i + 1][..i] == units[..i];
      assert Hash(units[..i + 1]) == HashStep(hash, units[i]);
      hash := units[i] + (ShiftLeft(hash, 5) - hash);
      i := i + 1;
    }
    assert units[..|units|] == units;
    index := Abs(hash) % |AvatarCollection|;
  }

  /** The empty id never enters the loop, so it picks the first picture. */
  lemma EmptyIdPicksFirst()
    ensures AvatarIndex("") == 0
  {
  }

  /** A one-character id hashes to its own character code. */
  lemma {:induction false} SingleUnitHash(c: char)
    requires (c as int) < 0x1_0000
    ensures Hash(Utf16([c])) == c as int
    ensures AvatarIndex([c]) == (c as int) % 6
  {
    assert Utf16([c]) == [c as int] + Utf16([]);
    assert Utf16([c])[..0] == [];
  }

  /**
   * The classic 32-bit string hash `h = 31 * h + c` with wrap-around, an
   * independent definition of the same hash.
   */
  function ClassicHash(u: seq<CodeUnit>): int
  {
    if u == [] then 0 else ToInt32(31 * ClassicHash(u[..|u| - 1]) + u[|u| - 1])
  }

  /** The 32-bit view of the id hash is exactly the classic hash. */
  lemma {:induction false} HashInt32View(u: seq<CodeUnit>)
    ensures ToInt32(Hash(u)) == ClassicHash(u)
  {
    if u != [] {
      var p, c := u[..|u| - 1], u[|u| - 1];
      var h, j := Hash(p), ClassicHash(p);
      HashInt32View(p);
      assert Hash(u) == HashStep(h, c) && ClassicHash(u) == ToInt32(31 * j + c);
      ViewOfStep(h, j, c);
    }
  }

  /**
   * If `j` is the 32-bit view of `h`, the 32-bit view of one step from `h`
   * is the wrapped `31 * j + c`.
   */
  lemma ViewOfStep(h: int, j: int, c: CodeUnit)
    requires ToInt32(h) == j
    ensures ToInt32(HashStep(h, c)) == ToInt32(31 * j + c)
  {
    var next := HashStep(h, c);
    // h and its 32-bit view j agree modulo 2^32
    assert Congruent32(h, j);
    CongruentLinear(h, j, 31, c);
    CongruentTrans(next, 31 * h + c, 31 * j + c);
    ToInt32Congruent(next, 31 * j + c);
  }

  /** The shifted value minus the old hash, before the code unit is added. */
  lemma ShiftedDifference(h: int)
    ensures Abs(ShiftLeft(h, 5) - h) <= TwoTo31 + Abs(h)
  {
  }

  lemma MulSucc(n: nat, b: int)
    ensures (n + 1) * b == n * b + b
  {
  }

  lemma MulMono(m: nat, n: nat, b: nat)
    requires m <= n
    ensures m * b <= n * b
  {
  }

  /** 2^20 steps of at most 2^31 + 2^16 - 1 stay 2^31 below 2^53. */
  lemma LengthBoundIsExact(n: nat)
    requires n <= 0x10_0000
    ensures n * StepBound < 0x20_0000_0000_0000 - TwoTo31
  {
    MulMono(n, 0x10_0000, StepBound);
    assert 0x10_0000 * StepBound == 0x10_0000 * 0x8000_FFFF;
  }

  /**
   * For ids shorter than 2^20 code units every value the loop computes is
   * an integer below 2^53, which a JavaScript number holds exactly; on such
   * ids the unbounded integers of this model compute what the browser does.
   */
  lemma HashExactAsDouble(u: seq<CodeUnit>)
    requires |u| <= 0x10_0000
    ensures Abs(Hash(u)) < 0x20_0000_0000_0000
    ensures u != [] ==> Abs(ShiftLeft(Hash(u[..|u| - 1]), 5) - Hash(u[..|u| - 1])) < 0x20_0000_0000_0000
  {
    LengthBoundIsExact(|u|);
    if u != [] {
      var p := u[..|u| - 1];
      LengthBoundIsExact(|p|);
      ShiftedDifference(Hash(p));
    }
  }

  /**
   * `src || avatarUrl || avatarCollection[getAvatarIndex(id)]`: the first
   * truthy source wins; `null`, `undefined` and "" count as absent.
   */
  function FinalAvatarUrl(src: Option<string>, avatarUrl: Option<string>, id: string): (url: string)
    ensures Truthy(src) ==> url == src.value
    ensures !Truthy(src) && Truthy(avatarUrl) ==> url == avatarUrl.value
    ensures !Truthy(src) && !Truthy(avatarUrl) ==> url == AvatarCollection[AvatarIndex(id)]
    ensures url != ""
  {
    if Truthy(src) then src.value
    else if Truthy(avatarUrl) then avatarUrl.value
    else AvatarCollection[AvatarIndex(id)]
  }

  /** Without an explicit image the picture comes from the collection, and depends on the id alone. */
  lemma FallbackFromCollection(src: Option<string>, avatarUrl: Option<string>, id: string,
                               src': Option<string>, avatarUrl': Option<string>)
    requires !Truthy(src) && !Truthy(avatarUrl) && !Truthy(src') && !Truthy(avatarUrl')
    ensures FinalAvatarUrl(src, avatarUrl, id) in AvatarCollection
    ensures FinalAvatarUrl(src, avatarUrl, id) == FinalAvatarUrl(src', avatarUrl', id)
  {
  }

  datatype Size = Sm | Md | Lg | Xl

  const DefaultSize: Size := Md

  /** The Tailwind spacing step an avatar of this size takes, in quarter-rems. */
  function SizeStep(size: Size): nat
  {
    match size
    case Sm => 8
    case Md => 10
    case Lg => 16
    case Xl => 24
  }

  /** The `sizeClasses[size]` lookup: a square box, height and width on the same spacing step. */
  function SizeClass(size: Size): (cls: string)
    ensures cls == "h-" + NatToString(SizeStep(size)) + " w-" + NatToString(SizeStep(size))
  {
    match size
    case Sm => "h-8 w-8"
    case Md => "h-10 w-10"
    case Lg => "h-16 w-16"
    case Xl => "h-24 w-24"
  }

  /** An avatar rendered without a size is medium: a box of spacing step 10. */
  lemma DefaultSizeIsMedium()
    ensures SizeClass(DefaultSize) == "h-10 w-10"
    ensures SizeStep(DefaultSize) == 10
  {
  }

  /** Each larger size takes a larger box. */
  lemma SizeStepGrows()
    ensures SizeStep(Sm) < SizeStep(Md) < SizeStep(Lg) < SizeStep(Xl)
  {
  }

  /** Every size renders at a different size class. */
  lemma SizeClassInjective(a: Size, b: Size)
    requires SizeClass(a) == SizeClass(b)
    ensures a == b
  {
  }
}
