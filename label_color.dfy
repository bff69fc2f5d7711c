/**
  Colours used by the overlay, and the label colour hash: a rolling hash of
  the label's UTF-16 code units reduced to a hue, with saturation and
  lightness fixed.

  The hash state is a JavaScript Number holding an integer. Only the left
  shift `hash << 5` works on 32 bits (it converts its operand with ToInt32
  and wraps its result); the subtraction of `hash` and the addition of the
  code unit use the unwrapped value. The state is therefore an unbounded
  `int`, with the 32-bit wrap applied inside the shift alone.
 */
module Colors {
  import opened Text

  datatype Color =
    | Hsl(hue: int, saturation: int, lightness: int)  // `hsl(h, s%, l%)`
    | Rgb(red: int, green: int, blue: int)            // `#rrggbb` or a named colour
    | TransparentBlack                                // the canvas' initial shadow colour

  const White: Color := Rgb(255, 255, 255)   // '#ffffff'
  const Black: Color := Rgb(0, 0, 0)         // "black"

  const Saturation := 70
  const Lightness := 50
  const HueCount := 360

  const TwoTo31 := 0x8000_0000
  const TwoTo32 := 0x1_0000_0000

  /** ECMAScript ToInt32 on an integral Number. */
  function ToInt32(x: int): int {
    var m := x % TwoTo32;
    if m >= TwoTo31 then m - TwoTo32 else m
  }

  /** ToInt32 yields the 32-bit two's complement value congruent to `x` modulo 2^32, and leaves 32-bit values alone. */
  lemma ToInt32Wraps(x: int)
    ensures -TwoTo31 <= ToInt32(x) < TwoTo31
    ensures (x - ToInt32(x)) % TwoTo32 == 0
    ensures -TwoTo31 <= x < TwoTo31 ==> ToInt32(x) == x
  {
    var m := x % TwoTo32;
    assert x == TwoTo32 * (x / TwoTo32) + m;
    if -TwoTo31 <= x < 0 {
      assert x / TwoTo32 == -1;
    }
  }

  /** `x << 5` on a Number: ToInt32 of the operand, shifted, wrapped to 32 bits. */
  function ShiftLeft5(x: int): int {
    ToInt32(ToInt32(x) * 32)
  }

  /** The shift yields a 32-bit value, and multiplies by 32 when nothing overflows. */
  lemma ShiftLeft5Bounds(x: int)
    ensures -TwoTo31 <= ShiftLeft5(x) < TwoTo31
    ensures -0x400_0000 <= x < 0x400_0000 ==> ShiftLeft5(x) == 32 * x
  {
    ToInt32Wraps(x);
    ToInt32Wraps(ToInt32(x) * 32);
  }

  /** One iteration of the loop: `hash = code + ((hash << 5) - hash)`. */
  function Step(hash: int, code: CodeUnit): int {
    code + (ShiftLeft5(hash) - hash)
  }

  /** The hash after the loop has consumed every code unit of `s`, starting from 0. */
  function Hash(s: Utf16): int {
    if s == [] then 0 else Step(Hash(s[..|s| - 1]), s[|s| - 1])
  }

  /** `Math.abs` on an integer. */
  function Abs(x: int): nat {
    if x < 0 then -x else x
  }

  /** The colour of a label: hue `|hash| % 360`, saturation 70%, lightness 50%. */
  function LabelColor(name: Utf16): (c: Color)
    ensures c.Hsl? && 0 <= c.hue < HueCount
    ensures c.saturation == Saturation && c.lightness == Lightness
    ensures name == [] ==> c.hue == 0
  {
    var hash := Hash(name);
    Hsl(Abs(hash) % HueCount, Saturation, Lightness)
  }

  /** The loop of `getLabelColor`, run over the label's code units. */
  method GetLabelColor(name: Utf16) returns (c: Color)
    ensures c == LabelColor(name)
  {
    var hash := 0;
    for i := 0 to |name|
      invariant hash == Hash(name[..i])
    {
      assert name[..i + 1][..i] == name[..i];
      hash := name[i] + ((ShiftLeft5(hash)) - hash);
    }
    assert name[..|name|] == name;
    var h := Abs(hash) % HueCount;
    c := Hsl(h, Saturation, Lightness);
  }

  /** While the state stays within ±2^26 the shift does not wrap and a step is the familiar `31 * hash + code`. */
  lemma StepWithoutWrap(hash: int, code: CodeUnit)
    requires -0x400_0000 <= hash < 0x400_0000
    ensures Step(hash, code) == 31 * hash + code
  {
    ShiftLeft5Bounds(hash);
  }

  /**
    Each step moves the state by less than 2^31 + 2^16, so the magnitude of
    the hash grows at most linearly in the label's length.
   */
  lemma {:induction false} HashGrowth(s: Utf16)
    ensures Abs(Hash(s)) <= |s| * (TwoTo31 + 0xFFFF)
  {
    if s != [] {
      var prefix := s[..|s| - 1];
      HashGrowth(prefix);
      var h := Hash(prefix);
      ShiftLeft5Bounds(h);
      assert Abs(Step(h, s[|s| - 1])) <= Abs(h) + TwoTo31 + 0xFFFF;
    }
  }

  /**
    For every label of up to four million code units, every hash state is a
    safe integer (below 2^53 in magnitude), so the Number arithmetic of the
    source is exact and the unbounded `int` model agrees with it.
   */
  lemma HashIsSafeInteger(s: Utf16)
    requires |s| <= 4_000_000
    ensures -0x20_0000_0000_0000 < Hash(s) < 0x20_0000_0000_0000
  {
    HashGrowth(s);
  }

  /** The label "cat" gets hue 342: the states are 99, 3166 and 98262. */
  lemma CatHue()
    ensures LabelColor([99, 97, 116]).hue == 342
  {
    var cat: Utf16 := [99, 97, 116];
    ShiftLeft5Bounds(0);
    ShiftLeft5Bounds(99);
    ShiftLeft5Bounds(3166);
    assert cat[..2][..1] == [99] && Hash([99][..0]) == 0;
    assert Hash(cat[..2][..1]) == 99;
    assert Hash(cat[..2]) == 3166;
    assert Hash(cat) == 98262;
  }
}
