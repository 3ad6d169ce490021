/** The string handling the canvas effects use for colours: `slice`, `parseInt(…, 16)`
    on the channels of a '#rrggbb' colour (CyberGrid.parseColor, and the same
    expressions inline in CyberCursor and CyberBackground), and the
    `toString(16).padStart(2, '0')` that appends an alpha byte to a colour. */
module Hex {
  import opened Wrappers

  predicate IsHexDigit(c: char)
  {
    '0' <= c <= '9' || 'a' <= c <= 'f' || 'A' <= c <= 'F'
  }

  predicate AllHex(s: string)
  {
    forall i :: 0 <= i < |s| ==> IsHexDigit(s[i])
  }

  lemma AllHexAppend(a: string, b: string)
    ensures AllHex(a) && AllHex(b) ==> AllHex(a + b)
  {
    if AllHex(a) && AllHex(b) {
      forall i | 0 <= i < |a + b| ensures IsHexDigit((a + b)[i]) {
        if i >= |a| {
          assert (a + b)[i] == b[i - |a|];
        }
      }
    }
  }

  /** A '#' and six hex digits, checked character by character, is a well-formed colour. */
  lemma SixDigitColor(s: string)
    requires |s| == 7 && s[0] == '#'
    requires IsHexDigit(s[1]) && IsHexDigit(s[2]) && IsHexDigit(s[3])
    requires IsHexDigit(s[4]) && IsHexDigit(s[5]) && IsHexDigit(s[6])
    ensures WellFormedColor(s)
  {
    forall i | 0 <= i < 6 ensures IsHexDigit(s[1..][i]) {
      assert s[1..][i] == s[i + 1];
    }
  }

  function DigitValue(c: char): (v: nat)
    requires IsHexDigit(c)
    ensures v < 16
  {
    if '0' <= c <= '9' then c as int - '0' as int
    else if 'a' <= c <= 'f' then c as int - 'a' as int + 10
    else c as int - 'A' as int + 10
  }

  function Pow16(n: nat): (p: nat)
    ensures p >= 1
  {
    if n == 0 then 1 else 16 * Pow16(n - 1)
  }

  /** The base-16 value of a run of hex digits, most significant first. */
  function ValueOf(ds: string): (v: nat)
    requires AllHex(ds)
    ensures v < Pow16(|ds|)
  {
    if ds == [] then 0 else ValueOf(ds[..|ds| - 1]) * 16 + DigitValue(ds[|ds| - 1])
  }

  /** The length of the leading run of hex digits of `s`. */
  function HexRun(s: string): (n: nat)
    ensures n <= |s|
    ensures AllHex(s[..n])
    ensures n < |s| ==> !IsHexDigit(s[n])
  {
    if s == [] || !IsHexDigit(s[0]) then 0
    else
      var m := HexRun(s[1..]);
      assert s[..1 + m] == [s[0]] + s[1..][..m];
      1 + m
  }

  /** `parseInt(s, 16)`: the value of the leading hex digits of `s`; `None` stands
      for NaN, which JavaScript returns when `s` does not start with a hex digit. */
  function ParseInt(s: string): (r: Option<nat>)
    ensures r.None? <==> s == [] || !IsHexDigit(s[0])
    ensures AllHex(s) && s != [] ==> r == Some(ValueOf(s))
  {
    var n := HexRun(s);
    assert n == |s| ==> s[..n] == s;
    if n == 0 then None else Some(ValueOf(s[..n]))
  }

  function Min(a: int, b: int): int { if a <= b then a else b }

  /** `s.slice(begin, end)` for non-negative indices: both are clamped to the length,
      and an empty string comes back when `end <= begin`. */
  function Slice(s: string, begin: nat, end: nat): (r: string)
    ensures |r| == (if begin < end && begin < |s| then Min(end, |s|) - begin else 0)
    ensures forall i :: 0 <= i < |r| ==> r[i] == s[begin + i]
  {
    if begin >= |s| || end <= begin then [] else s[begin..Min(end, |s|)]
  }

  /** The three channels of a colour; each is `None` where `parseInt` gives NaN. */
  datatype Rgb = Rgb(r: Option<nat>, g: Option<nat>, b: Option<nat>)

  /** CyberGrid's `parseColor`: `parseInt` of the slices 1–3, 3–5 and 5–7. */
  function ParseColor(color: string): Rgb
  {
    Rgb(ParseInt(Slice(color, 1, 3)), ParseInt(Slice(color, 3, 5)), ParseInt(Slice(color, 5, 7)))
  }

  /** '#' followed by exactly six hex digits. */
  predicate WellFormedColor(s: string)
  {
    |s| == 7 && s[0] == '#' && AllHex(s[1..])
  }

  /** The byte that two hex digits spell. */
  function Byte(hi: char, lo: char): (v: nat)
    requires IsHexDigit(hi) && IsHexDigit(lo)
    ensures v <= 255
  {
    16 * DigitValue(hi) + DigitValue(lo)
  }

  /** A colour that starts with '#' and six hex digits parses to the three bytes at
      offsets 1–2, 3–4 and 5–6, each in [0, 255]. */
  lemma ParseColorChannels(color: string)
    requires |color| >= 7 && color[0] == '#' && AllHex(color[1..7])
    ensures IsHexDigit(color[1]) && IsHexDigit(color[2]) && IsHexDigit(color[3])
    ensures IsHexDigit(color[4]) && IsHexDigit(color[5]) && IsHexDigit(color[6])
    ensures ParseColor(color)
         == Rgb(Some(Byte(color[1], color[2])), Some(Byte(color[3], color[4])), Some(Byte(color[5], color[6])))
  {
    assert color[1..7][0] == color[1] && color[1..7][1] == color[2] && color[1..7][2] == color[3];
    assert color[1..7][3] == color[4] && color[1..7][4] == color[5] && color[1..7][5] == color[6];
    ChannelValue(color, 1);
    ChannelValue(color, 3);
    ChannelValue(color, 5);
  }

  lemma ChannelValue(color: string, k: nat)
    requires k + 2 <= |color| && IsHexDigit(color[k]) && IsHexDigit(color[k + 1])
    ensures ParseInt(Slice(color, k, k + 2)) == Some(Byte(color[k], color[k + 1]))
  {
    var s := Slice(color, k, k + 2);
    assert s == [color[k], color[k + 1]];
    assert s[..1] == [color[k]];
    assert s[..1][..0] == [];
    assert AllHex(s);
    assert ValueOf(s[..1]) == DigitValue(color[k]);
    assert ValueOf(s) == Byte(color[k], color[k + 1]);
  }

  /** Characters after index 6 play no part in the parse (a '#rrggbbaa' glow colour
      parses like its first seven characters). */
  lemma ParseColorIgnoresTail(color: string, tail: string)
    requires |color| == 7
    ensures ParseColor(color + tail) == ParseColor(color)
  {
    assert Slice(color + tail, 1, 3) == Slice(color, 1, 3);
    assert Slice(color + tail, 3, 5) == Slice(color, 3, 5);
    assert Slice(color + tail, 5, 7) == Slice(color, 5, 7);
  }

  function DigitChar(d: nat): (c: char)
    requires d < 16
    ensures IsHexDigit(c) && DigitValue(c) == d
  {
    if d < 10 then ('0' as int + d) as char else ('a' as int + d - 10) as char
  }

  /** `n.toString(16)` for a non-negative integer: lower-case digits, no leading zero. */
  function ToHexString(n: nat): (s: string)
    ensures AllHex(s) && |s| >= 1
    ensures ValueOf(s) == n
    ensures n < 16 ==> |s| == 1
    ensures 16 <= n < 256 ==> |s| == 2
  {
    if n < 16 then [DigitChar(n)]
    else
      var t := ToHexString(n / 16);
      var s := t + [DigitChar(n % 16)];
      assert s[..|s| - 1] == t;
      s
  }

  /** `s.padStart(width, fill)` with a one-character fill. */
  function PadStart(s: string, width: nat, fill: char): (r: string)
    ensures |r| == if |s| >= width then |s| else width
    ensures r[|r| - |s|..] == s
    ensures forall i :: 0 <= i < |r| - |s| ==> r[i] == fill
    decreases width - |s|
  {
    if |s| >= width then s else PadStart([fill] + s, width, fill)
  }

  /** `n.toString(16).padStart(2, '0')`, the alpha suffix of a '#rrggbbaa' colour. */
  function AlphaSuffix(n: nat): string
  {
    PadStart(ToHexString(n), 2, '0')
  }

  /** A single digit padded with '0' keeps its value. */
  lemma PaddedDigit(c: char)
    requires IsHexDigit(c)
    ensures AllHex(['0', c]) && ValueOf(['0', c]) == DigitValue(c)
  {
    assert ['0', c][..1] == ['0'];
    assert ['0'][..0] == [];
  }

  /** Every byte renders as exactly two hex digits, and they parse back to it. */
  lemma {:induction false} AlphaSuffixRoundTrip(n: nat)
    requires n <= 255
    ensures |AlphaSuffix(n)| == 2 && AllHex(AlphaSuffix(n))
    ensures ParseInt(AlphaSuffix(n)) == Some(n)
  {
    var t := ToHexString(n);
    if n < 16 {
      var c := DigitChar(n);
      assert t == [c];
      assert PadStart(t, 2, '0') == PadStart(['0', c], 2, '0') == ['0', c];
      PaddedDigit(c);
    } else {
      assert AlphaSuffix(n) == t;
    }
  }
}
