/** GlitchText.tsx: a timer loop that starts a glitch with a probability set by the
    intensity, and `getGlitchText`, which replaces each character, with probability
    0.3, by a random symbol while a glitch is on. */
module GlitchText {
  import Draws

  datatype Intensity = Low | Medium | High

  /** One entry of `glitchIntensityConfig`; `duration` and `offset` are as written. */
  datatype GlitchConfig = GlitchConfig(probability: real, duration: nat, offset: nat)

  function Config(i: Intensity): (c: GlitchConfig)
    ensures 0.0 < c.probability < 1.0
  {
    match i
    case Low => GlitchConfig(0.3, 50, 2)
    case Medium => GlitchConfig(0.5, 100, 3)
    case High => GlitchConfig(0.7, 150, 5)
  }

  function Rank(i: Intensity): nat
  {
    match i
    case Low => 0
    case Medium => 1
    case High => 2
  }

  /** A stronger intensity glitches more often, for longer and further. */
  lemma StrongerIntensityGlitchesMore(a: Intensity, b: Intensity)
    requires Rank(a) < Rank(b)
    ensures Config(a).probability < Config(b).probability
    ensures Config(a).duration < Config(b).duration && Config(a).offset < Config(b).offset
  {
  }

  /** One round of `glitchLoop`: whether a glitch starts, on draw `r`, and the delay
      before the next round, on draw `rNext`. */
  datatype Tick = Tick(glitch: bool, nextDelay: real)

  function GlitchTick(intensity: Intensity, glitchInterval: real, r: real, rNext: real): (t: Tick)
    requires Draws.IsDraw(r) && Draws.IsDraw(rNext)
    ensures t.glitch <==> r < Config(intensity).probability
    ensures glitchInterval <= t.nextDelay < glitchInterval + 1000.0
  {
    var span := 1000.0;
    Draws.Scale(rNext, span);
    Tick(r < Config(intensity).probability, glitchInterval + rNext * span)
  }

  /** On the same draw, a glitch at a weaker intensity is a glitch at every stronger
      one. */
  lemma GlitchTickMonotone(a: Intensity, b: Intensity, interval: real, r: real, rNext: real)
    requires Draws.IsDraw(r) && Draws.IsDraw(rNext) && Rank(a) <= Rank(b)
    ensures GlitchTick(a, interval, r, rNext).glitch ==> GlitchTick(b, interval, r, rNext).glitch
  {
    if Rank(a) < Rank(b) {
      StrongerIntensityGlitchesMore(a, b);
    }
  }

  const GlitchChars: string := "!@#$%^&*<>[]{}|=+?"

  predicate IsAlphanumeric(c: char)
  {
    '0' <= c <= '9' || 'a' <= c <= 'z' || 'A' <= c <= 'Z'
  }

  /** No replacement symbol is a letter or a digit. */
  lemma GlitchCharsAreSymbols()
    ensures |GlitchChars| == 18
    ensures forall i :: 0 <= i < |GlitchChars| ==> !IsAlphanumeric(GlitchChars[i])
  {
  }

  /** `glitchChars[Math.floor(Math.random() * glitchChars.length)]`. */
  function GlitchChar(choice: real): (c: char)
    requires Draws.IsDraw(choice)
    ensures c in GlitchChars && !IsAlphanumeric(c)
  {
    GlitchCharsAreSymbols();
    GlitchChars[Draws.PickIndex(choice, |GlitchChars|)]
  }

  predicate AllDraws(rs: seq<real>)
  {
    forall i :: 0 <= i < |rs| ==> Draws.IsDraw(rs[i])
  }

  /** `getGlitchText`. Position `i` uses the draw `pick[i]` for the 0.3 test and, when
      it replaces the character, `choice[i]` for the symbol. */
  method GetGlitchText(text: string, isGlitching: bool, pick: seq<real>, choice: seq<real>) returns (result: string)
    requires |pick| == |text| && |choice| == |text| && AllDraws(pick) && AllDraws(choice)
    ensures !isGlitching ==> result == text
    ensures |result| == |text|
    ensures isGlitching ==> forall i :: 0 <= i < |text| && pick[i] >= 0.3 ==> result[i] == text[i]
    ensures isGlitching ==> forall i :: 0 <= i < |text| && pick[i] < 0.3 ==> result[i] == GlitchChar(choice[i])
    ensures forall i :: 0 <= i < |text| ==> result[i] == text[i] || result[i] in GlitchChars
    ensures forall i :: 0 <= i < |text| && IsAlphanumeric(text[i]) ==> (result[i] == text[i] <==> !isGlitching || pick[i] >= 0.3)
  {
    if !isGlitching {
      return text;
    }
    result := "";
    var i := 0;
    while i < |text|
      invariant 0 <= i <= |text| && |result| == i
      invariant forall k :: 0 <= k < i && pick[k] >= 0.3 ==> result[k] == text[k]
      invariant forall k :: 0 <= k < i && pick[k] < 0.3 ==> result[k] == GlitchChar(choice[k])
    {
      if pick[i] < 0.3 {
        result := result + [GlitchChar(choice[i])];
      } else {
        result := result + [text[i]];
      }
      i := i + 1;
    }
  }

  /** With every draw at or above 0.3 a glitch leaves the text as it is. */
  method UntouchedWhenDrawsHigh(text: string, pick: seq<real>, choice: seq<real>) returns (shown: string)
    requires |pick| == |text| && |choice| == |text| && AllDraws(pick) && AllDraws(choice)
    requires forall i :: 0 <= i < |pick| ==> pick[i] >= 0.3
    ensures shown == text
  {
    shown := GetGlitchText(text, true, pick, choice);
  }
}
