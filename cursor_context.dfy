/** CursorContext.tsx: a registry of four named cursor styles and a provider whose
    single state cell `currentStyle` starts at the 'hex' style and is replaced by
    `setStyle(name)` only when the name is registered. */
module CursorContext {
  import opened Wrappers

  datatype Shape = Neural | Quantum | Matrix

  /** `config`; the optional keys of the source's interface are `Option`s. */
  datatype CursorConfig = CursorConfig(
    baseSize: real, particleCount: nat,
    useHexagon: Option<bool>, useScanline: Option<bool>, useTrails: Option<bool>,
    rotationSpeed: Option<real>, particleColors: Option<seq<string>>,
    trailLength: Option<nat>, customShape: Option<Shape>)

  datatype CursorStyle = CursorStyle(name: string, config: CursorConfig)

  const DefaultStyle: CursorStyle :=
    CursorStyle("hex", CursorConfig(12.0, 50, Some(true), Some(true), Some(true), Some(2.0),
      Some(["#ff00ff", "#00ffff", "#ffff00"]), Some(8), None))

  /** The `styles` record; its 'hex' entry is `defaultStyle` itself. */
  const Styles: map<string, CursorStyle> := map[
    "hex" := DefaultStyle,
    "neural" := CursorStyle("neural", CursorConfig(8.0, 30, Some(false), Some(false), Some(true), Some(1.5),
      Some(["#00ffff", "#ff00ff"]), Some(6), Some(Neural))),
    "quantum" := CursorStyle("quantum", CursorConfig(10.0, 40, Some(false), Some(true), Some(true), Some(3.0),
      Some(["#ffff00", "#00ffff"]), Some(10), Some(Quantum))),
    "matrix" := CursorStyle("matrix", CursorConfig(15.0, 60, Some(false), Some(true), Some(true), Some(1.0),
      Some(["#00ff00", "#00cc00", "#009900"]), Some(12), Some(Matrix)))
  ]

  /** `styles[name]`, `None` standing for `undefined`. */
  function Lookup(name: string): (r: Option<CursorStyle>)
    ensures r.Some? <==> name in Styles.Keys
    ensures r.Some? ==> r.value.name == name
  {
    if name in Styles then Some(Styles[name]) else None
  }

  /** The four registered names, and 'hex' maps to the default style. */
  lemma RegistryShape()
    ensures Styles.Keys == {"hex", "neural", "quantum", "matrix"}
    ensures Styles["hex"] == DefaultStyle && DefaultStyle.name == "hex"
  {
  }

  /** The style after `setStyle(name)` from `current`. */
  function NextStyle(current: CursorStyle, name: string): (r: CursorStyle)
    ensures name in Styles ==> r == Styles[name] && r.name == name
    ensures name !in Styles ==> r == current
  {
    match Lookup(name)
    case Some(s) => s
    case None => current
  }

  /** `setStyle` is idempotent. */
  lemma NextStyleIdempotent(current: CursorStyle, name: string)
    ensures NextStyle(NextStyle(current, name), name) == NextStyle(current, name)
  {
  }

  /** The last call with a registered name wins, whatever came before. */
  lemma NextStyleLastWins(a: CursorStyle, b: CursorStyle, first: string, name: string)
    requires name in Styles
    ensures NextStyle(NextStyle(a, first), name) == NextStyle(b, name)
  {
  }

  /** `CursorProvider`'s `currentStyle` state cell. */
  class CursorProvider {
    var currentStyle: CursorStyle

    ghost predicate Valid()
      reads this
    {
      currentStyle in Styles.Values
    }

    constructor ()
      ensures Valid() && currentStyle == DefaultStyle && currentStyle.name == "hex"
    {
      currentStyle := DefaultStyle;
      assert Styles["hex"] == DefaultStyle;
    }

    method SetStyle(styleName: string)
      requires Valid()
      modifies this
      ensures Valid()
      ensures styleName in Styles ==> currentStyle == Styles[styleName] && currentStyle.name == styleName
      ensures styleName !in Styles ==> currentStyle == old(currentStyle)
    {
      var newStyle := Lookup(styleName);
      if newStyle.Some? {
        currentStyle := newStyle.value;
      }
    }
  }

  /** `useCursor`: the provider's value, or the error thrown outside a provider. */
  function UseCursor(provided: Option<CursorStyle>): (r: Result<CursorStyle>)
    ensures r.Err? <==> provided.None?
    ensures provided.Some? ==> r == Ok(provided.value)
  {
    match provided
    case None => Err("useCursor must be used within a CursorProvider")
    case Some(s) => Ok(s)
  }
}
