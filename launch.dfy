/**
 * Launch-parameter resolution: the page's query string, read once at start-up,
 * becomes an immutable configuration.
 *
 * `URLSearchParams.get` yields the value of a parameter or `null`; the query is
 * modelled as a map from parameter name to value, a missing key standing for `null`.
 * `parseInt` and `parseFloat` are not interpreted: the configuration records the
 * text each one receives (and the radix), which is exactly what the page decides.
 */
module Launch {

  type Query = map<string, string>

  /** The number a parser call denotes, kept symbolic: `parseInt(text, radix)` or `parseFloat(text)`. */
  datatype NumberText = ParseInt(text: string, radix: nat) | ParseFloat(text: string)

  datatype Config = Config(
    modelSelection: NumberText,
    minDetectionConfidence: NumberText,
    isBackCamera: bool,
    flipHorizontal: bool,
    isFullScreen: bool,
    enableDrawing: bool,
    drawBoundingBoxColor: string,
    drawLandmarksColor: string)

  /** `urlParams.get(name) || fallback`: both `null` and the empty string are falsy. */
  function Param(q: Query, name: string, fallback: string): (s: string)
    ensures name !in q || q[name] == "" ==> s == fallback
    ensures name in q && q[name] != "" ==> s == q[name]
    ensures fallback != "" ==> s != ""
  {
    if name in q && q[name] != "" then q[name] else fallback
  }

  /** `urlParams.get(name) === "true"`: strict equality, no case folding, no other spelling. */
  function Flag(q: Query, name: string): (b: bool)
    ensures b ==> name in q && q[name] == "true"
    ensures name in q && q[name] == "true" ==> b
  {
    name in q && q[name] == "true"
  }

  /** The constant block at the top of the page. */
  function Resolve(q: Query): (c: Config)
    ensures c.isBackCamera <==> "isBackCamera" in q && q["isBackCamera"] == "true"
    ensures c.flipHorizontal <==> "flipHorizontal" in q && q["flipHorizontal"] == "true"
    ensures c.isFullScreen <==> "isFullScreen" in q && q["isFullScreen"] == "true"
    ensures c.enableDrawing <==> "enableDrawing" in q && q["enableDrawing"] == "true"
    ensures c.modelSelection.ParseInt? && c.modelSelection.radix == 10
    ensures c.minDetectionConfidence.ParseFloat?
    ensures c.modelSelection.text != "" && c.minDetectionConfidence.text != ""
    ensures c.drawBoundingBoxColor != "" && c.drawLandmarksColor != ""
  {
    Config(
      modelSelection := ParseInt(Param(q, "modelSelection", "0"), 10),
      minDetectionConfidence := ParseFloat(Param(q, "minDetectionConfidence", "0.5")),
      isBackCamera := Flag(q, "isBackCamera"),
      flipHorizontal := Flag(q, "flipHorizontal"),
      isFullScreen := Flag(q, "isFullScreen"),
      enableDrawing := Flag(q, "enableDrawing"),
      drawBoundingBoxColor := Param(q, "drawBoundingBoxColor", "255,0,0"),
      drawLandmarksColor := Param(q, "drawLandmarksColor", "0,255,0"))
  }

  /** What the page runs with when it is launched without any parameter. */
  function Defaults(): (c: Config)
    ensures c == Resolve(map[])
    ensures !c.isBackCamera && !c.flipHorizontal && !c.isFullScreen && !c.enableDrawing
  {
    Config(ParseInt("0", 10), ParseFloat("0.5"), false, false, false, false, "255,0,0", "0,255,0")
  }

  /** A parameter that is absent or empty resolves to its default, field by field. */
  lemma MissingGivesDefault(q: Query)
    ensures ("modelSelection" !in q || q["modelSelection"] == "") ==>
              Resolve(q).modelSelection == Defaults().modelSelection
    ensures ("minDetectionConfidence" !in q || q["minDetectionConfidence"] == "") ==>
              Resolve(q).minDetectionConfidence == Defaults().minDetectionConfidence
    ensures ("drawBoundingBoxColor" !in q || q["drawBoundingBoxColor"] == "") ==>
              Resolve(q).drawBoundingBoxColor == Defaults().drawBoundingBoxColor
    ensures ("drawLandmarksColor" !in q || q["drawLandmarksColor"] == "") ==>
              Resolve(q).drawLandmarksColor == Defaults().drawLandmarksColor
    ensures "isBackCamera" !in q ==> Resolve(q).isBackCamera == Defaults().isBackCamera
    ensures "flipHorizontal" !in q ==> Resolve(q).flipHorizontal == Defaults().flipHorizontal
    ensures "isFullScreen" !in q ==> Resolve(q).isFullScreen == Defaults().isFullScreen
    ensures "enableDrawing" !in q ==> Resolve(q).enableDrawing == Defaults().enableDrawing
  {
  }

  /**
   * A present, non-empty value is handed on verbatim: in particular a malformed
   * number is given to the parser as it is, and is not replaced by the default.
   */
  lemma PresentPassesThrough(q: Query)
    ensures "modelSelection" in q && q["modelSelection"] != "" ==>
              Resolve(q).modelSelection == ParseInt(q["modelSelection"], 10)
    ensures "minDetectionConfidence" in q && q["minDetectionConfidence"] != "" ==>
              Resolve(q).minDetectionConfidence == ParseFloat(q["minDetectionConfidence"])
    ensures "drawBoundingBoxColor" in q && q["drawBoundingBoxColor"] != "" ==>
              Resolve(q).drawBoundingBoxColor == q["drawBoundingBoxColor"]
    ensures "drawLandmarksColor" in q && q["drawLandmarksColor"] != "" ==>
              Resolve(q).drawLandmarksColor == q["drawLandmarksColor"]
  {
  }

  /** Any value other than the exact text `true` (`True`, `1`, `yes`, the empty string) reads as false. */
  lemma OnlyExactTrue(q: Query, name: string, v: string)
    requires v != "true"
    ensures !Flag(q[name := v], name)
  {
  }

  /** The launch URL a host would build for a configuration: every parameter spelled out. */
  function Encode(c: Config): (q: Query)
    ensures q.Keys == {"modelSelection", "minDetectionConfidence", "isBackCamera", "flipHorizontal",
                       "isFullScreen", "enableDrawing", "drawBoundingBoxColor", "drawLandmarksColor"}
  {
    map[
      "modelSelection" := c.modelSelection.text,
      "minDetectionConfidence" := c.minDetectionConfidence.text,
      "isBackCamera" := BoolText(c.isBackCamera),
      "flipHorizontal" := BoolText(c.flipHorizontal),
      "isFullScreen" := BoolText(c.isFullScreen),
      "enableDrawing" := BoolText(c.enableDrawing),
      "drawBoundingBoxColor" := c.drawBoundingBoxColor,
      "drawLandmarksColor" := c.drawLandmarksColor]
  }

  function BoolText(b: bool): string
  {
    if b then "true" else "false"
  }

  /** The configurations a query can produce are exactly those of the shape `Resolve` promises. */
  predicate Resolvable(c: Config)
  {
    && c.modelSelection.ParseInt? && c.modelSelection.radix == 10
    && c.minDetectionConfidence.ParseFloat?
    && c.modelSelection.text != "" && c.minDetectionConfidence.text != ""
    && c.drawBoundingBoxColor != "" && c.drawLandmarksColor != ""
  }

  /** Round trip: resolving the encoded launch URL gives back the configuration. */
  lemma ResolveEncode(c: Config)
    requires Resolvable(c)
    ensures Resolve(Encode(c)) == c
  {
  }
}
