/**
 * The `--output-format` / `--output-version` decisions of `kube-score score`:
 * which formats are accepted, which version is used when none is given, and
 * which of the five renderers a (format, version) pair selects.
 */
module OutputFormat {
  import opened Results

  /** The renderers `scoreFiles` can hand the score card to. */
  datatype Renderer =
    | JsonV1Marshal  // the score card marshalled as indented JSON (version v1)
    | JsonV2         // json_v2.Output
    | Human          // human.Human
    | Ci             // ci.CI
    | Sarif          // sarif.Output

  /** The formats the early `--output-format` check lets through: exactly those some renderer serves. */
  predicate IsKnownFormat(format: string): (known: bool)
    ensures known <==> exists r: Renderer :: FormatOf(r) == format
  {
    assert FormatOf(Human) == "human" && FormatOf(Ci) == "ci" && FormatOf(JsonV2) == "json" && FormatOf(Sarif) == "sarif";
    format == "human" || format == "ci" || format == "json" || format == "sarif"
  }

  /**
   * The version used for a format: an explicit `--output-version` wins,
   * otherwise "json" defaults to "v2" and every other format to "v1".
   */
  function GetOutputVersion(flagValue: string, format: string): (version: string)
    ensures |version| > 0
    ensures flagValue != "" ==> version == flagValue
    ensures flagValue == "" ==> version == "v1" || version == "v2"
    ensures flagValue == "" ==> (version == "v2" <==> format == "json")
  {
    if |flagValue| > 0 then flagValue
    else if format == "json" then "v2"
    else "v1"
  }

  /** The renderer chain of `scoreFiles`, tried in source order; `None` is "Unknown --output-format or --output-version". */
  function SelectRenderer(format: string, version: string): (r: Option<Renderer>)
    ensures r.Some? ==> IsKnownFormat(format)
    ensures format == "sarif" ==> r == Some(Sarif)
  {
    if format == "json" && version == "v1" then Some(JsonV1Marshal)
    else if format == "json" && version == "v2" then Some(JsonV2)
    else if format == "human" && version == "v1" then Some(Human)
    else if format == "ci" && version == "v1" then Some(Ci)
    else if format == "sarif" then Some(Sarif)
    else None
  }

  // Reference description of the renderers, independent of the if/else chain.

  /** The `--output-format` value a renderer serves. */
  function FormatOf(r: Renderer): string {
    match r
    case JsonV1Marshal => "json"
    case JsonV2 => "json"
    case Human => "human"
    case Ci => "ci"
    case Sarif => "sarif"
  }

  /** The `--output-version` values a renderer serves: SARIF ignores the version. */
  predicate ServesVersion(r: Renderer, version: string) {
    match r
    case JsonV1Marshal => version == "v1"
    case JsonV2 => version == "v2"
    case Human => version == "v1"
    case Ci => version == "v1"
    case Sarif => true
  }

  /** The chain picks a renderer exactly when that renderer serves the format and the version. */
  lemma SelectRendererMatchesTable(format: string, version: string, r: Renderer)
    ensures SelectRenderer(format, version) == Some(r) <==> FormatOf(r) == format && ServesVersion(r, version)
  {
  }

  /** The chain fails exactly when no renderer serves the pair. */
  lemma SelectRendererFailsIffNoRenderer(format: string, version: string)
    ensures SelectRenderer(format, version).None? <==>
            forall r: Renderer :: !(FormatOf(r) == format && ServesVersion(r, version))
  {
    if SelectRenderer(format, version).Some? {
      var r := SelectRenderer(format, version).value;
      SelectRendererMatchesTable(format, version, r);
    } else {
      forall r: Renderer ensures !(FormatOf(r) == format && ServesVersion(r, version)) {
        SelectRendererMatchesTable(format, version, r);
      }
    }
  }

  /** Every format that passes validation has a renderer for its default version. */
  lemma DefaultVersionAlwaysSelects(format: string)
    requires IsKnownFormat(format)
    ensures SelectRenderer(format, GetOutputVersion("", format)).Some?
    ensures format == "json" ==> SelectRenderer(format, GetOutputVersion("", format)) == Some(JsonV2)
  {
  }

  /** Unknown formats are rejected by the chain itself, whatever the version. */
  lemma UnknownFormatNeverSelects(format: string, version: string)
    requires !IsKnownFormat(format)
    ensures SelectRenderer(format, version).None?
  {
  }
}
