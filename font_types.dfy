/**
 * The shapes the upload pipeline hands to the page, from
 * `src/lib/components/forms/index.ts`.
 */
module FontTypes {
  import opened Wrappers
  import opened FeatureCatalog

  /** One feature tag of an uploaded font with its catalogue entry, if any. */
  datatype FontFeature = FontFeature(name: string, info: Option<FeatureInfo>)

  /** What the page keeps about the current font. `font` holds the family name. */
  datatype FontInfo = FontInfo(
    url: string,
    font: string,
    features: seq<FontFeature>,
    format: string,
    fileName: string)

  /** `Font = FontInfo | null`. */
  type Font = Option<FontInfo>
}
