/** The SEDONA product page (src/pages/SedonaProduct.tsx): the product named
    by the route's slug, or the not-found view; the thumbnail strip; the
    specification panel and its rows; and the related products, which share
    the product's category. */
module SedonaProductPage {
  import opened Common
  import opened JsText
  import opened Seqs
  import opened SedonaCatalogue

  /** One row of the specification panel: its heading and the text shown. */
  datatype SpecRow = SpecRow(heading: string, value: string)

  /** What the page renders. */
  datatype SedonaPage =
    | SedonaNotFound
    | SedonaFound(
        product: SedonaProduct,
        thumbnails: bool,
        badgeShown: bool,
        specsPanel: bool,
        specRows: seq<SpecRow>,
        related: seq<SedonaProduct>,
        relatedShown: bool)

  const MaxRelated := 3

  /** `slug || ""`: a missing route parameter looks up the empty id. */
  function SlugOrEmpty(slug: Option<string>): string {
    if slug.Some? then slug.value else ""
  }

  /** The rows of the specification panel, in the panel's order: frequency,
      intensity, programs, waveforms (joined with ", "), dimensions and
      warranty, each only when truthy. A present list is truthy even when
      empty; `applicators` has no row. */
  function SpecRows(specs: SedonaSpecs): (rows: seq<SpecRow>)
    ensures |rows| <= 6
  {
    TextRow("Frequency Range", specs.frequency) +
    TextRow("Intensity", specs.intensity) +
    TextRow("Programs", specs.programs) +
    (if specs.waveforms.Some? then [SpecRow("Waveforms", Join(specs.waveforms.value, ", "))] else []) +
    TextRow("Dimensions", specs.dimensions) +
    TextRow("Warranty", specs.warranty)
  }

  /** The row of a text field: its heading and value, when the value is truthy. */
  function TextRow(heading: string, field: Option<string>): seq<SpecRow> {
    if Truthy(field) then [SpecRow(heading, field.value)] else []
  }

  /** A row is in a text field's part exactly when it carries that heading and
      the field's non-empty value. */
  lemma InTextRow(row: SpecRow, heading: string, field: Option<string>)
    ensures row in TextRow(heading, field) <==> row.heading == heading && field == Some(row.value) && row.value != ""
  {
  }

  /** `Object.keys(product.specs).length > 0`: some key is present, whatever
      its value. */
  predicate HasSpecKeys(specs: SedonaSpecs) {
    specs.frequency.Some? || specs.intensity.Some? || specs.programs.Some? || specs.waveforms.Some? ||
    specs.applicators.Some? || specs.dimensions.Some? || specs.warranty.Some?
  }

  /** The filter of `relatedProducts`: another product of the same category. */
  function IsRelated(product: SedonaProduct): SedonaProduct -> bool {
    (p: SedonaProduct) => p.id != product.id && p.category == product.category
  }

  /** The selection `relatedProducts` makes from a catalogue: the first three
      other products of the same category, in catalogue order. */
  function RelatedIn(catalogue: seq<SedonaProduct>, product: SedonaProduct): (r: seq<SedonaProduct>)
    ensures |r| <= MaxRelated
    ensures forall i :: 0 <= i < |r| ==> r[i] in catalogue && r[i].id != product.id && r[i].category == product.category
  {
    Take(Filter(catalogue, IsRelated(product)), MaxRelated)
  }

  /** `relatedProducts`: that selection from the Sedona catalogue. */
  function Related(product: SedonaProduct): (r: seq<SedonaProduct>)
    ensures |r| <= MaxRelated
    ensures forall i :: 0 <= i < |r| ==> r[i] in SedonaProducts && r[i].id != product.id && r[i].category == product.category
  {
    RelatedIn(SedonaProducts, product)
  }

  /** The page for a route parameter. */
  function Page(slug: Option<string>): (v: SedonaPage)
    ensures v.SedonaNotFound? <==> forall i :: 0 <= i < |SedonaProducts| ==> SedonaProducts[i].id != SlugOrEmpty(slug)
    ensures v.SedonaFound? ==> v.product.id == SlugOrEmpty(slug)
  {
    match GetProductBySlug(SlugOrEmpty(slug))
    case None => SedonaNotFound
    case Some(product) =>
      var related := Related(product);
      SedonaFound(
        product,
        |product.images| > 1,
        product.badge != "",
        HasSpecKeys(product.specs),
        SpecRows(product.specs),
        related,
        |related| > 0)
  }

  /** A row is in the panel exactly when one of the six parts produces it:
      a text field's part under its heading with its truthy value, or the
      waveforms part with the joined list. */
  lemma InSpecRows(row: SpecRow, specs: SedonaSpecs)
    ensures row in SpecRows(specs) <==>
      || (row.heading == "Frequency Range" && specs.frequency == Some(row.value) && row.value != "")
      || (row.heading == "Intensity" && specs.intensity == Some(row.value) && row.value != "")
      || (row.heading == "Programs" && specs.programs == Some(row.value) && row.value != "")
      || (row.heading == "Waveforms" && specs.waveforms.Some? && row.value == Join(specs.waveforms.value, ", "))
      || (row.heading == "Dimensions" && specs.dimensions == Some(row.value) && row.value != "")
      || (row.heading == "Warranty" && specs.warranty == Some(row.value) && row.value != "")
  {
    InTextRow(row, "Frequency Range", specs.frequency);
    InTextRow(row, "Intensity", specs.intensity);
    InTextRow(row, "Programs", specs.programs);
    InTextRow(row, "Dimensions", specs.dimensions);
    InTextRow(row, "Warranty", specs.warranty);
  }

  /** The frequency and intensity rows: a truthy value has exactly its own
      row, and a missing or empty one has none. */
  lemma FrequencyAndIntensityRows(specs: SedonaSpecs, v: string)
    ensures SpecRow("Frequency Range", v) in SpecRows(specs) <==> specs.frequency == Some(v) && v != ""
    ensures SpecRow("Intensity", v) in SpecRows(specs) <==> specs.intensity == Some(v) && v != ""
  {
    InSpecRows(SpecRow("Frequency Range", v), specs);
    InSpecRows(SpecRow("Intensity", v), specs);
  }

  /** The programs row follows the same rule; the waveforms row appears
      exactly when the list is present, even empty, and shows it joined
      with ", ". */
  lemma ProgramsAndWaveformsRows(specs: SedonaSpecs, v: string)
    ensures SpecRow("Programs", v) in SpecRows(specs) <==> specs.programs == Some(v) && v != ""
    ensures SpecRow("Waveforms", v) in SpecRows(specs) <==> specs.waveforms.Some? && v == Join(specs.waveforms.value, ", ")
  {
    InSpecRows(SpecRow("Programs", v), specs);
    InSpecRows(SpecRow("Waveforms", v), specs);
  }

  /** The dimensions and warranty rows follow the rule of the text fields. */
  lemma DimensionsAndWarrantyRows(specs: SedonaSpecs, v: string)
    ensures SpecRow("Dimensions", v) in SpecRows(specs) <==> specs.dimensions == Some(v) && v != ""
    ensures SpecRow("Warranty", v) in SpecRows(specs) <==> specs.warranty == Some(v) && v != ""
  {
    InSpecRows(SpecRow("Dimensions", v), specs);
    InSpecRows(SpecRow("Warranty", v), specs);
  }

  /** The applicators are never shown, so a product whose only specification
      is its applicators list gets the panel with its heading and no row. */
  lemma ApplicatorsOnlyPanelIsEmpty(specs: SedonaSpecs)
    requires specs == NoSpecs.(applicators := specs.applicators) && specs.applicators.Some?
    ensures HasSpecKeys(specs) && SpecRows(specs) == []
  {
  }

  /** A product of the same category that is not shown as related is left
      out only because three related products are already shown. */
  lemma RelatedAreTheFirstMatches(product: SedonaProduct, p: SedonaProduct)
    requires p in SedonaProducts && p.id != product.id && p.category == product.category
    requires p !in Related(product)
    ensures |Related(product)| == MaxRelated
  {
    TakeFilterSkipsOnlyAtLimit(SedonaProducts, IsRelated(product), MaxRelated, p);
  }

  /** Related products are the first same-category products in catalogue
      order: they sit at increasing catalogue positions `idx`, and every other
      same-category product left out sits after all of them. Stated for any
      catalogue; the page's `Related` is the one over `SedonaProducts`. */
  lemma RelatedKeepCatalogueOrder(catalogue: seq<SedonaProduct>, product: SedonaProduct)
    ensures exists idx ::
      && Embeds(RelatedIn(catalogue, product), catalogue, idx)
      && forall j ::
           (0 <= j < |catalogue| && catalogue[j].id != product.id && catalogue[j].category == product.category &&
            catalogue[j] !in RelatedIn(catalogue, product)) ==>
             forall m :: 0 <= m < |idx| ==> idx[m] < j
  {
    TakeFilterKeepsOrder(catalogue, IsRelated(product), MaxRelated);
  }

  /** A product never lists itself among its related products. */
  lemma RelatedExcludesSelf(product: SedonaProduct)
    ensures product !in Related(product)
  {
  }

  /** Every catalogue product's page shows the thumbnail strip, and the
      thumbnails show exactly when there is more than one image. */
  lemma ThumbnailsShown(i: nat)
    requires i < |SedonaProducts|
    ensures Page(Some(SedonaProducts[i].id)).SedonaFound?
    ensures Page(Some(SedonaProducts[i].id)).thumbnails
  {
    LookupIsUnambiguous(i);
    CatalogueWellFormed();
  }
}
