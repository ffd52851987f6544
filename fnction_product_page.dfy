/** The F+NCTION product page (src/pages/FnctionProduct.tsx): the product
    named by the route's slug, or the not-found view; the thumbnail strip;
    the price; the Add to Cart button, held back for products that are not
    on sale yet; the first ten ingredients and the note counting the rest;
    and up to two other products. */
module FnctionProductPage {
  import opened Common
  import opened JsText
  import opened Seqs
  import opened Money
  import opened FnctionCatalogue

  const MaxRelated := 2
  const MaxIngredientsShown := 10
  const MoreNotePrefix := "+ "
  const MoreNoteSuffix := " more ingredients"

  /** The Add to Cart button: whether it is disabled and its caption. */
  datatype CartButton = CartButton(disabled: bool, caption: string)

  /** What the page renders. */
  datatype FnctionPage =
    | FnctionNotFound
    | FnctionFound(
        product: FnctionProduct,
        thumbnails: bool,
        badgeShown: bool,
        price: string,
        cartButton: CartButton,
        ingredientsShown: seq<Ingredient>,
        moreIngredients: Option<string>,
        related: seq<FnctionProduct>,
        relatedShown: bool)

  /** `slug || ""`: a missing route parameter looks up the empty id. */
  function SlugOrEmpty(slug: Option<string>): string {
    if slug.Some? then slug.value else ""
  }

  /** The button compares the badge with "Coming Soon" for both its
      `disabled` flag and its caption. */
  function AddToCartButton(product: FnctionProduct): CartButton {
    if product.badge == Some(ComingSoonBadge) then CartButton(true, "Coming Soon")
    else CartButton(false, "Add to Cart")
  }

  /** `ingredients.slice(0, 10)`. */
  function ShownIngredients(ingredients: seq<Ingredient>): seq<Ingredient> {
    Take(ingredients, MaxIngredientsShown)
  }

  /** The note under the list, present only when more than ten ingredients
      exist: "+ n more ingredients" with n the number left unlisted. */
  function MoreIngredientsNote(ingredients: seq<Ingredient>): Option<string> {
    if |ingredients| > MaxIngredientsShown then
      Some(MoreNotePrefix + NatString(|ingredients| - MaxIngredientsShown) + MoreNoteSuffix)
    else None
  }

  /** Reads the count back out of a note of the form "+ n more ingredients". */
  function NoteCount(note: string): Option<nat> {
    if |note| > |MoreNotePrefix| + |MoreNoteSuffix|
      && note[..|MoreNotePrefix|] == MoreNotePrefix
      && note[|note| - |MoreNoteSuffix|..] == MoreNoteSuffix
      && IsDigits(note[|MoreNotePrefix|..|note| - |MoreNoteSuffix|])
    then Some(DigitsValue(note[|MoreNotePrefix|..|note| - |MoreNoteSuffix|]))
    else None
  }

  /** The filter of `relatedProducts`: any other product, whatever its
      category. */
  function IsOther(product: FnctionProduct): FnctionProduct -> bool {
    (p: FnctionProduct) => p.id != product.id
  }

  /** The selection `relatedProducts` makes from a catalogue: the first two
      other products, in catalogue order. */
  function RelatedIn(catalogue: seq<FnctionProduct>, product: FnctionProduct): (r: seq<FnctionProduct>)
    ensures |r| <= MaxRelated
    ensures forall i :: 0 <= i < |r| ==> r[i] in catalogue && r[i].id != product.id
  {
    Take(Filter(catalogue, IsOther(product)), MaxRelated)
  }

  /** `relatedProducts`: that selection from the fnction catalogue. */
  function Related(product: FnctionProduct): (r: seq<FnctionProduct>)
    ensures |r| <= MaxRelated
    ensures forall i :: 0 <= i < |r| ==> r[i] in FnctionProducts && r[i].id != product.id
  {
    RelatedIn(FnctionProducts, product)
  }

  /** The page for a route parameter. */
  function Page(slug: Option<string>): (v: FnctionPage)
    ensures v.FnctionNotFound? <==> forall i :: 0 <= i < |FnctionProducts| ==> FnctionProducts[i].id != SlugOrEmpty(slug)
    ensures v.FnctionFound? ==> v.product.id == SlugOrEmpty(slug)
  {
    match GetFnctionProductBySlug(SlugOrEmpty(slug))
    case None => FnctionNotFound
    case Some(product) =>
      var related := Related(product);
      FnctionFound(
        product,
        |product.images| > 1,
        Truthy(product.badge),
        Pounds(product.price),
        AddToCartButton(product),
        ShownIngredients(product.ingredients),
        MoreIngredientsNote(product.ingredients),
        related,
        |related| > 0)
  }

  /** The button is disabled exactly when it reads "Coming Soon", and that is
      exactly when the product's badge says so; otherwise it offers to add
      the product to the cart. */
  lemma ComingSoonGate(product: FnctionProduct)
    ensures AddToCartButton(product).disabled <==> product.badge == Some(ComingSoonBadge)
    ensures AddToCartButton(product).disabled <==> AddToCartButton(product).caption == "Coming Soon"
    ensures !AddToCartButton(product).disabled ==> AddToCartButton(product).caption == "Add to Cart"
  {
  }

  /** Of the catalogue as it stands, only FOCUS cannot be added to the cart. */
  lemma OnlyFocusIsHeldBack(p: FnctionProduct)
    requires p in FnctionProducts
    ensures AddToCartButton(p).disabled <==> p.id == "focus"
  {
    OnlyFocusIsComingSoon();
  }

  /** The listed ingredients are the leading ones, and the note's count reads
      back as the number left out, so together they account for every
      ingredient; the note appears exactly when the list is cut short. */
  lemma IngredientsAccountedFor(ingredients: seq<Ingredient>)
    ensures ShownIngredients(ingredients) == ingredients[..|ShownIngredients(ingredients)|]
    ensures MoreIngredientsNote(ingredients).Some? <==> |ShownIngredients(ingredients)| < |ingredients|
    ensures MoreIngredientsNote(ingredients).Some? ==>
      NoteCount(MoreIngredientsNote(ingredients).value) == Some(|ingredients| - |ShownIngredients(ingredients)|)
  {
    if |ingredients| > MaxIngredientsShown {
      var n := NatString(|ingredients| - MaxIngredientsShown);
      var note := MoreNotePrefix + n + MoreNoteSuffix;
      assert note[..|MoreNotePrefix|] == MoreNotePrefix;
      assert note[|note| - |MoreNoteSuffix|..] == MoreNoteSuffix;
      assert note[|MoreNotePrefix|..|note| - |MoreNoteSuffix|] == n;
      NatStringRoundTrip(|ingredients| - MaxIngredientsShown);
    }
  }

  /** CALM and its starter pack share fourteen ingredients: ten are listed
      and the note counts four more. */
  lemma CalmIngredientNote()
    ensures Calm.ingredients == CalmStarterPack.ingredients == CalmIngredients
    ensures MoreIngredientsNote(CalmIngredients) == Some("+ 4 more ingredients")
  {
    assert NatString(4) == "4";
    assert MoreNotePrefix + "4" + MoreNoteSuffix == "+ 4 more ingredients";
  }

  /** FOCUS has nineteen ingredients: ten are listed and the note counts nine
      more. */
  lemma FocusIngredientNote()
    ensures MoreIngredientsNote(Focus.ingredients) == Some("+ 9 more ingredients")
  {
    assert |Focus.ingredients| == 19;
    assert NatString(9) == "9";
    assert MoreNotePrefix + "9" + MoreNoteSuffix == "+ 9 more ingredients";
  }

  /** The printed price reads back as the product's price. */
  lemma PriceReadsBack(slug: Option<string>)
    ensures Page(slug).FnctionFound? ==> PoundsValue(Page(slug).price) == Some(Page(slug).product.price)
  {
    if Page(slug).FnctionFound? {
      PoundsRoundTrip(Page(slug).product.price);
    }
  }

  /** Another product that is not shown as related is left out only because
      two related products are already shown. */
  lemma RelatedAreTheFirstOthers(product: FnctionProduct, p: FnctionProduct)
    requires p in FnctionProducts && p.id != product.id
    requires p !in Related(product)
    ensures |Related(product)| == MaxRelated
  {
    TakeFilterSkipsOnlyAtLimit(FnctionProducts, IsOther(product), MaxRelated, p);
  }

  /** A product never lists itself among its related products. */
  lemma RelatedExcludesSelf(product: FnctionProduct)
    ensures product !in Related(product)
  {
  }

  /** Related products are the first other products in catalogue order: they
      sit at increasing catalogue positions `idx`, and every other product
      left out sits after all of them. Stated for any catalogue; the page's
      `Related` is the one over `FnctionProducts`. */
  lemma RelatedKeepCatalogueOrder(catalogue: seq<FnctionProduct>, product: FnctionProduct)
    ensures exists idx ::
      && Embeds(RelatedIn(catalogue, product), catalogue, idx)
      && forall j ::
           (0 <= j < |catalogue| && catalogue[j].id != product.id && catalogue[j] !in RelatedIn(catalogue, product)) ==>
             forall m :: 0 <= m < |idx| ==> idx[m] < j
  {
    TakeFilterKeepsOrder(catalogue, IsOther(product), MaxRelated);
  }

  /** Every catalogue product's page is found and shows the thumbnail strip. */
  lemma ThumbnailsShown(i: nat)
    requires i < |FnctionProducts|
    ensures Page(Some(FnctionProducts[i].id)).FnctionFound?
    ensures Page(Some(FnctionProducts[i].id)).thumbnails
  {
    LookupIsUnambiguous(i);
    CatalogueWellFormed();
  }
}
