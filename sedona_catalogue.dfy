/** The SEDONA Wellness catalogue (src/data/sedonaProducts.ts): the constant
    list of products and `getProductBySlug`, which finds a product by its id.
    Prices are whole pounds in the source and whole pence here. */
module SedonaCatalogue {
  import opened Common
  import opened Seqs

  /** The optional technical specifications; a missing key is `None`. */
  datatype SedonaSpecs = SedonaSpecs(
    frequency: Option<string>,
    intensity: Option<string>,
    programs: Option<string>,
    waveforms: Option<seq<string>>,
    applicators: Option<seq<string>>,
    dimensions: Option<string>,
    warranty: Option<string>)

  datatype SedonaProduct = SedonaProduct(
    id: string,
    name: string,
    price: int,
    image: string,
    images: seq<string>,
    badge: string,
    category: string,
    specs: SedonaSpecs)

  const NoSpecs := SedonaSpecs(None, None, None, None, None, None, None)

  const PemfChair := SedonaProduct(
    "sedona-pemf-chair", "SEDONA PEMF Chair", 1250000,
    "https://sedonawellness.com/cdn/shop/files/PEMFChair.jpg?v=1744720092&width=800",
    ["https://sedonawellness.com/cdn/shop/files/PEMFChair.jpg?v=1744720092&width=1946",
     "https://sedonawellness.com/cdn/shop/files/PEMF_Chair.jpg?v=1744719989&width=1946",
     "https://sedonawellness.com/cdn/shop/files/IMG_4299.heic?v=1744719881&width=1946",
     "https://sedonawellness.com/cdn/shop/files/IMG_4293.heic?v=1744719881&width=1946"],
    "Flagship", "PEMF Chairs",
    NoSpecs.(
      dimensions := Some("Length: 215cm, Width: 90cm (+10cm controller), Height: 50cm"),
      warranty := Some("2 Year Standard Warranty (Lifetime available)")))

  const EliteMat := SedonaProduct(
    "sedona-elite-pemf-mat", "SEDONA Elite PEMF Mat", 620000,
    "https://sedonawellness.com/cdn/shop/files/PEMFMatOpenElite.jpg?v=1715416503&width=800",
    ["https://sedonawellness.com/cdn/shop/files/PEMFMatOpenElite.jpg?v=1715416503&width=1946",
     "https://sedonawellness.com/cdn/shop/files/9-C06A7367copy_small_4f20f7f7-a6c2-4623-b46a-c8a526d20669.jpg?v=1715416503&width=1946",
     "https://sedonawellness.com/cdn/shop/files/48-C06A7539copy_6eaa9a2c-ed71-412a-b098-0a9e67e83232.jpg?v=1715416503&width=1946",
     "https://sedonawellness.com/cdn/shop/files/sedona_procomplete_set_1_8d5efcbf-2872-4b28-9329-3c8d7b322e32.png?v=1715416503&width=1946"],
    "Most Advanced", "PEMF Mats",
    SedonaSpecs(
      Some("0.01 - 15,000 Hz"),
      Some("0.3 - 100 Gauss (30 - 10,000 µT)"),
      Some("16 Pre-Set Programs + 8 Custom Programs"),
      Some(["Sine Wave", "Rectangular Wave", "Sawtooth Wave", "Multi Impulse"]),
      Some(["PEMF Mat", "PEMF Local Applicator"]),
      None,
      Some("2 Year Standard Warranty (Lifetime available for £295)")))

  const ProPlusMat := SedonaProduct(
    "sedona-pro-plus-pemf-mat", "SEDONA Pro Plus PEMF Mat", 540000,
    "https://sedonawellness.com/cdn/shop/files/PEMFMatOpenProPlus_f7c3bc32-f0e2-4a86-8d95-b2f4f1e243be.jpg?v=1715416466&width=800",
    ["https://sedonawellness.com/cdn/shop/files/PEMFMatOpenProPlus_f7c3bc32-f0e2-4a86-8d95-b2f4f1e243be.jpg?v=1715416466&width=1946",
     "https://sedonawellness.com/cdn/shop/files/48-C06A7539copy_f514cffe-ebf9-4ca9-a013-6d0a9d760342.jpg?v=1715416466&width=1946",
     "https://sedonawellness.com/cdn/shop/files/9-C06A7367copy_small_82874cd1-7037-43d2-8194-33ea61190ee8.jpg?v=1715416466&width=1946",
     "https://sedonawellness.com/cdn/shop/files/sedona_procomplete_set_1_b2738c2d-521c-4b81-b964-09821745a9d7.png?v=1715416466&width=1946"],
    "Professional", "PEMF Mats",
    SedonaSpecs(
      Some("0.01 - 15,000 Hz"),
      Some("0.3 - 100 Gauss"),
      Some("36 Set Programs + 12 Custom Programs"),
      Some(["Sinus", "Rectangular", "Multi Resonance and Impulse", "Sawtooth"]),
      Some(["PEMF Mat", "PEMF Local Applicator"]),
      None,
      Some("2 Year Standard Warranty (Lifetime available for £295)")))

  const ProMat := SedonaProduct(
    "sedona-pro-pemf-mat", "SEDONA Pro PEMF Mat", 460000,
    "https://sedonawellness.com/cdn/shop/files/PEMFMatOpenPro.jpg?v=1715509049&width=800",
    ["https://sedonawellness.com/cdn/shop/files/PEMFMatOpenPro.jpg?v=1715509049&width=1946",
     "https://sedonawellness.com/cdn/shop/files/48-C06A7539copy.jpg?v=1715509049&width=1946",
     "https://sedonawellness.com/cdn/shop/files/9-C06A7367copy_small_7b2bde45-81c6-4363-83a9-baf1b7ac85e9.jpg?v=1715509049&width=1946",
     "https://sedonawellness.com/cdn/shop/products/sedona_procomplete_set_1.png?v=1715509049&width=1946"],
    "Best Value", "PEMF Mats",
    SedonaSpecs(
      Some("0.01 - 15,000 Hz"),
      Some("0.3 - 100 Gauss"),
      Some("36 Set Programs"),
      Some(["Sinus", "Rectangular", "Multi Resonance and Impulse", "Sawtooth"]),
      Some(["PEMF Mat", "PEMF Local Applicator"]),
      None,
      Some("2 Year Standard Warranty (Lifetime available for £295)")))

  const FaceMask := SedonaProduct(
    "sedona-pemf-face-mask", "SEDONA PEMF Face Mask", 30500,
    "https://sedonawellness.com/cdn/shop/products/DSC03117small.jpg?v=1712147573&width=800",
    ["https://sedonawellness.com/cdn/shop/products/DSC03117small.jpg?v=1712147573&width=1946",
     "https://sedonawellness.com/cdn/shop/files/facemask_whats_in_the_box.png?v=1714023233&width=1946"],
    "Beauty", "Accessories",
    NoSpecs.(warranty := Some("1 Year Standard Warranty")))

  const Pillow := SedonaProduct(
    "timmyzzz-pemf-pillow", "TimmyZzz PEMF Pillow", 30500,
    "https://sedonawellness.com/cdn/shop/files/IMG_9803.jpg?v=1735835985&width=800",
    ["https://sedonawellness.com/cdn/shop/files/S13_e291effe-eeb6-46d1-975e-ec9fea6d847c.jpg?v=1725952659&width=1946",
     "https://sedonawellness.com/cdn/shop/products/S08.jpg?v=1722963230&width=1946",
     "https://sedonawellness.com/cdn/shop/files/S14_e74dd0b2-0306-4cc4-8c9b-10a5d049879d.jpg?v=1725952659&width=1946",
     "https://sedonawellness.com/cdn/shop/files/IMG_9803.jpg?v=1735835985&width=1946"],
    "Sleep Aid", "Accessories",
    SedonaSpecs(
      Some("3Hz, 7.83Hz, 25Hz, 1,200Hz"),
      Some("0.6 Gauss"),
      Some("4 Different Program Settings"),
      Some(["Rectangular"]),
      None,
      Some("Flat: 66cm x 42cm x 11cm | Curve: 50cm x 33cm x 9cm"),
      Some("1 Year Standard Warranty")))

  /** `sedonaProducts`, in catalogue order. */
  const SedonaProducts: seq<SedonaProduct> := [PemfChair, EliteMat, ProPlusMat, ProMat, FaceMask, Pillow]

  /** No two products of the list share an id. */
  predicate IdsDistinct(products: seq<SedonaProduct>) {
    forall i, j :: 0 <= i < j < |products| ==> products[i].id != products[j].id
  }

  function HasId(slug: string): SedonaProduct -> bool {
    (p: SedonaProduct) => p.id == slug
  }

  /** `getProductBySlug`: the first product whose id is the slug, or
      `undefined` when there is none. */
  function GetProductBySlug(slug: string): (r: Option<SedonaProduct>)
    ensures r.Some? ==> r.value.id == slug
    ensures r.Some? ==>
      exists i :: 0 <= i < |SedonaProducts| && SedonaProducts[i] == r.value && (forall j :: 0 <= j < i ==> SedonaProducts[j].id != slug)
    ensures r.None? <==> forall i :: 0 <= i < |SedonaProducts| ==> SedonaProducts[i].id != slug
  {
    Find(SedonaProducts, HasId(slug))
  }

  /** The catalogue's ids are pairwise distinct. */
  lemma CatalogueIdsDistinct()
    ensures IdsDistinct(SedonaProducts)
  {
  }

  /** With distinct ids, looking a product up by its own id finds that
      product, so a slug names at most one product. */
  lemma {:induction false} LookupIsUnambiguous(i: nat)
    requires i < |SedonaProducts|
    ensures GetProductBySlug(SedonaProducts[i].id) == Some(SedonaProducts[i])
  {
    CatalogueIdsDistinct();
    var slug := SedonaProducts[i].id;
    var r := GetProductBySlug(slug);
    var k :| 0 <= k < |SedonaProducts| && SedonaProducts[k] == r.value && r.value.id == slug;
    if k != i {
      assert SedonaProducts[k].id == SedonaProducts[i].id;
    }
  }

  /** Every product has a positive price and more than one image. */
  lemma CatalogueWellFormed()
    ensures forall p :: p in SedonaProducts ==> p.price > 0 && |p.images| > 1
  {
  }
}
