/** The F+NCTION catalogue (src/data/fnctionProducts.ts): the constant list
    of products and `getFnctionProductBySlug`. Prices are pounds with two
    decimals in the source and whole pence here. */
module FnctionCatalogue {
  import opened Common
  import opened Seqs

  datatype Ingredient = Ingredient(name: string, amount: string)

  /** A product; the optional keys of the source are `Option`s. */
  datatype FnctionProduct = FnctionProduct(
    id: string,
    name: string,
    brand: string,
    price: int,
    image: string,
    images: seq<string>,
    badge: Option<string>,
    category: string,
    flavor: Option<string>,
    packSize: Option<string>,
    nutritionalClaims: Option<seq<string>>,
    ingredients: seq<Ingredient>,
    includes: Option<seq<string>>)

  const ComingSoonBadge := "Coming Soon"

  /** The ingredients CALM and its starter pack share. */
  const CalmIngredients := [
    Ingredient("Marine Collagen", "10,000mg"),
    Ingredient("Vitamin C", "100mg"),
    Ingredient("Vitamin B6", "2.45mg"),
    Ingredient("Vitamin B12", "10µg"),
    Ingredient("Copper", "0.24mg"),
    Ingredient("Pink Himalayan Salt", "200mg"),
    Ingredient("Magnesium Bisglycinate", "112.5mg"),
    Ingredient("L-Glutamine", "4,200mg"),
    Ingredient("L-Glycine", "3,000mg"),
    Ingredient("L-Theanine (from green tea)", "100mg"),
    Ingredient("Ashwagandha Root 10:1 Extract", "3,000mg"),
    Ingredient("Chamomile Flower 5:1 Extract", "167mg"),
    Ingredient("Blue Passion Flower 4:1 Extract", "60mg"),
    Ingredient("Reishi Mushroom 4:1 Extract", "100mg")]

  const Calm := FnctionProduct(
    "calm", "CALM", "F+NCTION", 11500,
    "https://fnction.co/cdn/shop/files/New_Web_Images_EH-02.png?v=1752285638&width=800",
    ["https://fnction.co/cdn/shop/files/New_Web_Images_EH-02.png?v=1752285638&width=1445",
     "https://fnction.co/cdn/shop/files/Salt_Choc_1_copy.jpg?v=1755253547&width=1445"],
    Some("Bestseller"), "Rest & Recovery",
    Some("Salted Chocolate"), Some("780g (30 Servings)"),
    Some(["High Protein", "High Fibre", "Low Sugar", "Low Fat"]),
    CalmIngredients,
    None)

  const CalmStarterPack := FnctionProduct(
    "calm-starter-pack", "CALM Starter Pack", "F+NCTION", 14200,
    "https://fnction.co/cdn/shop/files/Fnction_Web_flow_DEV_EH-03_45f2cbde-1cec-41d0-a0c3-91f90448737d.jpg?v=1752683233&width=800",
    ["https://fnction.co/cdn/shop/files/Fnction_Web_flow_DEV_EH-03_45f2cbde-1cec-41d0-a0c3-91f90448737d.jpg?v=1752683233&width=1445",
     "https://fnction.co/cdn/shop/files/Salt_Choc_1_copy.jpg?v=1755253547&width=1445",
     "https://fnction.co/cdn/shop/files/Calm_Box_Final_Visual_EH-01_dd15c02f-2c18-4275-8255-6c4dc1d73452.png?v=1755253547&width=1445",
     "https://fnction.co/cdn/shop/files/Calm_Box_Final_Visual_EH-02_21e3eb13-93ea-4916-ae58-374bc12ad0c6.png?v=1755253547&width=1445"],
    Some("Value Pack"), "Rest & Recovery",
    Some("Salted Chocolate"), Some("Complete Bundle"),
    Some(["High Protein", "High Fibre", "Low Sugar", "Low Fat"]),
    CalmIngredients,
    Some(["CALM — 30 Servings (Salted Chocolate Flavour)",
          "FNCTION Double-Walled Glass — Premium insulated glass",
          "Rechargeable FNCTION Frother — USB-rechargeable for perfect frothy drinks",
          "The Ritual Card — Science-backed steps to maximise CALM's effects",
          "Premium FNCTION Welcome Box — Matte black, magnetic-close presentation box"]))

  const Focus := FnctionProduct(
    "focus", "FOCUS (4PK)", "F+NCTION", 1600,
    "https://fnction.co/cdn/shop/files/Fnction_RTD_DEV_EHxTR-06.png?v=1753116501&width=800",
    ["https://fnction.co/cdn/shop/files/Fnction_RTD_DEV_EHxTR-06.png?v=1753116501&width=1445",
     "https://fnction.co/cdn/shop/files/IMG_3653.jpg?v=1753116501&width=1445",
     "https://fnction.co/cdn/shop/files/4_pack_focus.png?v=1753116501&width=1445",
     "https://fnction.co/cdn/shop/files/IMG_3651.jpg?v=1752599613&width=1445"],
    Some(ComingSoonBadge), "Focus & Energy",
    Some("Raspberry Lemonade"), Some("4x 250ml Cans"),
    Some(["High Protein", "Zero Sugar", "Low Fat"]),
    [Ingredient("Marine Collagen", "10,000mg"),
     Ingredient("Vitamin C", "280mg"),
     Ingredient("Vitamin B12", "12.5µg"),
     Ingredient("Vitamin D3", "25µg"),
     Ingredient("Vitamin B6", "1.75mg"),
     Ingredient("Magnesium", "188mg"),
     Ingredient("Potassium", "300mg"),
     Ingredient("Pink Himalayan Salt", "280mg"),
     Ingredient("Zinc", "11mg"),
     Ingredient("Folic Acid", "400µg"),
     Ingredient("Taurine", "1,000mg"),
     Ingredient("N-Acetyl L-Tyrosine", "500mg"),
     Ingredient("Citicoline CDP-Choline", "250mg"),
     Ingredient("Natural Caffeine (from Coffee Extract)", "100mg"),
     Ingredient("L-Theanine (from Green Tea Extract)", "100mg"),
     Ingredient("Panax Ginseng 10:1 Extract", "300mg"),
     Ingredient("Lion's Mane Mushroom 5:1 Extract", "2,000mg"),
     Ingredient("Cordyceps Mushroom 4:1 Extract", "400mg"),
     Ingredient("Chaga Mushroom 4:1 Extract", "400mg")],
    None)

  /** `fnctionProducts`, in catalogue order. */
  const FnctionProducts: seq<FnctionProduct> := [Calm, CalmStarterPack, Focus]

  function HasId(slug: string): FnctionProduct -> bool {
    (p: FnctionProduct) => p.id == slug
  }

  /** `getFnctionProductBySlug`: the first product whose id is the slug, or
      `undefined` when there is none. */
  function GetFnctionProductBySlug(slug: string): (r: Option<FnctionProduct>)
    ensures r.None? <==> forall i :: 0 <= i < |FnctionProducts| ==> FnctionProducts[i].id != slug
    ensures r.Some? ==> r.value.id == slug
    ensures r.Some? ==>
      exists i :: 0 <= i < |FnctionProducts| && FnctionProducts[i] == r.value && (forall j :: 0 <= j < i ==> FnctionProducts[j].id != slug)
  {
    Find(FnctionProducts, HasId(slug))
  }

  /** "calm", "calm-starter-pack" and "focus" are three different ids. */
  lemma CatalogueIdsDistinct()
    ensures forall i, j :: 0 <= i < j < |FnctionProducts| ==> FnctionProducts[i].id != FnctionProducts[j].id
  {
  }

  /** Every product is found by its own id. */
  lemma {:induction false} LookupIsUnambiguous(i: nat)
    requires i < |FnctionProducts|
    ensures GetFnctionProductBySlug(FnctionProducts[i].id) == Some(FnctionProducts[i])
  {
    CatalogueIdsDistinct();
    var slug := FnctionProducts[i].id;
    var r := GetFnctionProductBySlug(slug);
    var k :| 0 <= k < |FnctionProducts| && FnctionProducts[k] == r.value && r.value.id == slug;
    if k != i {
      assert FnctionProducts[k].id == FnctionProducts[i].id;
    }
  }

  /** Only "focus" carries the "Coming Soon" badge. */
  lemma OnlyFocusIsComingSoon()
    ensures forall p :: p in FnctionProducts ==> (p.badge == Some(ComingSoonBadge) <==> p.id == "focus")
  {
  }

  /** Every product has a positive price and more than one image. */
  lemma CatalogueWellFormed()
    ensures forall p :: p in FnctionProducts ==> p.price > 0 && |p.images| > 1
  {
  }
}
