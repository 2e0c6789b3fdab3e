/** The product catalogue the storefront and the admin panel share: a list
    of products, replaced wholesale on every change, with the read-side
    filters the pages use. */
module Catalogue {
  import opened Wrappers
  import opened Lists
  import opened Text

  /** A colour in the current format: `{ name, available }`. */
  datatype Color = Color(name: string, available: bool)

  /** An entry of a stored colour list: the legacy format kept bare colour
      names, the current one keeps `Color` records. */
  datatype ColorEntry = Named(name: string) | Swatch(color: Color)

  /** A price as its decimal text; the catalogue only stores and copies it. */
  type Price = string

  /** A product. `kind` is the `type` field, "" when it is missing; a
      missing `originalPrice`, `colors` or `images` is `None`. */
  datatype Product = Product(
    id: int,
    name: string,
    price: Price,
    originalPrice: Option<Price>,
    category: string,
    kind: string,
    sizes: seq<string>,
    colors: Option<seq<ColorEntry>>,
    image: string,
    images: Option<seq<string>>,
    description: string,
    status: string,
    visible: bool,
    featured: bool)

  /** The `updates` object of `updateProduct`: a field is `Some` when the
      object carries it. */
  datatype Patch = Patch(
    name: Option<string>,
    price: Option<Price>,
    originalPrice: Option<Option<Price>>,
    category: Option<string>,
    kind: Option<string>,
    sizes: Option<seq<string>>,
    colors: Option<seq<ColorEntry>>,
    image: Option<string>,
    images: Option<seq<string>>,
    description: Option<string>,
    status: Option<string>,
    visible: Option<bool>,
    featured: Option<bool>)

  const NoChange: Patch := Patch(None, None, None, None, None, None, None, None, None, None, None, None, None)

  // ---------------------------------------------------------------- colours

  /** One colour in the current format: a bare name becomes an available
      colour of that name; a record is kept. */
  function Normalised(e: ColorEntry): (r: Color)
    ensures e.Named? ==> r == Color(e.name, true)
    ensures e.Swatch? ==> r == e.color
  {
    match e
    case Named(n) => Color(n, true)
    case Swatch(c) => c
  }

  predicate AllSwatches(cs: seq<ColorEntry>) {
    forall i :: 0 <= i < |cs| ==> cs[i].Swatch?
  }

  /** Colour records stored as entries of a colour list. */
  function Swatches(cs: seq<Color>): (r: seq<ColorEntry>)
    ensures |r| == |cs| && AllSwatches(r)
    ensures forall i :: 0 <= i < |cs| ==> r[i].color == cs[i]
  {
    seq(|cs|, i requires 0 <= i < |cs| => Swatch(cs[i]))
  }

  /** `colors.map(c => typeof c === 'string' ? { name: c, available: true } : c)`. */
  function NormaliseAll(cs: seq<ColorEntry>): (r: seq<ColorEntry>)
    ensures |r| == |cs| && AllSwatches(r)
    ensures forall i :: 0 <= i < |cs| ==> r[i].color == Normalised(cs[i])
  {
    Swatches(seq(|cs|, i requires 0 <= i < |cs| => Normalised(cs[i])))
  }

  /** A list already in the current format is left as it is. */
  lemma {:induction false} NormaliseCurrent(cs: seq<ColorEntry>)
    requires AllSwatches(cs)
    ensures NormaliseAll(cs) == cs
  {
    var r := NormaliseAll(cs);
    forall i | 0 <= i < |cs| ensures r[i] == cs[i] {
      assert cs[i].Swatch?;
    }
  }

  // ---------------------------------------------------------------- migration

  /** The colour half of the load-time migration: a non-empty list whose first
      entry is a bare name is converted entry by entry; any other list, and a
      missing one, is kept. */
  function MigrateColors(colors: Option<seq<ColorEntry>>): (r: Option<seq<ColorEntry>>)
    ensures colors.Some? && |colors.value| > 0 && colors.value[0].Named? ==>
      && r.Some? && |r.value| == |colors.value| && AllSwatches(r.value)
      && forall i :: 0 <= i < |colors.value| ==> r.value[i].color == Normalised(colors.value[i])
    ensures !(colors.Some? && |colors.value| > 0 && colors.value[0].Named?) ==> r == colors
  {
    if colors.Some? && |colors.value| > 0 && colors.value[0].Named? then Some(NormaliseAll(colors.value))
    else colors
  }

  /** The migration applied to each stored product on load: colours as above,
      and a missing type becomes "crocs". Nothing else changes. */
  function Migrate(p: Product): (r: Product)
    ensures r.kind != "" && (p.kind != "" ==> r.kind == p.kind)
    ensures r.colors == MigrateColors(p.colors)
    ensures r.(kind := p.kind, colors := p.colors) == p
  {
    p.(colors := MigrateColors(p.colors), kind := if p.kind == "" then "crocs" else p.kind)
  }

  function MigrateAll(ps: seq<Product>): (r: seq<Product>)
    ensures |r| == |ps|
    ensures forall i :: 0 <= i < |ps| ==> r[i] == Migrate(ps[i])
  {
    seq(|ps|, i requires 0 <= i < |ps| => Migrate(ps[i]))
  }

  /** Migrating twice is migrating once, so reloading saved data is harmless. */
  lemma {:induction false} MigrateIdempotent(p: Product)
    ensures Migrate(Migrate(p)) == Migrate(p)
  {
    var m := Migrate(p);
    if p.colors.Some? && |p.colors.value| > 0 && p.colors.value[0].Named? {
      assert m.colors.value[0].Swatch?;
    }
  }

  // ---------------------------------------------------------------- add, update, delete

  /** The product `addProduct(draft)` appends: the draft's fields with the
      clock value as id, `images` defaulting to `[image]`, the type
      defaulting to "crocs" and the colours normalised (a missing list
      becomes []). Every other field is the draft's. */
  function NewProduct(draft: Product, now: int): (r: Product)
    ensures r.id == now
    ensures r.images == Some(draft.images.GetOr([draft.image]))
    ensures r.kind == (if draft.kind == "" then "crocs" else draft.kind)
    ensures r.colors.Some? && AllSwatches(r.colors.value)
    ensures draft.colors.None? ==> r.colors == Some([])
    ensures draft.colors.Some? ==>
      && |r.colors.value| == |draft.colors.value|
      && forall i :: 0 <= i < |draft.colors.value| ==> r.colors.value[i].color == Normalised(draft.colors.value[i])
    ensures r.(id := draft.id, images := draft.images, kind := draft.kind, colors := draft.colors) == draft
  {
    draft.(
      id := now,
      images := Some(draft.images.GetOr([draft.image])),
      kind := if draft.kind == "" then "crocs" else draft.kind,
      colors := Some(if draft.colors.Some? then NormaliseAll(draft.colors.value) else []))
  }

  /** `{ ...p, ...updates }`, with the update's colours normalised when it
      carries a colour list. The id is never part of an update. */
  function Merged(p: Product, u: Patch): (r: Product)
    ensures r.id == p.id
    ensures r.name == u.name.GetOr(p.name)
    ensures r.price == u.price.GetOr(p.price)
    ensures r.originalPrice == u.originalPrice.GetOr(p.originalPrice)
    ensures r.category == u.category.GetOr(p.category)
    ensures r.kind == u.kind.GetOr(p.kind)
    ensures r.sizes == u.sizes.GetOr(p.sizes)
    ensures u.colors.Some? ==> r.colors == Some(NormaliseAll(u.colors.value))
    ensures u.colors.None? ==> r.colors == p.colors
    ensures r.image == u.image.GetOr(p.image)
    ensures u.images.Some? ==> r.images == u.images
    ensures u.images.None? ==> r.images == p.images
    ensures r.description == u.description.GetOr(p.description)
    ensures r.status == u.status.GetOr(p.status)
    ensures r.visible == u.visible.GetOr(p.visible)
    ensures r.featured == u.featured.GetOr(p.featured)
    ensures u == NoChange ==> r == p
  {
    Product(
      p.id,
      u.name.GetOr(p.name),
      u.price.GetOr(p.price),
      u.originalPrice.GetOr(p.originalPrice),
      u.category.GetOr(p.category),
      u.kind.GetOr(p.kind),
      u.sizes.GetOr(p.sizes),
      if u.colors.Some? then Some(NormaliseAll(u.colors.value)) else p.colors,
      u.image.GetOr(p.image),
      if u.images.Some? then u.images else p.images,
      u.description.GetOr(p.description),
      u.status.GetOr(p.status),
      u.visible.GetOr(p.visible),
      u.featured.GetOr(p.featured))
  }

  /** Applying the same update twice is applying it once. */
  lemma MergeIdempotent(p: Product, u: Patch)
    ensures Merged(Merged(p, u), u) == Merged(p, u)
  {
  }

  /** `products.map(p => p.id === id ? merged : p)`: same length and order,
      only the products with that id change. */
  function UpdatedById(ps: seq<Product>, id: int, u: Patch): (r: seq<Product>)
    ensures |r| == |ps|
    ensures forall i :: 0 <= i < |ps| ==> r[i].id == ps[i].id
    ensures forall i :: 0 <= i < |ps| && ps[i].id == id ==> r[i] == Merged(ps[i], u)
    ensures forall i :: 0 <= i < |ps| && ps[i].id != id ==> r[i] == ps[i]
  {
    seq(|ps|, i requires 0 <= i < |ps| => if ps[i].id == id then Merged(ps[i], u) else ps[i])
  }

  /** An update naming an id nobody has leaves the list as it was. */
  lemma UpdateOfMissingId(ps: seq<Product>, id: int, u: Patch)
    requires forall i :: 0 <= i < |ps| ==> ps[i].id != id
    ensures UpdatedById(ps, id, u) == ps
  {
  }

  function OtherThan(id: int): Product -> bool {
    (p: Product) => p.id != id
  }

  /** `products.filter(p => p.id !== id)`: every product with that id goes,
      the rest stay in their order. */
  function WithoutId(ps: seq<Product>, id: int): (r: seq<Product>)
    ensures forall p: Product :: p in r <==> p in ps && p.id != id
    ensures forall p: Product :: p.id != id ==> multiset(r)[p] == multiset(ps)[p]
    ensures |r| <= |ps|
  {
    Filter(ps, OtherThan(id))
  }

  /** Deleting the product just added restores the list, when no earlier
      product shares its id. */
  lemma {:induction false} DeleteUndoesAdd(ps: seq<Product>, draft: Product, now: int)
    requires forall i :: 0 <= i < |ps| ==> ps[i].id != now
    ensures WithoutId(ps + [NewProduct(draft, now)], now) == ps
  {
    FilterAppend(ps, [NewProduct(draft, now)], OtherThan(now));
    FilterKeepsAll(ps, OtherThan(now));
    assert Filter([NewProduct(draft, now)], OtherThan(now)) == [];
  }

  // ---------------------------------------------------------------- read-side filters

  predicate IsVisible(p: Product) {
    p.visible
  }

  predicate IsFeaturedVisible(p: Product) {
    p.featured && p.visible
  }

  predicate IsVisibleCharm(p: Product) {
    p.kind == "charm" && p.visible
  }

  function InCategory(category: string): Product -> bool {
    (p: Product) => p.category == category && p.visible && p.kind == "crocs"
  }

  /** `getFeaturedProducts()`: exactly the featured, visible products, in order. */
  function Featured(ps: seq<Product>): (r: seq<Product>)
    ensures forall p: Product :: p in r <==> p in ps && p.featured && p.visible
    ensures forall p: Product :: p.featured && p.visible ==> multiset(r)[p] == multiset(ps)[p]
  {
    Filter(ps, IsFeaturedVisible)
  }

  /** `getCharms()`: exactly the visible charms, in order. */
  function Charms(ps: seq<Product>): (r: seq<Product>)
    ensures forall p: Product :: p in r <==> p in ps && p.kind == "charm" && p.visible
    ensures forall p: Product :: p.kind == "charm" && p.visible ==> multiset(r)[p] == multiset(ps)[p]
  {
    Filter(ps, IsVisibleCharm)
  }

  /** `getProductsByCategory(category)`: no category or "All" lists every
      visible product, "Accessories" the visible charms, and any other
      category the visible crocs filed under it. */
  function ByCategory(ps: seq<Product>, category: string): (r: seq<Product>)
    ensures category == "" || category == "All" ==>
      forall p: Product :: p in r <==> p in ps && p.visible
    ensures category == "Accessories" ==> r == Charms(ps)
    ensures category !in {"", "All", "Accessories"} ==>
      forall p: Product :: p in r <==> p in ps && p.visible && p.category == category && p.kind == "crocs"
    ensures forall i :: 0 <= i < |r| ==> r[i].visible
  {
    if category == "" || category == "All" then Filter(ps, IsVisible)
    else if category == "Accessories" then Charms(ps)
    else Filter(ps, InCategory(category))
  }

  /** The product matches the lower-cased query in its lower-cased name,
      description or category. */
  predicate MatchesQuery(p: Product, lowerQuery: string) {
    Contains(Lower(p.name), lowerQuery)
    || Contains(Lower(p.description), lowerQuery)
    || Contains(Lower(p.category), lowerQuery)
  }

  function VisibleMatch(lowerQuery: string): Product -> bool {
    (p: Product) => p.visible && MatchesQuery(p, lowerQuery)
  }

  /** `searchProducts(query)`: every visible product for an empty query;
      otherwise the visible products whose name, description or category
      contains the query, ignoring case. */
  function Search(ps: seq<Product>, query: string): (r: seq<Product>)
    ensures query == "" ==> forall p: Product :: p in r <==> p in ps && p.visible
    ensures query != "" ==> forall p: Product :: p in r <==> p in ps && p.visible && MatchesQuery(p, Lower(query))
  {
    if query == "" then Filter(ps, IsVisible)
    else Filter(ps, VisibleMatch(Lower(query)))
  }

  /** Search ignores the case of the query. */
  lemma {:induction false} SearchIgnoresCase(ps: seq<Product>, query: string)
    ensures Search(ps, query) == Search(ps, Lower(query))
  {
    LowerIdempotent(query);
    assert |Lower(query)| == |query|;
  }

  /** Search never returns more than every visible product, and an empty
      query returns exactly those. */
  lemma {:induction false} SearchWithinCatalogue(ps: seq<Product>, query: string)
    ensures forall p: Product :: p in Search(ps, query) ==> p in ByCategory(ps, "All")
    ensures query == "" ==> Search(ps, query) == ByCategory(ps, "All")
  {
  }

  // ---------------------------------------------------------------- defaults

  const ClogImage := "https://images.unsplash.com/photo-1542291026-7eec264c27ff?w=800&h=800&fit=crop"
  const ClogImage2 := "https://images.unsplash.com/photo-1549298916-b41d501d3772?w=800&h=800&fit=crop"
  const PinkImage := "https://images.unsplash.com/photo-1605812860427-401443163141?w=800&h=800&fit=crop"
  const CharmImage := "https://images.unsplash.com/photo-1571019613454-1cb2f99b2d8b?w=800&h=800&fit=crop"

  function Colors3(a: string, aOk: bool, b: string, bOk: bool, c: string, cOk: bool): seq<ColorEntry> {
    [Swatch(Color(a, aOk)), Swatch(Color(b, bOk)), Swatch(Color(c, cOk))]
  }

  function Clog(id: int, name: string, price: Price, originalPrice: Price, category: string,
                sizes: seq<string>, colors: seq<ColorEntry>, image: string, images: seq<string>,
                description: string, featured: bool): Product
  {
    Product(id, name, price, Some(originalPrice), category, "crocs", sizes, Some(colors),
            image, Some(images), description, "available", true, featured)
  }

  function Charm(id: int, name: string, price: Price, originalPrice: Price, description: string, featured: bool): Product {
    Product(id, name, price, Some(originalPrice), "Accessories", "charm", [], Some([]),
            CharmImage, Some([CharmImage]), description, "available", true, featured)
  }

  /** The catalogue used when nothing is saved or the saved list is unreadable. */
  const DefaultProducts: seq<Product> := [
    Clog(1, "Classic Slip-On Clog - Black", "4500", "5500", "Men",
         ["7", "8", "9", "10", "11", "12"], Colors3("Black", true, "Navy", true, "Gray", false),
         ClogImage, [ClogImage, ClogImage2],
         "The iconic Classic Slip-On Clog. Comfortable, lightweight, and perfect for everyday wear. Features ventilation holes and adjustable heel strap.",
         true),
    Clog(2, "Classic Slip-On Clog - Green", "4500", "5500", "Men",
         ["7", "8", "9", "10", "11", "12"], Colors3("Green", true, "Black", true, "Navy", true),
         ClogImage, [ClogImage, ClogImage2],
         "Vibrant green Classic Slip-On Clog. Stand out with style and comfort. Perfect for casual wear.",
         true),
    Clog(3, "Classic Slip-On Clog - White", "4500", "5500", "Women",
         ["5", "6", "7", "8", "9", "10"], Colors3("White", true, "Pink", true, "Yellow", false),
         ClogImage2, [ClogImage2, ClogImage],
         "Clean and classic white slip-on clog. Versatile and easy to style with any outfit.",
         true),
    Clog(4, "Kids Classic Slip-On - Rainbow", "3500", "4000", "Kids",
         ["1", "2", "3", "4", "5", "6"], Colors3("Rainbow", true, "Blue", true, "Pink", true),
         ClogImage, [ClogImage],
         "Fun and colorful slip-on Crocs for kids. Durable, easy to clean, and perfect for active play.",
         true),
    Clog(5, "Classic Slip-On Clog - Pink", "4500", "5500", "Women",
         ["5", "6", "7", "8", "9"], Colors3("Pink", true, "Rose", true, "Lavender", false),
         PinkImage, [PinkImage],
         "Sweet and stylish pink slip-on clog. Add a pop of color to your wardrobe.",
         false),
    Clog(6, "Classic Slip-On Clog - Navy", "4500", "5500", "Men",
         ["7", "8", "9", "10", "11"], Colors3("Navy", true, "Black", true, "Gray", true),
         ClogImage, [ClogImage],
         "Sophisticated navy slip-on clog. Perfect for both casual and semi-formal occasions.",
         false),
    Charm(101, "Jibbitz Charm Pack - Sports", "800", "1000",
          "Set of 4 sports-themed Jibbitz charms. Perfect for personalizing your Crocs!", true),
    Charm(102, "Jibbitz Charm Pack - Animals", "800", "1000",
          "Adorable animal-themed Jibbitz charms. Includes 4 different animal designs.", true),
    Charm(103, "Jibbitz Charm Pack - Emojis", "800", "1000",
          "Fun emoji-themed Jibbitz charms. Express yourself with these colorful designs!", false),
    Charm(104, "Jibbitz Single Charm - Custom", "250", "300",
          "Single Jibbitz charm. Choose from various designs to personalize your Crocs.", false)
  ]

  /** The defaults are already in the current format, have distinct ids and
      are all visible. */
  lemma DefaultsAreCurrent()
    ensures MigrateAll(DefaultProducts) == DefaultProducts
    ensures forall i, j :: 0 <= i < j < |DefaultProducts| ==> DefaultProducts[i].id != DefaultProducts[j].id
    ensures forall i :: 0 <= i < |DefaultProducts| ==> DefaultProducts[i].visible
  {
  }

  // ---------------------------------------------------------------- the catalogue state

  /** The `products` state of the provider. Every change builds a new list
      and replaces the old one. */
  class ProductCatalogue {
    var products: seq<Product>

    /** Loading: the saved list migrated, or the defaults when nothing
        readable is saved (`saved` is `None`). */
    constructor (saved: Option<seq<Product>>)
      ensures products == (if saved.Some? then MigrateAll(saved.value) else DefaultProducts)
    {
      if saved.Some? {
        products := MigrateAll(saved.value);
      } else {
        products := DefaultProducts;
      }
    }

    /** `addProduct(draft)`, with `now` for `Date.now()`: appends exactly one
        product at the end and returns it. */
    method AddProduct(draft: Product, now: int) returns (added: Product)
      modifies this`products
      ensures added == NewProduct(draft, now)
      ensures products == old(products) + [added]
    {
      added := NewProduct(draft, now);
      products := products + [added];
    }

    /** `updateProduct(id, updates)`. */
    method UpdateProduct(id: int, u: Patch)
      modifies this`products
      ensures products == UpdatedById(old(products), id, u)
    {
      products := UpdatedById(products, id, u);
    }

    /** `deleteProduct(id)`. */
    method DeleteProduct(id: int)
      modifies this`products
      ensures products == WithoutId(old(products), id)
    {
      products := WithoutId(products, id);
    }
  }
}
