/**
  Product records as the page sees them, and the rules that fill in missing
  fields before a record is drawn: the fallback object built in the full
  render's `.map`, the transform applied to a fetched list, and the
  transform applied to the product returned by a create or an update.
*/
module Catalog {
  import opened Common
  import opened Text

  /** A product as returned by the remote API (the fields the page reads). */
  datatype ApiProduct = ApiProduct(
    id: nat,
    title: string,
    category: string,
    stock: int,
    thumbnail: Option<string>,
    images: seq<string>,
    image: Option<string>)

  /** An object handed to the full render: any field may be missing or falsy. */
  datatype RawProduct = RawProduct(
    id: Option<nat>,
    title: Option<string>,
    category: Option<string>,
    stock: Option<int>,
    sku: Option<string>,
    image: Option<string>)

  /**
    A product with every displayed field filled in. `id == None` stands for
    the `Math.random()` identifier the full render invents when a record's id
    is missing or zero: a key that no lookup by a product id ever matches.
  */
  datatype Product = Product(
    id: Option<nat>,
    title: string,
    category: string,
    stock: int,
    sku: string,
    image: string)

  const UntitledTitle := "Untitled Product"
  const UncategorizedLabel := "Uncategorized"
  const CardPlaceholder := "https://via.placeholder.com/300x200?text=No+Image"
  const RowPlaceholder := "https://via.placeholder.com/60x60?text=No+Image"

  /** JavaScript truthiness of a possibly-missing string: present and non-empty. */
  predicate TruthyText(v: Option<string>) { v.Some? && v.value != "" }

  /** JavaScript truthiness of a possibly-missing number: present and non-zero. */
  predicate TruthyNumber(v: Option<int>) { v.Some? && v.value != 0 }

  predicate TruthyId(v: Option<nat>) { v.Some? && v.value != 0 }

  /** `v || fallback` for a string field. */
  function TextOr(v: Option<string>, fallback: string): (r: string)
    ensures TruthyText(v) ==> r == v.value
    ensures !TruthyText(v) ==> r == fallback
  {
    if TruthyText(v) then v.value else fallback
  }

  /** The SKU derived from an id: `SKU-` then the id's digits left-padded with '0' to three. */
  function Sku(id: nat): (r: string)
    ensures |r| >= 7 && r[..4] == "SKU-"
    ensures r[4..] == PadStart(DecimalString(id), 3, '0')
  {
    "SKU-" + PadStart(DecimalString(id), 3, '0')
  }

  /** The derived SKU never truncates: ids of three or more digits appear verbatim. */
  lemma SkuOfWideId(id: nat)
    requires id >= 100
    ensures Sku(id) == "SKU-" + DecimalString(id)
  {
  }

  /** Padding never loses the id: the digits after `SKU-` read back as the id. */
  lemma SkuDigitsReadBack(id: nat)
    ensures var digits := Sku(id)[4..];
      (forall k :: 0 <= k < |digits| ==> IsDigit(digits[k])) && ParseDecimal(digits) == id
  {
    ParseZeroPadded(DecimalString(id), 3);
    ParseDecimalString(id);
  }

  /** Two products with different ids never share a derived SKU. */
  lemma SkuInjective(a: nat, b: nat)
    requires Sku(a) == Sku(b)
    ensures a == b
  {
    SkuDigitsReadBack(a);
    SkuDigitsReadBack(b);
  }

  /**
    The fallback object of the full render (one per card and one per row;
    the two differ only in the image placeholder they pass).
  */
  function Normalize(raw: RawProduct, placeholder: string): (p: Product)
    requires placeholder != ""
    ensures p.title != "" && p.category != "" && p.sku != "" && p.image != ""
    ensures TruthyText(raw.title) ==> p.title == raw.title.value
    ensures !TruthyText(raw.title) ==> p.title == UntitledTitle
    ensures TruthyText(raw.category) ==> p.category == raw.category.value
    ensures !TruthyText(raw.category) ==> p.category == UncategorizedLabel
    ensures p.stock == if raw.stock.Some? then raw.stock.value else 0
    ensures TruthyText(raw.sku) ==> p.sku == raw.sku.value
    ensures !TruthyText(raw.sku) && TruthyId(raw.id) ==> p.sku == "SKU-" + DecimalString(raw.id.value)
    ensures !TruthyText(raw.sku) && !TruthyId(raw.id) ==> p.sku == "SKU-000"
    ensures TruthyText(raw.image) ==> p.image == raw.image.value
    ensures !TruthyText(raw.image) ==> p.image == placeholder
    ensures p.id == if TruthyId(raw.id) then raw.id else None
  {
    Product(
      if TruthyId(raw.id) then raw.id else None,
      TextOr(raw.title, UntitledTitle),
      TextOr(raw.category, UncategorizedLabel),
      if TruthyNumber(raw.stock) then raw.stock.value else 0,
      TextOr(raw.sku, "SKU-" + (if TruthyId(raw.id) then DecimalString(raw.id.value) else "000")),
      TextOr(raw.image, placeholder))
  }

  /** A filled-in product seen again as a raw record. */
  function AsRaw(p: Product): RawProduct {
    RawProduct(p.id, Some(p.title), Some(p.category), Some(p.stock), Some(p.sku), Some(p.image))
  }

  /** Filling in twice changes nothing: every field is already truthy after the first pass. */
  lemma NormalizeIdempotent(raw: RawProduct, placeholder: string)
    requires placeholder != ""
    ensures Normalize(AsRaw(Normalize(raw, placeholder)), placeholder) == Normalize(raw, placeholder)
  {
  }

  /**
    The map applied to a fetched list: fields copied as they are, the SKU
    derived from the id, the image taken from the thumbnail or else the
    first of the images (undefined when there is none).
  */
  function FromListing(p: ApiProduct): (raw: RawProduct)
    ensures raw.id == Some(p.id) && raw.title == Some(p.title)
    ensures raw.category == Some(p.category) && raw.stock == Some(p.stock)
    ensures raw.sku == Some(Sku(p.id))
    ensures TruthyText(p.thumbnail) ==> raw.image == p.thumbnail
    ensures !TruthyText(p.thumbnail) && p.images != [] ==> raw.image == Some(p.images[0])
    ensures !TruthyText(p.thumbnail) && p.images == [] ==> raw.image == None
  {
    RawProduct(
      Some(p.id), Some(p.title), Some(p.category), Some(p.stock), Some(Sku(p.id)),
      if TruthyText(p.thumbnail) then p.thumbnail
      else if p.images != [] then Some(p.images[0]) else None)
  }

  /** The whole fetched list, transformed element by element in order. */
  function ListingOf(ps: seq<ApiProduct>): (raws: seq<RawProduct>)
    ensures |raws| == |ps| && forall k :: 0 <= k < |ps| ==> raws[k] == FromListing(ps[k])
  {
    seq(|ps|, k requires 0 <= k < |ps| => FromListing(ps[k]))
  }

  /**
    A fetched product drawn by the full render keeps the padded SKU the
    transform gave it; the SKU fallback of the render never applies.
  */
  lemma ListedSkuIsDerived(p: ApiProduct, placeholder: string)
    requires placeholder != ""
    ensures Normalize(FromListing(p), placeholder).sku == Sku(p.id)
  {
  }

  /**
    The transform applied to the product a create or an update returns: no
    fallback for title, category or stock, the SKU derived from the id, and
    the card placeholder when there is no `image`.
  */
  function FromSaved(p: ApiProduct): (r: Product)
    ensures r.id == Some(p.id) && r.title == p.title && r.category == p.category
    ensures r.stock == p.stock && r.sku == Sku(p.id)
    ensures r.image == if TruthyText(p.image) then p.image.value else CardPlaceholder
  {
    Product(Some(p.id), p.title, p.category, p.stock, Sku(p.id), TextOr(p.image, CardPlaceholder))
  }
}
