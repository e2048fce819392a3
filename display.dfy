/**
  What a card or a table row shows for a filled-in product. The HTML is
  abstracted to a Unit: the key the page looks it up by (the id inside its
  `editProduct(...)` handler) and the values it displays.
*/
module Display {
  import opened Common
  import opened Catalog

  const CardTitleLimit: nat := 30
  const RowTitleLimit: nat := 25
  const Ellipsis := "..."

  /** `s.length > limit ? s.substring(0, limit) + '...' : s` */
  function Truncate(s: string, limit: nat): (r: string)
    ensures |r| <= limit + |Ellipsis|
    ensures |s| <= limit ==> r == s
    ensures |s| > limit ==> |r| == limit + |Ellipsis| && r[..limit] == s[..limit] && r[limit..] == Ellipsis
  {
    if |s| > limit then s[..limit] + Ellipsis else s
  }

  /** The card heading and the row heading agree on every character the row keeps. */
  lemma HeadingsAgree(s: string)
    ensures var card := Truncate(s, CardTitleLimit);
      var row := Truncate(s, RowTitleLimit);
      var kept := if |s| < RowTitleLimit then |s| else RowTitleLimit;
      row[..kept] == card[..kept] == s[..kept]
  {
  }

  /** The stock badge's colour class. */
  datatype Tier = InStock | LowStock | OutOfStock

  function TierClass(t: Tier): string {
    match t
    case InStock => "bg-success"
    case LowStock => "bg-warning"
    case OutOfStock => "bg-danger"
  }

  /** `stock > 10 ? 'bg-success' : stock > 0 ? 'bg-warning' : 'bg-danger'` */
  function StockTier(stock: int): (t: Tier)
    ensures t == InStock <==> stock > 10
    ensures t == LowStock <==> 0 < stock <= 10
    ensures t == OutOfStock <==> stock <= 0
  {
    if stock > 10 then InStock else if stock > 0 then LowStock else OutOfStock
  }

  function TierRank(t: Tier): nat {
    match t
    case OutOfStock => 0
    case LowStock => 1
    case InStock => 2
  }

  /** The badge class of a stock count, as the template's nested ternary picks it. */
  lemma BadgeClassOfStock(stock: int)
    ensures TierClass(StockTier(stock)) == "bg-success" <==> stock > 10
    ensures TierClass(StockTier(stock)) == "bg-warning" <==> 0 < stock <= 10
    ensures TierClass(StockTier(stock)) == "bg-danger" <==> stock <= 0
  {
  }

  /** More stock never shows a worse badge. */
  lemma StockTierMonotone(a: int, b: int)
    requires a <= b
    ensures TierRank(StockTier(a)) <= TierRank(StockTier(b))
  {
  }

  /**
    One drawn card or row: its lookup key, the full title kept in its
    `title` and `alt` attributes, the possibly truncated heading, and the
    category, SKU, stock count, badge and image it shows.
  */
  datatype Unit = Unit(
    id: Option<nat>,
    title: string,
    heading: string,
    category: string,
    sku: string,
    stock: int,
    tier: Tier,
    image: string)

  /** Draw a product with the heading cut at the given limit. */
  function Draw(p: Product, limit: nat): (u: Unit)
    ensures u.id == p.id && u.title == p.title && u.heading == Truncate(p.title, limit)
    ensures u.category == p.category && u.sku == p.sku && u.image == p.image
    ensures u.stock == p.stock && u.tier == StockTier(p.stock)
  {
    Unit(p.id, p.title, Truncate(p.title, limit), p.category, p.sku, p.stock, StockTier(p.stock), p.image)
  }

  /** A card of the card grid: the heading is cut after 30 characters. */
  function Card(p: Product): (u: Unit)
    ensures u.id == p.id && u.title == p.title && u.tier == StockTier(p.stock)
    ensures u.heading == Truncate(p.title, CardTitleLimit) && |u.heading| <= 33
  {
    Draw(p, CardTitleLimit)
  }

  /** A row of the product table: the heading is cut after 25 characters. */
  function Row(p: Product): (u: Unit)
    ensures u.id == p.id && u.title == p.title && u.tier == StockTier(p.stock)
    ensures u.heading == Truncate(p.title, RowTitleLimit) && |u.heading| <= 28
  {
    Draw(p, RowTitleLimit)
  }

  /**
    A card and a row of the same product differ in the heading alone: same
    key, same tooltip, same badge (one tier rule for both), same SKU.
  */
  lemma CardAndRowAgree(p: Product)
    ensures Card(p).id == Row(p).id && Card(p).title == Row(p).title
    ensures Card(p).tier == Row(p).tier && Card(p).sku == Row(p).sku
    ensures Card(p).stock == Row(p).stock && Card(p).category == Row(p).category
    ensures Card(p).heading == Truncate(p.title, 30) && Row(p).heading == Truncate(p.title, 25)
    ensures Card(p).title == p.title && Card(p).image == Row(p).image
    ensures Card(p) == Row(p).(heading := Truncate(p.title, CardTitleLimit))
  {
  }
}
