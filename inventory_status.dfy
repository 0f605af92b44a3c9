/**
 * The product shape the client receives from `/api/products/inventory` (optional
 * `stockAvailable`, nullable `reorderLevel`), and the stock badge the dashboard's
 * inventory card shows for it.
 */
module InventoryStatus {
  import opened Wrappers
  import Records

  /**
   * A product as the client sees it. `stockAvailable` is optional in the client's
   * type; `reorderLevel` is a nullable column (None is null).
   */
  datatype ProductView = ProductView(
    id: string, name: string, sku: string, description: Option<string>,
    stockAvailable: Option<int>, reorderLevel: Option<int>)

  /** The JSON the server sends for one entry of `getProductsWithInventory`. */
  function ViewOf(p: Records.ProductWithInventory): (v: ProductView)
    ensures v.stockAvailable == Some(p.stockAvailable) && v.reorderLevel == p.product.reorderLevel
    ensures v.id == p.product.id && v.name == p.product.name && v.sku == p.product.sku
  {
    ProductView(p.product.id, p.product.name, p.product.sku, p.product.description,
                Some(p.stockAvailable), p.product.reorderLevel)
  }

  datatype Badge = OutOfStock | Low(count: int) | InStock(count: int)

  /** `product.stockAvailable || 0` */
  function Stock(p: ProductView): int {
    p.stockAvailable.GetOr(0)
  }

  /** `product.reorderLevel || 5`: a missing or zero level counts as 5. */
  function BadgeLevel(p: ProductView): int {
    if p.reorderLevel.None? || p.reorderLevel.value == 0 then 5 else p.reorderLevel.value
  }

  /**
   * `getStockBadge`: out of stock at zero; low when non-zero and at most the level;
   * in stock otherwise. The low and in-stock badges show the available stock.
   */
  function GetStockBadge(p: ProductView): (b: Badge)
    ensures b == OutOfStock <==> Stock(p) == 0
    ensures b.Low? <==> Stock(p) != 0 && Stock(p) <= BadgeLevel(p)
    ensures b.InStock? <==> Stock(p) != 0 && Stock(p) > BadgeLevel(p)
    ensures !b.OutOfStock? ==> b.count == Stock(p)
  {
    var stock := Stock(p);
    var level := BadgeLevel(p);
    if stock == 0 then OutOfStock
    else if stock <= level then Low(stock)
    else InStock(stock)
  }

  /** A product without a `stockAvailable` figure is shown as out of stock. */
  lemma MissingStockIsOut(p: ProductView)
    requires p.stockAvailable.None?
    ensures GetStockBadge(p) == OutOfStock
  {
  }

  /** A reorder level of 0 behaves exactly like a missing one: both mean 5. */
  lemma ZeroLevelMeansFive(p: ProductView)
    ensures GetStockBadge(p.(reorderLevel := Some(0))) == GetStockBadge(p.(reorderLevel := None))
    ensures GetStockBadge(p.(reorderLevel := None)) == GetStockBadge(p.(reorderLevel := Some(5)))
  {
  }

  /** Negative stock is shown as low whenever the level is not below it (always, with the default level). */
  lemma NegativeStockIsLow(p: ProductView)
    requires Stock(p) < 0
    requires p.reorderLevel.None? || p.reorderLevel.value >= Stock(p)
    ensures GetStockBadge(p) == Low(Stock(p))
  {
  }

  function Rank(b: Badge): nat {
    match b
    case OutOfStock => 0
    case Low(_) => 1
    case InStock(_) => 2
  }

  /** For non-negative stock, more stock never gives a worse badge (out < low < in). */
  lemma BadgeMonotone(p: ProductView, more: int)
    requires 0 <= Stock(p) <= more
    ensures Rank(GetStockBadge(p)) <= Rank(GetStockBadge(p.(stockAvailable := Some(more))))
  {
  }

  /**
   * On the dashboard, a product's badge follows from its stored stock quantity:
   * out of stock exactly when the quantity is absent or zero.
   */
  lemma ServerProductBadge(p: Records.Product)
    ensures GetStockBadge(ViewOf(Records.WithInventory(p))) == OutOfStock <==>
            p.stockQuantity.None? || p.stockQuantity.value == 0
  {
  }
}
