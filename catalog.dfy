/** The storefront's record types (packages/core/shared/types/product.ts). */
module Catalog {
  import opened Common
  import opened JsonValue

  /** The badge colours a product badge may carry. */
  datatype BadgeColor = Primary | Secondary | Success | Info | Warning | ErrorColor | Neutral

  function ColorName(c: BadgeColor): string
  {
    match c
    case Primary => "primary"
    case Secondary => "secondary"
    case Success => "success"
    case Info => "info"
    case Warning => "warning"
    case ErrorColor => "error"
    case Neutral => "neutral"
  }

  // `label` is a Dafny keyword, so the badge text is `labelText`.
  datatype ProductBadge = ProductBadge(labelText: string, color: BadgeColor)

  /** A product. JavaScript numbers are modelled as reals (prices, ratings,
      review counts); `meta` is an arbitrary JSON record. */
  datatype Product = Product(
    id: Id,
    brand: string,
    name: string,
    description: Option<string>,
    price: real,
    originalPrice: Option<real>,
    saveAmount: Option<real>,
    image: Option<string>,
    images: Option<seq<string>>,
    rating: Option<real>,
    reviews: Option<real>,
    category: Option<string>,
    meta: Option<map<string, Json>>,
    badges: Option<seq<ProductBadge>>)

  datatype Category = Category(
    id: Id,
    name: string,
    icon: Option<string>,
    slug: string,
    productCount: Option<int>)
}
