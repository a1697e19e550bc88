/** The API response schemas (packages/core/shared/types/api.ts) as
    predicates over JSON values, and the encoding of the storefront's
    records as JSON, proved to satisfy them.

    A zod object schema checks the keys it declares and ignores any others;
    `.optional()` accepts a missing key but not `null`. */
module ApiSchema {
  import opened Common
  import opened JsonValue
  import opened Catalog
  import opened ProductQuery

  predicate IsString(v: Json) { v.JString? }
  predicate IsNumber(v: Json) { v.JNumber? }
  predicate IsObject(v: Json) { v.JObject? }

  /** `z.union([z.string(), z.number()])`. */
  predicate IsStringOrNumber(v: Json) { v.JString? || v.JNumber? }

  predicate IsStringArray(v: Json)
  {
    v.JArray? && forall i :: 0 <= i < |v.elems| ==> v.elems[i].JString?
  }

  /** A key the schema requires: present, with a valid value. */
  predicate Required(o: map<string, Json>, key: string, valid: Json -> bool)
  {
    key in o && valid(o[key])
  }

  /** A key declared `.optional()`: absent, or present with a valid value. */
  predicate Optional(o: map<string, Json>, key: string, valid: Json -> bool)
  {
    key in o ==> valid(o[key])
  }

  const BadgeColorNames: seq<string> := ["primary", "secondary", "success", "info", "warning", "error", "neutral"]

  /** `z.enum([...])` over the seven badge colours. */
  predicate IsBadgeColor(v: Json)
  {
    v.JString? && v.s in BadgeColorNames
  }

  predicate ValidBadge(v: Json)
  {
    v.JObject? && Required(v.fields, "label", IsString) && Required(v.fields, "color", IsBadgeColor)
  }

  predicate IsBadgeArray(v: Json)
  {
    v.JArray? && forall i :: 0 <= i < |v.elems| ==> ValidBadge(v.elems[i])
  }

  /** `ApiProductSchema`. */
  predicate ValidProduct(v: Json)
  {
    v.JObject?
    && Required(v.fields, "id", IsStringOrNumber)
    && Required(v.fields, "brand", IsString)
    && Required(v.fields, "name", IsString)
    && Optional(v.fields, "description", IsString)
    && Required(v.fields, "price", IsNumber)
    && Optional(v.fields, "originalPrice", IsNumber)
    && Optional(v.fields, "saveAmount", IsNumber)
    && Optional(v.fields, "image", IsString)
    && Optional(v.fields, "images", IsStringArray)
    && Optional(v.fields, "rating", IsNumber)
    && Optional(v.fields, "reviews", IsNumber)
    && Optional(v.fields, "category", IsString)
    && Optional(v.fields, "meta", IsObject)
    && Optional(v.fields, "badges", IsBadgeArray)
  }

  /** `ApiCategorySchema`. */
  predicate ValidCategory(v: Json)
  {
    v.JObject?
    && Required(v.fields, "id", IsStringOrNumber)
    && Required(v.fields, "name", IsString)
    && Optional(v.fields, "icon", IsString)
    && Required(v.fields, "slug", IsString)
    && Optional(v.fields, "productCount", IsNumber)
  }

  predicate IsProductArray(v: Json)
  {
    v.JArray? && forall i :: 0 <= i < |v.elems| ==> ValidProduct(v.elems[i])
  }

  predicate IsCategoryArray(v: Json)
  {
    v.JArray? && forall i :: 0 <= i < |v.elems| ==> ValidCategory(v.elems[i])
  }

  /** `ApiProductListResponseSchema`. */
  predicate ValidProductList(v: Json)
  {
    v.JObject? && Required(v.fields, "products", IsProductArray) && Required(v.fields, "total", IsNumber)
  }

  /** `ApiCategoryListResponseSchema`. */
  predicate ValidCategoryList(v: Json)
  {
    v.JObject? && Required(v.fields, "categories", IsCategoryArray)
  }

  // ---------------------------------------------------------------------------
  // Encoding records as JSON
  // ---------------------------------------------------------------------------

  function IdToJson(id: Id): Json
  {
    match id
    case IntId(n) => JNumber(n as real)
    case StrId(s) => JString(s)
  }

  function OptString(v: Option<string>): Option<Json>
  {
    if v.Some? then Some(JString(v.value)) else None
  }

  function OptNumber(v: Option<real>): Option<Json>
  {
    if v.Some? then Some(JNumber(v.value)) else None
  }

  function StringsToJson(ss: seq<string>): (r: Json)
    ensures IsStringArray(r) && |r.elems| == |ss|
  {
    JArray(seq(|ss|, i requires 0 <= i < |ss| => JString(ss[i])))
  }

  function BadgeToJson(b: ProductBadge): Json
  {
    JObject(map["label" := JString(b.labelText), "color" := JString(ColorName(b.color))])
  }

  function BadgesToJson(bs: seq<ProductBadge>): Json
  {
    JArray(seq(|bs|, i requires 0 <= i < |bs| => BadgeToJson(bs[i])))
  }

  const ProductKeys: set<string> := {"id", "brand", "name", "description", "price", "originalPrice", "saveAmount",
    "image", "images", "rating", "reviews", "category", "meta", "badges"}

  /** The JSON written for one key of a product; `None` when the field is
      `undefined` and so not written at all. */
  function ProductField(p: Product, key: string): Option<Json>
  {
    match key
    case "id" => Some(IdToJson(p.id))
    case "brand" => Some(JString(p.brand))
    case "name" => Some(JString(p.name))
    case "description" => OptString(p.description)
    case "price" => Some(JNumber(p.price))
    case "originalPrice" => OptNumber(p.originalPrice)
    case "saveAmount" => OptNumber(p.saveAmount)
    case "image" => OptString(p.image)
    case "images" => if p.images.Some? then Some(StringsToJson(p.images.value)) else None
    case "rating" => OptNumber(p.rating)
    case "reviews" => OptNumber(p.reviews)
    case "category" => OptString(p.category)
    case "meta" => if p.meta.Some? then Some(JObject(p.meta.value)) else None
    case "badges" => if p.badges.Some? then Some(BadgesToJson(p.badges.value)) else None
    case _ => None
  }

  function ProductToJson(p: Product): Json
  {
    JObject(map key | key in ProductKeys && ProductField(p, key).Some? :: ProductField(p, key).value)
  }

  const CategoryKeys: set<string> := {"id", "name", "icon", "slug", "productCount"}

  function CategoryField(c: Category, key: string): Option<Json>
  {
    match key
    case "id" => Some(IdToJson(c.id))
    case "name" => Some(JString(c.name))
    case "icon" => OptString(c.icon)
    case "slug" => Some(JString(c.slug))
    case "productCount" => if c.productCount.Some? then Some(JNumber(c.productCount.value as real)) else None
    case _ => None
  }

  function CategoryToJson(c: Category): Json
  {
    JObject(map key | key in CategoryKeys && CategoryField(c, key).Some? :: CategoryField(c, key).value)
  }

  function ProductsToJson(ps: seq<Product>): (r: Json)
    ensures r.JArray? && |r.elems| == |ps|
  {
    JArray(seq(|ps|, i requires 0 <= i < |ps| => ProductToJson(ps[i])))
  }

  function CategoriesToJson(cs: seq<Category>): (r: Json)
    ensures r.JArray? && |r.elems| == |cs|
  {
    JArray(seq(|cs|, i requires 0 <= i < |cs| => CategoryToJson(cs[i])))
  }

  /** The handler's `{ products, total }` as JSON. */
  function ProductListToJson(r: ProductList): Json
  {
    JObject(map["products" := ProductsToJson(r.products), "total" := JNumber(r.total as real)])
  }

  function CategoryListToJson(cs: seq<Category>): Json
  {
    JObject(map["categories" := CategoriesToJson(cs)])
  }

  // ---------------------------------------------------------------------------
  // What the schemas promise
  // ---------------------------------------------------------------------------

  lemma ColorNameIsBadgeColor(c: BadgeColor)
    ensures IsBadgeColor(JString(ColorName(c)))
  {
    var k := match c
      case Primary => 0 case Secondary => 1 case Success => 2 case Info => 3
      case Warning => 4 case ErrorColor => 5 case Neutral => 6;
    assert BadgeColorNames[k] == ColorName(c);
  }

  /** Every product record encodes to a value the product schema accepts. */
  lemma ProductEncodingValid(p: Product)
    ensures ValidProduct(ProductToJson(p))
  {
    if p.badges.Some? {
      var bs := p.badges.value;
      forall i | 0 <= i < |bs|
        ensures ValidBadge(BadgesToJson(bs).elems[i])
      {
        ColorNameIsBadgeColor(bs[i].color);
      }
    }
  }

  /** Every category record encodes to a value the category schema accepts. */
  lemma CategoryEncodingValid(c: Category)
    ensures ValidCategory(CategoryToJson(c))
  {
  }

  /** The handler's response passes the list schema, whatever the query. */
  lemma ProductListEncodingValid(r: ProductList)
    ensures ValidProductList(ProductListToJson(r))
  {
    var arr := ProductsToJson(r.products);
    forall i | 0 <= i < |arr.elems|
      ensures ValidProduct(arr.elems[i])
    {
      ProductEncodingValid(r.products[i]);
    }
  }

  lemma CategoryListEncodingValid(cs: seq<Category>)
    ensures ValidCategoryList(CategoryListToJson(cs))
  {
    var arr := CategoriesToJson(cs);
    forall i | 0 <= i < |arr.elems|
      ensures ValidCategory(arr.elems[i])
    {
      CategoryEncodingValid(cs[i]);
    }
  }

  /** A product needs a string-or-number `id`, string `brand` and `name`, and
      a number `price`; without any of the four it is rejected. */
  lemma ProductRequiredFields(fields: map<string, Json>, key: string)
    requires key in {"id", "brand", "name", "price"}
    ensures ValidProduct(JObject(fields)) ==>
      "id" in fields && IsStringOrNumber(fields["id"])
      && "brand" in fields && fields["brand"].JString?
      && "name" in fields && fields["name"].JString?
      && "price" in fields && fields["price"].JNumber?
    ensures !ValidProduct(JObject(fields - {key}))
  {
  }

  /** The four required fields alone make a valid product, with either form of id. */
  lemma MinimalProductAccepted(id: Json, brand: string, name: string, price: real)
    requires id.JString? || id.JNumber?
    ensures ValidProduct(JObject(map["id" := id, "brand" := JString(brand), "name" := JString(name), "price" := JNumber(price)]))
  {
  }

  /** A present optional field must have its declared type; `null` is not
      accepted for an optional field. */
  lemma OptionalFieldTyped(fields: map<string, Json>, key: string, bad: Json)
    requires key in {"description", "image", "category"}
    requires !bad.JString?
    ensures !ValidProduct(JObject(fields[key := bad]))
    ensures !ValidProduct(JObject(fields[key := JNull]))
  {
  }

  /** A badge colour outside the seven names rejects the whole product. */
  lemma UnknownBadgeColorRejected(fields: map<string, Json>, labelText: string, color: string)
    requires color !in BadgeColorNames
    ensures !ValidProduct(JObject(fields["badges" := JArray([JObject(map["label" := JString(labelText), "color" := JString(color)])])]))
  {
    var badge := JObject(map["label" := JString(labelText), "color" := JString(color)]);
    assert !IsBadgeColor(badge.fields["color"]);
    assert !ValidBadge(JArray([badge]).elems[0]);
  }

  /** Each of the seven colour names is accepted. */
  lemma EveryBadgeColorAccepted(labelText: string, i: nat)
    requires i < |BadgeColorNames|
    ensures ValidBadge(JObject(map["label" := JString(labelText), "color" := JString(BadgeColorNames[i])]))
  {
  }

  /** A category requires `id`, `name` and `slug`; the id may be a string or
      a number, and `icon` and `productCount` may be missing. */
  lemma CategoryFields(id: Json, name: string, slug: string)
    requires id.JString? || id.JNumber?
    ensures ValidCategory(JObject(map["id" := id, "name" := JString(name), "slug" := JString(slug)]))
    ensures !ValidCategory(JObject(map["id" := id, "name" := JString(name)]))
  {
  }

  /** A category must carry all three required fields: an object without
      `id`, `name` or `slug` is rejected, whatever other keys it has. */
  lemma CategoryRequiredFields(fields: map<string, Json>, key: string)
    requires key in {"id", "name", "slug"}
    ensures ValidCategory(JObject(fields)) ==>
      "id" in fields && IsStringOrNumber(fields["id"])
      && "name" in fields && fields["name"].JString?
      && "slug" in fields && fields["slug"].JString?
    ensures key !in fields ==> !ValidCategory(JObject(fields))
  {
  }

  /** An empty product list with a numeric total is a valid response. */
  lemma EmptyProductListValid()
    ensures ValidProductList(JObject(map["products" := JArray([]), "total" := JNumber(0.0)]))
  {
  }
}
