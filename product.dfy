/** backend/models/Product.js: the product document, its schema validators and
    the two virtuals `discountedPrice` and `stockStatus`. */
module ProductModel {
  import opened Common
  import opened Responses

  const Categories: seq<string> :=
    ["Electronics", "Clothing", "Books", "Home & Garden", "Sports", "Beauty", "Toys",
     "Automotive", "Food & Beverages", "Other"]

  const Statuses: seq<string> := ["active", "inactive", "discontinued"]

  const DefaultThreshold: int := 10

  datatype Image = Image(url: string, alt: string)

  datatype Inventory = Inventory(quantity: int, threshold: int)

  datatype Review = Review(user: Id, rating: real, comment: string, createdAt: int)

  /** A discount that is not loaded (left out of a query's projection) is `None`. */
  datatype Discount = Discount(percentage: real, startDate: Option<int>, endDate: Option<int>)

  datatype Seo = Seo(title: Option<string>, description: Option<string>, keywords: seq<string>)

  datatype Product = Product(
    name: string,
    description: string,
    price: real,
    originalPrice: Option<real>,
    category: string,
    brand: Option<string>,
    images: seq<Image>,
    inventory: Inventory,
    specifications: map<string, string>,
    averageRating: real,
    ratingCount: int,
    reviews: seq<Review>,
    tags: seq<string>,
    status: string,
    featured: bool,
    discount: Option<Discount>,
    seo: Option<Seo>,
    createdBy: Option<Id>)

  predicate IsActive(p: Product) {
    p.status == "active"
  }

  /** `message` in front of `rest` when the condition `failed`. */
  function Flag(failed: bool, message: string, rest: seq<string>): (r: seq<string>)
    ensures r == [] <==> !failed && rest == []
  {
    if failed then [message] + rest else rest
  }

  /** The messages of the schema validators `p` fails, in schema order. */
  function ProductErrors(p: Product): (errors: seq<string>)
    ensures errors == [] <==> ValidProduct(p)
  {
    Flag(p.name == "", "Please provide product name",
    Flag(|p.name| > 100, "Product name cannot exceed 100 characters",
    Flag(p.description == "", "Please provide product description",
    Flag(|p.description| > 1000, "Description cannot exceed 1000 characters",
    Flag(p.price < 0.0, "Price cannot be negative",
    Flag(p.originalPrice.Some? && p.originalPrice.value < 0.0, "Original price cannot be negative",
    Flag(!KnownCategory(p.category), "Invalid category",
    Flag(!ImagesHaveUrls(p.images), "Image url is required",
    Flag(p.inventory.quantity < 0, "Quantity cannot be negative",
    Flag(!(0.0 <= p.averageRating <= 5.0), "Average rating must be between 0 and 5",
    Flag(!ValidReviews(p.reviews), "Invalid review",
    Flag(!KnownStatus(p.status), "Invalid status",
    Flag(p.discount.Some? && !(0.0 <= p.discount.value.percentage <= 100.0), "Invalid discount percentage",
    [])))))))))))))
  }

  predicate ValidReview(r: Review) {
    1.0 <= r.rating <= 5.0 && r.comment != "" && |r.comment| <= 500
  }

  predicate ValidReviews(reviews: seq<Review>) {
    forall i :: 0 <= i < |reviews| ==> ValidReview(reviews[i])
  }

  predicate ImagesHaveUrls(images: seq<Image>) {
    forall i :: 0 <= i < |images| ==> images[i].url != ""
  }

  predicate KnownCategory(c: string) {
    c in Categories
  }

  predicate KnownStatus(s: string) {
    s in Statuses
  }

  /** Every schema constraint of the product document. */
  predicate ValidProduct(p: Product) {
    p.name != "" && |p.name| <= 100
    && p.description != "" && |p.description| <= 1000
    && p.price >= 0.0
    && (p.originalPrice.Some? ==> p.originalPrice.value >= 0.0)
    && KnownCategory(p.category)
    && ImagesHaveUrls(p.images)
    && p.inventory.quantity >= 0
    && 0.0 <= p.averageRating <= 5.0
    && ValidReviews(p.reviews)
    && KnownStatus(p.status)
    && (p.discount.Some? ==> 0.0 <= p.discount.value.percentage <= 100.0)
  }

  /** What `save` and `create` run before writing: `None`, or the validation error. */
  function ValidateProduct(p: Product): (r: Option<ErrorValue>)
    ensures r.None? <==> ValidProduct(p)
    ensures r.Some? ==> r.value.Failure? && r.value.name == "ValidationError" && r.value.fieldErrors != []
  {
    var errors := ProductErrors(p);
    if errors == [] then None
    else Some(Failure("ValidationError", "Product validation failed", None, errors, ""))
  }

  /** The discount applies when its percentage is positive and `now` lies in
      the optional window `[startDate, endDate]`. */
  predicate DiscountActive(p: Product, now: int) {
    p.discount.Some? && p.discount.value.percentage > 0.0
    && (p.discount.value.startDate.None? || now >= p.discount.value.startDate.value)
    && (p.discount.value.endDate.None? || now <= p.discount.value.endDate.value)
  }

  /** The `discountedPrice` virtual. */
  function DiscountedPrice(p: Product, now: int): (r: real)
    ensures !DiscountActive(p, now) ==> r == p.price
    ensures DiscountActive(p, now) && p.price > 0.0 ==> r < p.price
    ensures 0.0 <= p.price && (p.discount.Some? ==> p.discount.value.percentage <= 100.0) ==> 0.0 <= r <= p.price
  {
    if DiscountActive(p, now) then p.price * (1.0 - p.discount.value.percentage / 100.0) else p.price
  }

  /** `product.discountedPrice || product.price`: the price a cart or order line
      is charged. A price the discount brings down to 0 falls back to the list price. */
  function UnitPrice(p: Product, now: int): (r: real)
    ensures r == if DiscountedPrice(p, now) == 0.0 then p.price else DiscountedPrice(p, now)
  {
    var d := DiscountedPrice(p, now);
    if d != 0.0 then d else p.price
  }

  /** For a valid product the charged price never exceeds the list price and is never negative. */
  lemma UnitPriceBounds(p: Product, now: int)
    requires ValidProduct(p)
    ensures 0.0 <= UnitPrice(p, now) <= p.price
  {
  }

  /** A 100% discount in force makes `discountedPrice` 0, so the fallback charges the full price. */
  lemma FullDiscountChargesListPrice(p: Product, now: int)
    requires DiscountActive(p, now) && p.discount.value.percentage == 100.0
    ensures DiscountedPrice(p, now) == 0.0
    ensures UnitPrice(p, now) == p.price
  {
  }

  /** A 99% discount on the same product is charged 1% of the price: the price
      charged is not monotone in the discount. */
  lemma NinetyNinePercentIsCheaper(p: Product, now: int)
    requires DiscountActive(p, now) && p.discount.value.percentage == 99.0 && p.price > 0.0
    ensures UnitPrice(p, now) == p.price / 100.0
    ensures UnitPrice(p, now) < UnitPrice(p.(discount := Some(p.discount.value.(percentage := 100.0))), now)
  {
    var q := p.(discount := Some(p.discount.value.(percentage := 100.0)));
    FullDiscountChargesListPrice(q, now);
  }

  /** A product loaded through `populate` with a field list that leaves out
      `discount`: the virtual then has no discount to apply. */
  function WithoutDiscount(p: Product): (q: Product)
    ensures q.discount.None? && q.price == p.price && q.status == p.status && q.inventory == p.inventory
  {
    p.(discount := None)
  }

  lemma WithoutDiscountChargesListPrice(p: Product, now: int)
    ensures UnitPrice(WithoutDiscount(p), now) == p.price
  {
  }

  datatype StockStatus = OutOfStock | LowStock | InStock

  /** The `stockStatus` virtual. */
  function StockStatusOf(p: Product): (s: StockStatus)
    ensures s == OutOfStock <==> p.inventory.quantity == 0
    ensures s == InStock <==> p.inventory.quantity > p.inventory.threshold && p.inventory.quantity != 0
  {
    if p.inventory.quantity == 0 then OutOfStock
    else if p.inventory.quantity <= p.inventory.threshold then LowStock
    else InStock
  }

  /** For a stored (valid) product, low stock means between 1 and the threshold. */
  lemma LowStockRange(p: Product)
    requires ValidProduct(p)
    ensures StockStatusOf(p) == LowStock <==> 0 < p.inventory.quantity <= p.inventory.threshold
  {
  }

  /** A negative quantity, which `$inc` updates can leave behind, reads as low stock
      whenever the threshold is not negative. */
  lemma NegativeQuantityIsLowStock(p: Product)
    requires p.inventory.quantity < 0 <= p.inventory.threshold
    ensures StockStatusOf(p) == LowStock
  {
  }

  /** `findByIdAndUpdate(id, { $inc: { 'inventory.quantity': delta } })`: no validation,
      and nothing happens for an id that is not stored. */
  function IncQuantity(products: map<Id, Product>, id: Id, delta: int): (r: map<Id, Product>)
    ensures r.Keys == products.Keys
    ensures id in products ==> r[id] == products[id].(inventory := products[id].inventory.(quantity := products[id].inventory.quantity + delta))
    ensures forall k :: k in products && k != id ==> r[k] == products[k]
  {
    if id in products then
      products[id := products[id].(inventory := products[id].inventory.(quantity := products[id].inventory.quantity + delta))]
    else products
  }
}
