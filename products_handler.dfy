/** backend/services/products/handler.js: the sort object and the pagination of
    `getProducts`, the search-priority order, the id check of `getProduct`, and
    the product writes of `createProduct`, `updateProduct` and `addReview`.
    The query filters (status, category and brand patterns, price range, search
    pattern, featured flag) are database semantics: `getProducts` is given the
    products they select, in the order the database sort yields. */
module ProductsHandler {
  import opened Common
  import opened Responses
  import opened ProductModel
  import opened Database
  import opened Ranking

  // ---------------------------------------------------------------------------
  // getProducts: the sort object

  const DefaultSort: string := "-createdAt"
  const DefaultPage: int := 1
  const DefaultLimit: int := 12

  /** The single key of the sort object and its direction, 1 or -1. */
  datatype SortOrder = SortOrder(field: string, direction: int)

  /** The field named by a sort parameter, without its leading `-`. */
  function SortField(sort: string): string {
    if StartsWith(sort, "-") then sort[1..] else sort
  }

  /** The sort object built from the `sort` query parameter: a leading `-` sorts
      descending, and `rating` stands for `ratings.average`. */
  function SortObject(sort: string): (r: SortOrder)
    ensures r.direction == -1 <==> StartsWith(sort, "-")
    ensures r.direction == 1 <==> !StartsWith(sort, "-")
    ensures r.field == "ratings.average" <==> SortField(sort) == "rating" || SortField(sort) == "ratings.average"
    ensures r.field != "ratings.average" ==> r.field == SortField(sort)
  {
    var field := SortField(sort);
    SortOrder(if field == "rating" then "ratings.average" else field, if StartsWith(sort, "-") then -1 else 1)
  }

  /** The parameter a client sends for a sort order. */
  function SortParameter(o: SortOrder): string {
    (if o.direction == -1 then "-" else "") + (if o.field == "ratings.average" then "rating" else o.field)
  }

  /** The sort object keeps all that the parameter says: rendering it back gives
      the parameter, except for the literal `ratings.average`, which is the same
      order as its alias `rating`. */
  lemma SortObjectRoundTrip(sort: string)
    requires SortField(sort) != "ratings.average"
    ensures SortParameter(SortObject(sort)) == sort
  {
    if StartsWith(sort, "-") {
      assert sort == "-" + sort[1..];
    }
  }

  lemma RatingAlias(descending: bool)
    ensures SortObject(if descending then "-rating" else "rating")
            == SortObject(if descending then "-ratings.average" else "ratings.average")
    ensures SortObject(DefaultSort) == SortOrder("createdAt", -1)
  {
    Descending("rating");
    Descending("ratings.average");
    Descending("createdAt");
    assert "-rating" == "-" + "rating";
    assert "-ratings.average" == "-" + "ratings.average";
    assert DefaultSort == "-" + "createdAt";
    assert "rating"[0] != '-' && "ratings.average"[0] != '-';
  }

  /** A parameter written with a leading `-` names the rest, descending. */
  lemma Descending(field: string)
    ensures SortObject("-" + field).direction == -1
    ensures SortField("-" + field) == field
  {
    assert ("-" + field)[..1] == "-";
    assert ("-" + field)[1..] == field;
  }

  // ---------------------------------------------------------------------------
  // getProducts: the search priority

  /** Where the comparator puts a product for the lower-cased search term:
      names starting with the term, then names containing it, then the rest. */
  function MatchRank(name: string, term: string): (r: nat)
    ensures r <= 2
    ensures r == 0 <==> StartsWith(Lower(name), term)
    ensures r <= 1 <==> Contains(Lower(name), term)
  {
    var n := Lower(name);
    if StartsWith(n, term) then 0 else if Contains(n, term) then 1 else 2
  }

  /** The comparator passed to `sort`, as the sign it returns. */
  function Compare(a: Product, b: Product, term: string): int {
    var aName := Contains(Lower(a.name), term);
    var bName := Contains(Lower(b.name), term);
    if aName && !bName then -1
    else if !aName && bName then 1
    else
      var aStarts := StartsWith(Lower(a.name), term);
      var bStarts := StartsWith(Lower(b.name), term);
      if aStarts && !bStarts then -1
      else if !aStarts && bStarts then 1
      else 0
  }

  /** The comparator orders products by their rank alone, so it is a consistent
      total preorder and the sort is well defined. A name that starts with the
      term also contains it, so "starts with" ranks above "contains" although the
      comparator tests containment first. */
  lemma CompareByRank(a: Product, b: Product, term: string)
    ensures var ra := MatchRank(a.name, term); var rb := MatchRank(b.name, term);
      Compare(a, b, term) == (if ra < rb then -1 else if ra > rb then 1 else 0)
  {
  }

  /** The comparator's rank as a function of the product. */
  function RankFor(term: string): Product -> nat {
    (p: Product) => MatchRank(p.name, term)
  }

  /** `[...allProducts].sort(comparator)`: the sort is stable, so it lists the
      products of each rank in turn, each group in database order. */
  function SearchOrdered(ps: seq<Product>, term: string): seq<Product> {
    GroupedByRank(ps, RankFor(term))
  }

  /** The search order never puts a product after one of higher rank. */
  lemma SearchOrderedSorted(ps: seq<Product>, term: string)
    ensures var r := SearchOrdered(ps, term);
      forall i, j :: 0 <= i < j < |r| ==> MatchRank(r[i].name, term) <= MatchRank(r[j].name, term)
  {
    GroupedByRankIsStableSort(ps, RankFor(term));
    var r := SearchOrdered(ps, term);
    forall i, j | 0 <= i < j < |r| ensures MatchRank(r[i].name, term) <= MatchRank(r[j].name, term) {
      assert RankFor(term)(r[i]) <= RankFor(term)(r[j]);
    }
  }

  /** The search order is a stable sort by the comparator's rank. */
  lemma SearchOrderedIsStableSort(ps: seq<Product>, term: string)
    ensures var r := SearchOrdered(ps, term);
      (forall i, j :: 0 <= i < j < |r| ==> MatchRank(r[i].name, term) <= MatchRank(r[j].name, term))
      && multiset(r) == multiset(ps)
      && (forall k: nat :: OfRank(r, RankFor(term), k) == OfRank(ps, RankFor(term), k))
  {
    GroupedByRankIsStableSort(ps, RankFor(term));
    SearchOrderedSorted(ps, term);
  }

  /** `getProducts` on the products the filter selects (`matched`, in database
      order). With a search term the whole selection is reordered and then cut
      into the page; without one the database cuts the page. Either way the
      count is that of the whole selection. */
  function GetProducts(matched: seq<Product>, search: string, page: Option<int>, limit: Option<int>): (r: Listed<Product>)
    requires page.GetOr(DefaultPage) >= 1 && limit.GetOr(DefaultLimit) >= 1
    ensures r.pagination.totalItems == |matched|
    ensures |r.items| <= r.pagination.limit
  {
    var pageNum := page.GetOr(DefaultPage);
    var limitNum := limit.GetOr(DefaultLimit);
    var ordered := if search != "" then SearchOrdered(matched, Lower(search)) else matched;
    Listed(PageOf(ordered, pageNum, limitNum),
           Pagination(pageNum, limitNum, TotalPages(|matched|, limitNum), |matched|))
  }

  /** A product on an earlier page of a search never ranks below one on a
      later page. */
  lemma SearchPagesOrdered(matched: seq<Product>, search: string, p1: nat, p2: nat, limit: nat)
    requires search != "" && 1 <= p1 < p2 && limit >= 1
    ensures var term := Lower(search);
      var a := GetProducts(matched, search, Some(p1), Some(limit)).items;
      var b := GetProducts(matched, search, Some(p2), Some(limit)).items;
      forall i, j :: 0 <= i < |a| && 0 <= j < |b| ==> MatchRank(a[i].name, term) <= MatchRank(b[j].name, term)
  {
    var term := Lower(search);
    var ordered := SearchOrdered(matched, term);
    SearchOrderedSorted(matched, term);
    var a := PageOf(ordered, p1, limit);
    var b := PageOf(ordered, p2, limit);
    var s1, s2 := (p1 - 1) * limit, (p2 - 1) * limit;
    assert s1 + limit <= s2 by {
      MulMonotone(p1, p2 - 1, limit);
      assert p1 * limit == s1 + limit;
    }
    forall i, j | 0 <= i < |a| && 0 <= j < |b|
      ensures MatchRank(a[i].name, term) <= MatchRank(b[j].name, term)
    {
      assert a[i] == ordered[s1 + i] && b[j] == ordered[s2 + j];
    }
  }

  /** Every product a search page lists was selected by the filter. */
  lemma SearchPageFromSelection(matched: seq<Product>, search: string, page: nat, limit: nat)
    requires search != "" && page >= 1 && limit >= 1
    ensures var a := GetProducts(matched, search, Some(page), Some(limit)).items;
      forall i :: 0 <= i < |a| ==> a[i] in matched
  {
    var term := Lower(search);
    var ordered := SearchOrdered(matched, term);
    GroupedByRankMembers(matched, RankFor(term));
    PageMembers(ordered, page, limit);
    var a := PageOf(ordered, page, limit);
    forall i | 0 <= i < |a| ensures a[i] in matched {
      assert a[i] in a;
    }
  }

  /** With or without a search term, a page holds items exactly up to the page
      count the listing reports, and every page before the last is full. */
  lemma GetProductsPageNonEmptyIff(matched: seq<Product>, search: string, page: nat, limit: nat)
    requires page >= 1 && limit >= 1
    ensures var a := GetProducts(matched, search, Some(page), Some(limit));
      (a.items != [] <==> page <= a.pagination.totalPages)
      && (page < a.pagination.totalPages ==> |a.items| == limit)
  {
    var ordered := if search != "" then SearchOrdered(matched, Lower(search)) else matched;
    if search != "" {
      GroupedByRankPermutes(matched, RankFor(Lower(search)));
      assert |multiset(ordered)| == |multiset(matched)|;
    }
    PageNonEmptyIff(ordered, page, limit);
  }

  /** When some selected name starts with the search term, the first result of
      the first page is such a product. */
  lemma BestMatchFirst(matched: seq<Product>, search: string, limit: nat, k: nat)
    requires search != "" && limit >= 1
    requires k < |matched| && StartsWith(Lower(matched[k].name), Lower(search))
    ensures var a := GetProducts(matched, search, Some(1), Some(limit));
      a.items != [] && StartsWith(Lower(a.items[0].name), Lower(search))
  {
    var term := Lower(search);
    assert MatchRank(matched[k].name, term) == 0;
    TopRankFirst(matched, term, k);
  }

  /** A product of rank 0 in the selection brings one to the front of the
      search order. */
  lemma TopRankFirst(ps: seq<Product>, term: string, k: nat)
    requires k < |ps| && MatchRank(ps[k].name, term) == 0
    ensures var r := SearchOrdered(ps, term);
      r != [] && MatchRank(r[0].name, term) == 0
  {
    var r := SearchOrdered(ps, term);
    GroupedByRankPermutes(ps, RankFor(term));
    assert ps[k] in multiset(ps);
    assert ps[k] in r;
    var i :| 0 <= i < |r| && r[i] == ps[k];
    SearchOrderedSorted(ps, term);
    if i > 0 {
      assert MatchRank(r[0].name, term) <= MatchRank(r[i].name, term);
    }
  }

  // ---------------------------------------------------------------------------
  // getProduct

  /** `/^[0-9a-fA-F]{24}$/`. */
  predicate IsObjectIdFormat(id: string) {
    |id| == 24 && forall i :: 0 <= i < |id| ==> IsHexChar(id[i])
  }

  /** The three id checks of `getProduct`, `None` when they pass. */
  function ProductIdCheck(id: string): (r: Option<Reply>)
    ensures r.None? <==> IsObjectIdFormat(id)
    ensures r.Some? ==> r.value.Refused? && r.value.status == 400
  {
    if id == "" then Some(Refused(400, "Product ID is required"))
    else if id == "[object Object]" then Some(Refused(400, "Invalid product ID format"))
    else if !IsObjectIdFormat(id) then Some(Refused(400, "Invalid product ID format: " + id))
    else None
  }

  /** `getProduct`: the reply and the product it returns. */
  function GetProduct(products: map<Id, Product>, id: string): (r: (Reply, Option<Product>))
  {
    var problem := ProductIdCheck(id);
    if problem.Some? then (problem.value, None)
    else if id !in products then (Refused(404, "Product not found"), None)
    else (Ok(200, "Product retrieved successfully"), Some(products[id]))
  }

  /** `getProduct` returns the stored product exactly when the id is 24
      hexadecimal digits and names one; an empty id and the text a stray object
      turns into get their own messages, any other malformed id is echoed. */
  lemma GetProductIff(products: map<Id, Product>, id: string)
    ensures var (reply, product) := GetProduct(products, id);
      (reply.Ok? <==> IsObjectIdFormat(id) && id in products)
      && (reply.Ok? ==> product == Some(products[id]))
      && (!reply.Ok? ==> product.None?)
      && (id == "" ==> reply == Refused(400, "Product ID is required"))
      && (id == "[object Object]" ==> reply == Refused(400, "Invalid product ID format"))
      && (id != "" && id != "[object Object]" && !IsObjectIdFormat(id) ==>
            reply == Refused(400, "Invalid product ID format: " + id))
  {
  }

  /** The store answers `getProduct` without changing anything. */
  method FetchProduct(db: Store, id: string) returns (reply: Reply, product: Option<Product>)
    ensures (reply, product) == GetProduct(db.products, id)
  {
    var problem := ProductIdCheck(id);
    if problem.Some? {
      return problem.value, None;
    }
    if id !in db.products {
      return Refused(404, "Product not found"), None;
    }
    return Ok(200, "Product retrieved successfully"), Some(db.products[id]);
  }

  // ---------------------------------------------------------------------------
  // createProduct

  /** One entry of a `images` array: a bare url, or an object whose `url` and
      `alt` may be absent (`""`). */
  datatype ImageEntry = UrlText(url: string) | ImageObject(url: string, alt: string)

  /** The `images` of the body: absent, an array, or a single url. */
  datatype ImagesInput = NoImages | ImageArray(entries: seq<ImageEntry>) | SingleImage(url: string)

  /** `{ url: img.url || img, alt: img.alt || body.name }`. An object without a
      url is kept with an empty url, which the schema then refuses. */
  function NormalizedImage(entry: ImageEntry, name: string): (r: Image)
    ensures entry.UrlText? ==> r == Image(entry.url, name)
    ensures entry.ImageObject? ==> r.url == entry.url && r.alt == (if entry.alt != "" then entry.alt else name)
  {
    match entry
    case UrlText(url) => Image(url, name)
    case ImageObject(url, alt) => Image(url, if alt != "" then alt else name)
  }

  /** The images `createProduct` stores. */
  function NormalizedImages(images: ImagesInput, name: string): (r: seq<Image>)
    ensures images.ImageArray? ==>
              |r| == |images.entries| && forall i :: 0 <= i < |r| ==> r[i] == NormalizedImage(images.entries[i], name)
    ensures images.SingleImage? && images.url != "" ==> r == [Image(images.url, name)]
  {
    match images
    case NoImages => []
    case ImageArray(entries) => seq(|entries|, i requires 0 <= i < |entries| => NormalizedImage(entries[i], name))
    case SingleImage(url) => if url != "" then [Image(url, name)] else []
  }

  /** Every stored image has an alt text when the product is named. */
  lemma NormalizedImagesHaveAlt(images: ImagesInput, name: string)
    requires name != ""
    ensures forall i :: 0 <= i < |NormalizedImages(images, name)| ==> NormalizedImages(images, name)[i].alt != ""
  {
  }

  /** The fields `createProduct` requires, as the body carries them. */
  function CreateBody(draft: Product): map<string, JsValue> {
    map["name" := Str(draft.name), "description" := Str(draft.description),
        "price" := Num(draft.price), "category" := Str(draft.category)]
  }

  /** The schema's `trim` setter on `brand`. */
  function TrimmedBrand(brand: Option<string>): Option<string> {
    if brand.Some? then Some(Trim(brand.value)) else None
  }

  /** The document `Product.create` is given: the body with the creator set and
      the images normalised; the schema trims the name and the brand, while the
      alt texts carry the name as sent. */
  function NewProduct(user: User, draft: Product, images: ImagesInput): Product {
    draft.(name := Trim(draft.name), brand := TrimmedBrand(draft.brand),
           images := NormalizedImages(images, draft.name), createdBy := Some(user.id))
  }

  /** `createProduct`; `draft` holds the body's other fields after the schema
      defaults, and `newId` is the id the database assigns. */
  function CreateProductStep(d: Db, user: User, draft: Product, images: ImagesInput, newId: Id): Step
    requires newId !in d.products
  {
    var admin := RequireAdmin(user);
    if admin.Some? then Step(Threw(admin.value), d)
    else
      var missing := ValidateRequiredFields(CreateBody(draft), ["name", "description", "price", "category"]);
      if missing.Some? then Step(Threw(missing.value), d)
      else
        var p := NewProduct(user, draft, images);
        var invalid := ValidateProduct(p);
        if invalid.Some? then Step(Threw(invalid.value), d)
        else Step(Ok(201, "Product created successfully"), d.(products := d.products[newId := p]))
  }

  /** The required-field check of `createProduct` passes exactly when the four
      fields are present; a price of 0 counts as missing. */
  lemma CreateBodyComplete(draft: Product)
    ensures ValidateRequiredFields(CreateBody(draft), ["name", "description", "price", "category"]).None?
            <==> draft.name != "" && draft.description != "" && draft.price != 0.0 && draft.category != ""
  {
    var body := CreateBody(draft);
    assert Field(body, "name") == Str(draft.name) && Field(body, "description") == Str(draft.description);
    assert Field(body, "price") == Num(draft.price) && Field(body, "category") == Str(draft.category);
  }

  /** `createProduct` stores one new product exactly when an admin sends the four
      required fields (a price of 0 counts as missing) and the result passes the
      schema; the product records its creator and nothing else changes. */
  lemma CreateProductSucceedsIff(d: Db, user: User, draft: Product, images: ImagesInput, newId: Id)
    requires newId !in d.products
    ensures var s := CreateProductStep(d, user, draft, images, newId);
      var p := NewProduct(user, draft, images);
      (s.reply.Ok? <==> user.role == Admin && draft.name != "" && draft.description != ""
                        && draft.price != 0.0 && draft.category != "" && ValidProduct(p))
      && (s.reply.Ok? ==> s.after == d.(products := d.products[newId := p])
                          && p.createdBy == Some(user.id) && IsActive(p) == IsActive(draft))
      && (!s.reply.Ok? ==> s.after == d)
      && (user.role != Admin ==> s.reply == Threw(PlainError("Admin access required")))
  {
    CreateBodyComplete(draft);
  }

  /** A free product cannot be created, although the schema allows a price of 0. */
  lemma FreeProductRefused(d: Db, user: User, draft: Product, images: ImagesInput, newId: Id)
    requires newId !in d.products && user.role == Admin && draft.price == 0.0
    ensures CreateProductStep(d, user, draft, images, newId).reply.Threw?
    ensures CreateProductStep(d, user, draft, images, newId).after == d
  {
    CreateBodyComplete(draft);
  }

  /** `createProduct`. */
  method CreateProduct(db: Store, user: User, draft: Product, images: ImagesInput, newId: Id) returns (reply: Reply)
    requires newId !in db.products
    requires db.Valid()
    modifies db
    ensures db.Valid()
    ensures Step(reply, db.State()) == CreateProductStep(old(db.State()), user, draft, images, newId)
  {
    var admin := RequireAdmin(user);
    if admin.Some? {
      return Threw(admin.value);
    }
    var missing := ValidateRequiredFields(CreateBody(draft), ["name", "description", "price", "category"]);
    if missing.Some? {
      return Threw(missing.value);
    }
    var p := NewProduct(user, draft, images);
    var invalid := ValidateProduct(p);
    if invalid.Some? {
      return Threw(invalid.value);
    }
    db.products := db.products[newId := p];
    reply := Ok(201, "Product created successfully");
  }

  // ---------------------------------------------------------------------------
  // updateProduct

  /** The body of `updateProduct`: the fourteen fields it may copy (`None` when
      the body leaves one undefined) and the rating, review and creator fields a
      body may also carry. */
  datatype ProductUpdate = ProductUpdate(
    name: Option<string>,
    description: Option<string>,
    price: Option<real>,
    originalPrice: Option<real>,
    category: Option<string>,
    brand: Option<string>,
    images: Option<seq<Image>>,
    inventory: Option<Inventory>,
    specifications: Option<map<string, string>>,
    tags: Option<seq<string>>,
    status: Option<string>,
    featured: Option<bool>,
    discount: Option<Discount>,
    seo: Option<Seo>,
    ratings: Option<(real, int)>,
    reviews: Option<seq<Review>>,
    createdBy: Option<Id>)

  /** The `allowedUpdates.forEach` copy; `name` and `brand` pass the schema's
      `trim` setter. */
  function Patched(p: Product, b: ProductUpdate): (q: Product)
    ensures q.averageRating == p.averageRating && q.ratingCount == p.ratingCount
    ensures q.reviews == p.reviews && q.createdBy == p.createdBy
  {
    p.(name := if b.name.Some? then Trim(b.name.value) else p.name,
       description := b.description.GetOr(p.description),
       price := b.price.GetOr(p.price),
       originalPrice := if b.originalPrice.Some? then b.originalPrice else p.originalPrice,
       category := b.category.GetOr(p.category),
       brand := if b.brand.Some? then Some(Trim(b.brand.value)) else p.brand,
       images := b.images.GetOr(p.images),
       inventory := b.inventory.GetOr(p.inventory),
       specifications := b.specifications.GetOr(p.specifications),
       tags := b.tags.GetOr(p.tags),
       status := b.status.GetOr(p.status),
       featured := b.featured.GetOr(p.featured),
       discount := if b.discount.Some? then b.discount else p.discount,
       seo := if b.seo.Some? then b.seo else p.seo)
  }

  /** Every field the body defines among the fourteen is copied, every other
      field is kept, the rating, review and creator fields of the body are
      ignored, and an empty body changes nothing. */
  lemma PatchedCopiesWhitelist(p: Product, b: ProductUpdate)
    ensures var q := Patched(p, b);
      (b.price.Some? ==> q.price == b.price.value) && (b.price.None? ==> q.price == p.price)
      && (b.status.Some? ==> q.status == b.status.value) && (b.status.None? ==> q.status == p.status)
      && (b.inventory.Some? ==> q.inventory == b.inventory.value) && (b.inventory.None? ==> q.inventory == p.inventory)
      && (b.discount.Some? ==> q.discount == b.discount) && (b.discount.None? ==> q.discount == p.discount)
      && (b.name.Some? ==> q.name == Trim(b.name.value)) && (b.name.None? ==> q.name == p.name)
      && q == Patched(p, b.(ratings := None, reviews := None, createdBy := None))
    ensures Patched(p, ProductUpdate(None, None, None, None, None, None, None, None, None, None, None, None, None, None,
                                     None, None, None)) == p
  {
  }

  /** Applying the same body twice is applying it once. */
  lemma PatchedIdempotent(p: Product, b: ProductUpdate)
    ensures Patched(Patched(p, b), b) == Patched(p, b)
  {
    if b.name.Some? {
      TrimIdempotent(b.name.value);
    }
    if b.brand.Some? {
      TrimIdempotent(b.brand.value);
    }
  }

  lemma {:induction false} TrimIdempotent(s: string)
    ensures Trim(Trim(s)) == Trim(s)
    decreases |s|
  {
    if s != [] {
      if IsSpace(s[0]) {
        TrimIdempotent(s[1..]);
      } else if IsSpace(s[|s| - 1]) {
        TrimIdempotent(s[..|s| - 1]);
      }
    }
  }

  /** `updateProduct`; `validId` says whether Mongoose can cast `id`. */
  function UpdateProductStep(d: Db, user: User, id: string, validId: bool, b: ProductUpdate): Step {
    var admin := RequireAdmin(user);
    if admin.Some? then Step(Threw(admin.value), d)
    else if id == "" then Step(Refused(400, "Product ID is required"), d)
    else if !validId then Step(Threw(CastFailure(id)), d)
    else if id !in d.products then Step(Refused(404, "Product not found"), d)
    else
      var q := Patched(d.products[id], b);
      var invalid := ValidateProduct(q);
      if invalid.Some? then Step(Threw(invalid.value), d)
      else Step(Ok(200, "Product updated successfully"), d.(products := d.products[id := q]))
  }

  /** `updateProduct` replaces exactly the named product by its patched copy
      when an admin names a stored product and the copy passes the schema;
      otherwise nothing changes. Its ratings and reviews survive every update. */
  lemma UpdateProductSucceedsIff(d: Db, user: User, id: string, validId: bool, b: ProductUpdate)
    ensures var s := UpdateProductStep(d, user, id, validId, b);
      (s.reply.Ok? <==> user.role == Admin && id != "" && validId && id in d.products
                        && ValidProduct(Patched(d.products[id], b)))
      && (s.reply.Ok? ==> s.after == d.(products := d.products[id := Patched(d.products[id], b)])
                          && s.after.products[id].reviews == d.products[id].reviews
                          && s.after.products[id].averageRating == d.products[id].averageRating)
      && (!s.reply.Ok? ==> s.after == d)
  {
  }

  /** `updateProduct`. */
  method UpdateProduct(db: Store, user: User, id: string, validId: bool, b: ProductUpdate) returns (reply: Reply)
    requires db.Valid()
    modifies db
    ensures db.Valid()
    ensures Step(reply, db.State()) == UpdateProductStep(old(db.State()), user, id, validId, b)
  {
    var admin := RequireAdmin(user);
    if admin.Some? {
      return Threw(admin.value);
    }
    if id == "" {
      return Refused(400, "Product ID is required");
    }
    if !validId {
      return Threw(CastFailure(id));
    }
    if id !in db.products {
      return Refused(404, "Product not found");
    }
    var q := Patched(db.products[id], b);
    var invalid := ValidateProduct(q);
    if invalid.Some? {
      return Threw(invalid.value);
    }
    db.products := db.products[id := q];
    reply := Ok(200, "Product updated successfully");
  }

  // ---------------------------------------------------------------------------
  // addReview

  /** `reviews.reduce((sum, review) => sum + review.rating, 0)`. */
  function RatingSum(reviews: seq<Review>): real {
    if reviews == [] then 0.0 else RatingSum(reviews[..|reviews| - 1]) + reviews[|reviews| - 1].rating
  }

  /** Ratings between 1 and 5 sum to between the count and five times the count. */
  lemma {:induction false} RatingSumBounds(reviews: seq<Review>)
    requires forall i :: 0 <= i < |reviews| ==> 1.0 <= reviews[i].rating <= 5.0
    ensures |reviews| as real <= RatingSum(reviews) <= 5.0 * |reviews| as real
  {
    if reviews != [] {
      RatingSumBounds(reviews[..|reviews| - 1]);
    }
  }

  predicate ReviewedBy(reviews: seq<Review>, userId: Id) {
    exists i :: 0 <= i < |reviews| && reviews[i].user == userId
  }

  /** The product once the review is added and the ratings recomputed. */
  function WithReview(p: Product, userId: Id, rating: real, comment: string, now: int): (q: Product)
    ensures q.reviews == p.reviews + [Review(userId, rating, Trim(comment), now)]
    ensures q.ratingCount == |q.reviews|
  {
    var reviews := p.reviews + [Review(userId, rating, Trim(comment), now)];
    p.(reviews := reviews, averageRating := RatingSum(reviews) / |reviews| as real, ratingCount := |reviews|)
  }

  function ReviewBody(rating: real, comment: string): map<string, JsValue> {
    map["rating" := Num(rating), "comment" := Str(comment)]
  }

  /** `addReview`; an absent rating or comment is 0 or `""`, which the
      required-field check treats alike. */
  function AddReviewStep(d: Db, user: User, id: string, validId: bool, rating: real, comment: string, now: int): Step {
    var missing := ValidateRequiredFields(ReviewBody(rating, comment), ["rating", "comment"]);
    if missing.Some? then Step(Threw(missing.value), d)
    else if rating < 1.0 || rating > 5.0 then Step(Refused(400, "Rating must be between 1 and 5"), d)
    else if !validId then Step(Threw(CastFailure(id)), d)
    else if id !in d.products then Step(Refused(404, "Product not found"), d)
    else if ReviewedBy(d.products[id].reviews, user.id) then
      Step(Refused(400, "You have already reviewed this product"), d)
    else
      var q := WithReview(d.products[id], user.id, rating, comment, now);
      var invalid := ValidateProduct(q);
      if invalid.Some? then Step(Threw(invalid.value), d)
      else Step(Ok(200, "Review added successfully"), d.(products := d.products[id := q]))
  }

  /** Adding a review to a product that satisfies its schema keeps it valid
      whenever the trimmed comment is between 1 and 500 characters: the new
      average lies between 1 and 5. */
  lemma WithReviewValid(p: Product, userId: Id, rating: real, comment: string, now: int)
    requires ValidProduct(p) && 1.0 <= rating <= 5.0 && Trim(comment) != "" && |Trim(comment)| <= 500
    ensures var q := WithReview(p, userId, rating, comment, now);
      ValidProduct(q) && 1.0 <= q.averageRating <= 5.0
  {
    var q := WithReview(p, userId, rating, comment, now);
    assert forall i :: 0 <= i < |q.reviews| ==> ValidReview(q.reviews[i]) by {
      forall i | 0 <= i < |q.reviews| ensures ValidReview(q.reviews[i]) {
        if i < |p.reviews| {
          assert q.reviews[i] == p.reviews[i];
        }
      }
    }
    RatingSumBounds(q.reviews);
    AverageBounds(RatingSum(q.reviews), |q.reviews| as real);
    assert q == p.(reviews := q.reviews, averageRating := q.averageRating, ratingCount := q.ratingCount);
  }

  /** The stored average is the mean of the ratings: multiplied by the new
      review count it gives back their sum. */
  lemma WithReviewAverage(p: Product, userId: Id, rating: real, comment: string, now: int)
    ensures var q := WithReview(p, userId, rating, comment, now);
      q.ratingCount == |p.reviews| + 1 && q.averageRating * q.ratingCount as real == RatingSum(q.reviews)
  {
    var q := WithReview(p, userId, rating, comment, now);
    var n := |q.reviews| as real;
    assert q.averageRating == RatingSum(q.reviews) / n;
  }

  /** A mean of ratings from 1 to 5 lies between 1 and 5. */
  lemma AverageBounds(sum: real, n: real)
    requires n > 0.0 && n <= sum <= 5.0 * n
    ensures 1.0 <= sum / n <= 5.0
  {
    assert sum / n * n == sum;
  }

  /** The required-field check of `addReview` passes exactly when the rating is
      not 0 and the comment not empty. */
  lemma ReviewBodyComplete(rating: real, comment: string)
    ensures ValidateRequiredFields(ReviewBody(rating, comment), ["rating", "comment"]).None?
            <==> rating != 0.0 && comment != ""
  {
    var body := ReviewBody(rating, comment);
    assert Field(body, "rating") == Num(rating) && Field(body, "comment") == Str(comment);
  }

  /** `addReview` adds one review exactly when the rating is between 1 and 5,
      the product exists, the caller has not reviewed it yet and the result
      passes the schema; the ratings then count every review and average them. */
  lemma AddReviewSucceedsIff(d: Db, user: User, id: string, validId: bool, rating: real, comment: string, now: int)
    ensures var s := AddReviewStep(d, user, id, validId, rating, comment, now);
      (s.reply.Ok? <==> comment != "" && 1.0 <= rating <= 5.0 && validId && id in d.products
                        && !ReviewedBy(d.products[id].reviews, user.id)
                        && ValidProduct(WithReview(d.products[id], user.id, rating, comment, now)))
      && (s.reply.Ok? ==>
            s.after == d.(products := d.products[id := WithReview(d.products[id], user.id, rating, comment, now)])
            && s.after.products[id].ratingCount == |d.products[id].reviews| + 1)
      && (!s.reply.Ok? ==> s.after == d)
  {
    var s := AddReviewStep(d, user, id, validId, rating, comment, now);
    ReviewBodyComplete(rating, comment);
    if comment != "" && 1.0 <= rating <= 5.0 && validId && id in d.products && !ReviewedBy(d.products[id].reviews, user.id) {
      var q := WithReview(d.products[id], user.id, rating, comment, now);
      assert s == if ValidateProduct(q).Some? then Step(Threw(ValidateProduct(q).value), d)
                  else Step(Ok(200, "Review added successfully"), d.(products := d.products[id := q]));
    } else {
      assert s.after == d && !s.reply.Ok?;
    }
  }

  /** On a product that satisfies its schema, a first review by the caller with
      a rating from 1 to 5 and a trimmed comment of 1 to 500 characters is
      always accepted. */
  lemma AddReviewAcceptsValid(d: Db, user: User, id: string, rating: real, comment: string, now: int)
    requires id in d.products && ValidProduct(d.products[id]) && 1.0 <= rating <= 5.0
    requires !ReviewedBy(d.products[id].reviews, user.id) && Trim(comment) != "" && |Trim(comment)| <= 500
    ensures AddReviewStep(d, user, id, true, rating, comment, now).reply.Ok?
  {
    AddReviewSucceedsIff(d, user, id, true, rating, comment, now);
    WithReviewValid(d.products[id], user.id, rating, comment, now);
  }

  /** A comment of spaces passes the required-field check and then fails the
      schema, after trimming. */
  lemma BlankCommentFailsSchema(d: Db, user: User, id: string, rating: real, now: int)
    requires 1.0 <= rating <= 5.0 && id in d.products && !ReviewedBy(d.products[id].reviews, user.id)
    ensures var s := AddReviewStep(d, user, id, true, rating, "  ", now);
      s.reply.Threw? && s.reply.error.Failure? && s.reply.error.name == "ValidationError" && s.after == d
  {
    TrimOfBlank("  ");
    var q := WithReview(d.products[id], user.id, rating, "  ", now);
    assert !ValidReview(q.reviews[|q.reviews| - 1]);
    assert ValidateProduct(q).Some?;
    ReviewBodyComplete(rating, "  ");
  }

  /** A second review by the same user is refused and changes nothing. */
  lemma ReviewTwiceRefused(d: Db, user: User, id: string, rating: real, comment: string, now: int,
                           rating2: real, comment2: string, later: int)
    requires AddReviewStep(d, user, id, true, rating, comment, now).reply.Ok?
    requires 1.0 <= rating2 <= 5.0 && comment2 != ""
    ensures var after := AddReviewStep(d, user, id, true, rating, comment, now).after;
      AddReviewStep(after, user, id, true, rating2, comment2, later)
      == Step(Refused(400, "You have already reviewed this product"), after)
  {
    AddReviewSucceedsIff(d, user, id, true, rating, comment, now);
    var after := AddReviewStep(d, user, id, true, rating, comment, now).after;
    var reviews := after.products[id].reviews;
    assert reviews[|reviews| - 1].user == user.id;
    ReviewBodyComplete(rating2, comment2);
  }

  /** The `reduce` over the reviews. */
  method SumRatings(reviews: seq<Review>) returns (total: real)
    ensures total == RatingSum(reviews)
  {
    total := 0.0;
    var k := 0;
    while k < |reviews|
      invariant 0 <= k <= |reviews|
      invariant total == RatingSum(reviews[..k])
    {
      assert reviews[..k + 1][..k] == reviews[..k];
      total := total + reviews[k].rating;
      k := k + 1;
    }
    assert reviews[..k] == reviews;
  }

  /** `addReview`: the review is pushed, then the ratings are recomputed. */
  method AddReview(db: Store, user: User, id: string, validId: bool, rating: real, comment: string, now: int)
    returns (reply: Reply)
    requires db.Valid()
    modifies db
    ensures db.Valid()
    ensures Step(reply, db.State()) == AddReviewStep(old(db.State()), user, id, validId, rating, comment, now)
  {
    var missing := ValidateRequiredFields(ReviewBody(rating, comment), ["rating", "comment"]);
    if missing.Some? {
      return Threw(missing.value);
    }
    if rating < 1.0 || rating > 5.0 {
      return Refused(400, "Rating must be between 1 and 5");
    }
    if !validId {
      return Threw(CastFailure(id));
    }
    if id !in db.products {
      return Refused(404, "Product not found");
    }
    var p := db.products[id];
    if ReviewedBy(p.reviews, user.id) {
      return Refused(400, "You have already reviewed this product");
    }
    var reviews := p.reviews + [Review(user.id, rating, Trim(comment), now)];
    var total := SumRatings(reviews);
    var q := p.(reviews := reviews, averageRating := total / |reviews| as real, ratingCount := |reviews|);
    var invalid := ValidateProduct(q);
    if invalid.Some? {
      return Threw(invalid.value);
    }
    db.products := db.products[id := q];
    reply := Ok(200, "Review added successfully");
  }
}
