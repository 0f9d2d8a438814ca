/** The catalogue handlers (controllers/productController.js): the filter
    and sort a listing asks the store for, the update with its fallbacks,
    and the two review handlers. The query engine, the regex search and the
    sort itself belong to the store and are a parameter here. */
module ProductService {
  import opened Wrappers
  import opened Common
  import opened ProductModel

  // ---------------------------------------------------------------------
  // Listing
  // ---------------------------------------------------------------------

  /** The query string of a listing; an absent parameter is "". */
  datatype ListQuery = ListQuery(keyword: string, category: string, occasion: string, sort: string)

  /** The conditions passed to the store; `None` leaves that condition out. */
  datatype Filter = Filter(keyword: Option<string>, category: Option<string>, occasion: Option<string>)

  datatype SortKey = PriceAscending | PriceDescending | NameAscending | FeaturedFirst | NewestFirst

  /** A category or occasion condition: left out when the value is missing
      or "all", otherwise the value as given. */
  function Selector(value: string): (r: Option<string>)
    ensures r.None? <==> value == "" || value == "all"
    ensures r.Some? ==> r.value == value
  {
    if value == "" || value == "all" then None else Some(value)
  }

  function FilterFor(q: ListQuery): (f: Filter)
    ensures f.keyword.None? <==> q.keyword == ""
    ensures f.keyword.Some? ==> f.keyword.value == q.keyword
    ensures f.category == Selector(q.category) && f.occasion == Selector(q.occasion)
  {
    Filter(if q.keyword == "" then None else Some(q.keyword), Selector(q.category), Selector(q.occasion))
  }

  /** The sort a `sort` value selects; every other value, the missing one
      included, means newest first. */
  function SortFor(sort: string): (k: SortKey)
    ensures k == PriceAscending <==> sort == "price-low"
    ensures k == PriceDescending <==> sort == "price-high"
    ensures k == NameAscending <==> sort == "name-asc"
    ensures k == FeaturedFirst <==> sort == "featured"
    ensures k == NewestFirst <==> sort !in {"price-low", "price-high", "name-asc", "featured"}
  {
    match sort
    case "price-low" => PriceAscending
    case "price-high" => PriceDescending
    case "name-asc" => NameAscending
    case "featured" => FeaturedFirst
    case _ => NewestFirst
  }

  /** The body of a listing response. */
  datatype Listing = Listing(products: seq<ProductId>, total: int)

  /** The store's `find(filter).sort(sort)`, given as a function. */
  type Query = (Filter, SortKey) -> seq<ProductId>

  /** `getProducts`: the products the store returns for the selected filter
      and sort, and their number as `total`. */
  function GetProducts(q: ListQuery, find: Query): (l: Listing)
    ensures l.products == find(FilterFor(q), SortFor(q.sort))
    ensures l.total == |l.products|
  {
    var found := find(FilterFor(q), SortFor(q.sort));
    Listing(found, |found|)
  }

  /** "all" and a missing category ask the store for the same listing. */
  lemma AllCategoriesIsNoFilter(q: ListQuery, find: Query)
    ensures GetProducts(q.(category := "all"), find) == GetProducts(q.(category := ""), find)
  {
  }

  // ---------------------------------------------------------------------
  // Creation
  // ---------------------------------------------------------------------

  /** `createProduct`: a category that is missing or outside the enum
      fails the save (500, no product); otherwise the product is created
      with the schema defaults for what the request leaves unset (201). */
  method CreateProduct(id: ProductId, name: string, price: int, description: string, image: string,
                       category: string, stock: Option<int>, featured: Option<bool>, now: int)
    returns (status: int, p: Product?)
    ensures ParseCategory(category).None? <==> status == SERVER_ERROR
    ensures status == SERVER_ERROR <==> p == null
    ensures status != SERVER_ERROR ==> status == CREATED
    ensures p != null ==> fresh(p) && p.Valid() && p.id == id && p.createdAt == now
    ensures p != null ==> p.Fields() == Editable(name, price, description, [], ParseCategory(category).value,
                                                 if stock.Some? then stock.value else 40,
                                                 featured.Some? && featured.value)
    ensures p != null ==> p.image == image && p.reviews == [] && p.currency == "PKR" && p.brand == "Universal"
  {
    var c := ParseCategory(category);
    if c.None? {
      return SERVER_ERROR, null;
    }
    p := new Product(id, name, price, description, image, c.value, stock, featured, now);
    status := CREATED;
  }

  // ---------------------------------------------------------------------
  // Update
  // ---------------------------------------------------------------------

  /** The body of `updateProduct`. Missing strings are "", missing numbers
      0; `images` and `featured` distinguish a missing value. */
  datatype ProductUpdate = ProductUpdate(
    name: string,
    price: int,
    description: string,
    images: Option<seq<string>>,
    category: string,
    stock: int,
    featured: Option<bool>)

  /** The editable fields after an update: name, price, description,
      category and stock keep their old value when the new one is falsy (an
      empty array of images is not falsy and does overwrite); `featured` is
      overwritten whenever it is sent. A category outside the enum fails the
      save (500). */
  function Merge(prev: Editable, u: ProductUpdate): (r: Result<Editable>)
    ensures r.Err? <==> u.category != "" && ParseCategory(u.category).None?
    ensures r.Err? ==> r.code == SERVER_ERROR
    ensures r.Ok? ==> r.value.name == (if u.name != "" then u.name else prev.name)
    ensures r.Ok? ==> r.value.price == (if u.price != 0 then u.price else prev.price)
    ensures r.Ok? ==> r.value.description == (if u.description != "" then u.description else prev.description)
    ensures r.Ok? ==> r.value.images == (if u.images.Some? then u.images.value else prev.images)
    ensures r.Ok? && u.category != "" ==> Some(r.value.category) == ParseCategory(u.category)
    ensures r.Ok? && u.category == "" ==> r.value.category == prev.category
    ensures r.Ok? ==> r.value.stock == (if u.stock != 0 then u.stock else prev.stock)
    ensures r.Ok? ==> r.value.featured == (if u.featured.Some? then u.featured.value else prev.featured)
  {
    var category := if u.category == "" then Some(prev.category) else ParseCategory(u.category);
    if category.None? then Err(SERVER_ERROR)
    else
      Ok(Editable(
        if u.name != "" then u.name else prev.name,
        if u.price != 0 then u.price else prev.price,
        if u.description != "" then u.description else prev.description,
        if u.images.Some? then u.images.value else prev.images,
        category.value,
        if u.stock != 0 then u.stock else prev.stock,
        if u.featured.Some? then u.featured.value else prev.featured))
  }

  const EMPTY_UPDATE := ProductUpdate("", 0, "", None, "", 0, None)

  /** An update that sends nothing changes nothing. */
  lemma MergeNothing(prev: Editable)
    ensures Merge(prev, EMPTY_UPDATE) == Ok(prev)
  {
  }

  /** A price or stock of 0 can never be set: after an update it is 0 only
      if it was 0 before. */
  lemma ZeroCannotBeSet(prev: Editable, u: ProductUpdate)
    requires Merge(prev, u).Ok?
    ensures Merge(prev, u).value.price == 0 <==> u.price == 0 && prev.price == 0
    ensures Merge(prev, u).value.stock == 0 <==> u.stock == 0 && prev.stock == 0
  {
  }

  /** `featured` can be switched off. */
  lemma FeaturedCanBeCleared(prev: Editable, u: ProductUpdate)
    requires u.featured == Some(false) && Merge(prev, u).Ok?
    ensures !Merge(prev, u).value.featured
  {
  }

  /** Sending the same update twice has the effect of sending it once. */
  lemma MergeIdempotent(prev: Editable, u: ProductUpdate)
    requires Merge(prev, u).Ok?
    ensures Merge(Merge(prev, u).value, u) == Merge(prev, u)
  {
  }

  /** `updateProduct`: a malformed id fails the cast in the lookup (500);
      404 for an unknown product; 500 and nothing saved for a category
      outside the enum; otherwise the merged fields are saved. */
  method UpdateProduct(id: string, found: Product?, u: ProductUpdate) returns (status: int)
    modifies found
    ensures !IsValidObjectId(id) ==> status == SERVER_ERROR
    ensures IsValidObjectId(id) && found == null ==> status == NOT_FOUND
    ensures found != null && !IsValidObjectId(id) ==> found.Fields() == old(found.Fields())
    ensures found != null && IsValidObjectId(id) ==> (
      var m := Merge(old(found.Fields()), u);
      (m.Err? ==> status == SERVER_ERROR && found.Fields() == old(found.Fields())) &&
      (m.Ok? ==> status == OK && found.Fields() == m.value))
    ensures found != null ==> found.reviews == old(found.reviews)
    ensures found != null ==> found.UneditedFields() == old(found.UneditedFields())
  {
    if !IsValidObjectId(id) {
      return SERVER_ERROR;
    }
    if found == null {
      return NOT_FOUND;
    }
    var m := Merge(found.Fields(), u);
    if m.Err? {
      return m.code;
    }
    found.SetFields(m.value);
    return OK;
  }

  // ---------------------------------------------------------------------
  // Reviews
  // ---------------------------------------------------------------------

  /** The review `createProductReview` builds. `Number(rating)` is `None`
      when the rating is missing or not a number. */
  function NewReview(reviewId: string, author: string, rating: Option<int>, comment: string, now: int): (r: Option<Review>)
    ensures r.Some? <==> rating.Some?
    ensures r.Some? ==> r.value.author == author && r.value.review == comment && r.value.date == now
  {
    if rating.None? then None else Some(Review(reviewId, author, rating.value, comment, now))
  }

  /** `createProductReview`: 400 for a malformed id before the lookup, 404
      for an unknown product, 500 with nothing saved when the review breaks
      the schema (no author, no text, a rating missing or outside 1..5),
      otherwise 201 and exactly that review appended. */
  method CreateProductReview(id: string, found: Product?, author: string, rating: Option<int>,
                             comment: string, reviewId: string, now: int) returns (status: int)
    requires found != null ==> found.Valid()
    modifies found
    ensures !IsValidObjectId(id) ==> status == BAD_REQUEST
    ensures IsValidObjectId(id) && found == null ==> status == NOT_FOUND
    ensures found != null ==> found.Valid() && found.Fields() == old(found.Fields())
    ensures found != null ==> (
      var r := NewReview(reviewId, author, rating, comment, now);
      if IsValidObjectId(id) && r.Some? && ReviewValid(r.value)
      then status == CREATED && found.reviews == old(found.reviews) + [r.value]
      else status != CREATED && found.reviews == old(found.reviews))
    ensures IsValidObjectId(id) && found != null ==> (status == SERVER_ERROR <==> status != CREATED)
    ensures found != null ==> found.UneditedFields() == old(found.UneditedFields())
  {
    if !IsValidObjectId(id) {
      return BAD_REQUEST;
    }
    if found == null {
      return NOT_FOUND;
    }
    var r := NewReview(reviewId, author, rating, comment, now);
    if r.None? || !ReviewValid(r.value) {
      return SERVER_ERROR;
    }
    found.PushReview(r.value);
    return CREATED;
  }

  /** The validation `addReview` makes before its lookup: a rating that is
      present and within 1..5, a comment and an author. */
  predicate AddReviewAccepts(author: string, rating: Option<int>, comment: string) {
    rating.Some? && rating.value != 0 && !(rating.value < 1 || rating.value > 5) && comment != "" && author != ""
  }

  /** The check `addReview` makes is exactly the review schema's. */
  lemma AddReviewCheckIsSchema(reviewId: string, author: string, rating: Option<int>, comment: string, now: int)
    ensures AddReviewAccepts(author, rating, comment) <==>
            NewReview(reviewId, author, rating, comment, now).Some? &&
            ReviewValid(NewReview(reviewId, author, rating, comment, now).value)
  {
  }

  /** `addReview` as written: after its validation (400) and lookup (404)
      it pushes onto `product.ratings`, a field the product schema does not
      have, so the push throws and every request that gets that far ends
      in 500. No route leads to this handler: the product router sends
      `POST /:id/reviews` to `createProductReview` (routes/products.js:22),
      so the defect is in code that is never reached. */
  function AddReviewAsWritten(productExists: bool, author: string, rating: Option<int>, comment: string): (status: int)
    ensures !AddReviewAccepts(author, rating, comment) ==> status == BAD_REQUEST
    ensures AddReviewAccepts(author, rating, comment) && !productExists ==> status == NOT_FOUND
  {
    if !AddReviewAccepts(author, rating, comment) then BAD_REQUEST
    else if !productExists then NOT_FOUND
    else
      // `product.ratings` is undefined: `undefined.push(...)` throws
      SERVER_ERROR
  }

  /** As written, no review is ever added: a valid review for an existing
      product gets 500. */
  lemma AddReviewNeverSucceeds(productExists: bool, author: string, rating: Option<int>, comment: string)
    ensures AddReviewAsWritten(productExists, author, rating, comment) != CREATED
    ensures productExists && AddReviewAccepts(author, rating, comment) ==>
              AddReviewAsWritten(productExists, author, rating, comment) == SERVER_ERROR
  {
  }

  /** `addReview` pushing onto `reviews`, as evidently intended: 400 for a
      rejected review, 404 for an unknown product, otherwise 201 with the
      review appended. The appended review carries the request's `author`,
      which the review schema requires and the as-written object
      `{user, rating, review, date}` lacks; with it, the validation
      guarantees the save succeeds. */
  method AddReview(found: Product?, author: string, rating: Option<int>, comment: string,
                   reviewId: string, now: int) returns (status: int)
    requires found != null ==> found.Valid()
    modifies found
    ensures status == CREATED <==> AddReviewAccepts(author, rating, comment) && found != null
    ensures status != CREATED ==> status == AddReviewAsWritten(found != null, author, rating, comment)
    ensures found != null ==> found.Valid() && found.Fields() == old(found.Fields())
    ensures found != null && status == CREATED ==>
              found.reviews == old(found.reviews) + [Review(reviewId, author, rating.value, comment, now)]
    ensures found != null && status != CREATED ==> found.reviews == old(found.reviews)
    ensures found != null ==> found.UneditedFields() == old(found.UneditedFields())
  {
    if !AddReviewAccepts(author, rating, comment) {
      return BAD_REQUEST;
    }
    if found == null {
      return NOT_FOUND;
    }
    found.PushReview(Review(reviewId, author, rating.value, comment, now));
    return CREATED;
  }
}
