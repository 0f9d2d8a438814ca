/** The product document (models/Product.js): catalogue fields with their
    defaults, the category enum, and the embedded reviews with their bounds. */
module ProductModel {
  import opened Wrappers
  import opened Common

  datatype Category = Exterior | Interior | Performance

  /** The enum check on `category`. */
  function ParseCategory(s: string): (r: Option<Category>)
    ensures r == Some(Exterior) <==> s == "exterior"
    ensures r == Some(Interior) <==> s == "interior"
    ensures r == Some(Performance) <==> s == "performance"
    ensures r.None? <==> s != "exterior" && s != "interior" && s != "performance"
  {
    if s == "exterior" then Some(Exterior)
    else if s == "interior" then Some(Interior)
    else if s == "performance" then Some(Performance)
    else None
  }

  /** An embedded review. `id` is the sub-document id, in its printed
      (lower-case) form. */
  datatype Review = Review(id: string, author: string, rating: int, review: string, date: int)

  /** What the review schema demands: an author and a text, and a rating
      from 1 to 5. */
  predicate ReviewValid(r: Review) {
    r.author != "" && r.review != "" && 1 <= r.rating <= 5
  }

  predicate ReviewsValid(reviews: seq<Review>) {
    forall r | r in reviews :: ReviewValid(r)
  }

  /** The fields `updateProduct` may change, as one value. */
  datatype Editable = Editable(
    name: string,
    price: int,
    description: string,
    images: seq<string>,
    category: Category,
    stock: int,
    featured: bool)

  /** The fields no handler writes after creation, as one value. */
  datatype Unedited = Unedited(
    image: string,
    currency: string,
    quantity: int,
    availability: bool,
    brand: string,
    ratingAverage: int)

  /** A catalogue product. */
  class Product {
    const id: ProductId
    const createdAt: int
    var name: string
    var image: string
    var images: seq<string>
    var description: string
    var price: int
    var currency: string
    var featured: bool
    var reviews: seq<Review>
    var quantity: int
    var availability: bool
    var category: Category
    var stock: int
    var brand: string
    var ratingAverage: int

    function Fields(): Editable
      reads this
    {
      Editable(name, price, description, images, category, stock, featured)
    }

    function UneditedFields(): Unedited
      reads this
    {
      Unedited(image, currency, quantity, availability, brand, ratingAverage)
    }

    ghost predicate Valid()
      reads this
    {
      ReviewsValid(reviews)
    }

    /** `new Product({...})`: what the request leaves unset takes the schema
        defaults — currency PKR, not featured, no reviews, quantity 0,
        available, stock 40, brand Universal, rating average 0. */
    constructor (id: ProductId, name: string, price: int, description: string, image: string,
                 category: Category, stock: Option<int>, featured: Option<bool>, now: int)
      ensures Valid()
      ensures this.id == id && this.name == name && this.price == price
      ensures this.description == description && this.image == image && images == []
      ensures this.category == category && createdAt == now
      ensures this.stock == (if stock.Some? then stock.value else 40)
      ensures this.featured == (featured.Some? && featured.value)
      ensures currency == "PKR" && reviews == [] && quantity == 0 && availability
      ensures brand == "Universal" && ratingAverage == 0
    {
      this.id := id;
      this.createdAt := now;
      this.name := name;
      this.image := image;
      this.images := [];
      this.description := description;
      this.price := price;
      this.currency := "PKR";
      this.featured := featured.Some? && featured.value;
      this.reviews := [];
      this.quantity := 0;
      this.availability := true;
      this.category := category;
      this.stock := if stock.Some? then stock.value else 40;
      this.brand := "Universal";
      this.ratingAverage := 0;
    }

    /** Replaces the editable fields. */
    method SetFields(e: Editable)
      modifies this`name, this`price, this`description, this`images, this`category,
               this`stock, this`featured
      ensures Fields() == e
    {
      name := e.name;
      price := e.price;
      description := e.description;
      images := e.images;
      category := e.category;
      stock := e.stock;
      featured := e.featured;
    }

    /** `reviews.push(review)`. */
    method PushReview(r: Review)
      requires Valid() && ReviewValid(r)
      modifies this`reviews
      ensures Valid()
      ensures reviews == old(reviews) + [r]
    {
      reviews := reviews + [r];
    }

    /** `reviews = reviews.filter(...)`. */
    method SetReviews(rs: seq<Review>)
      requires ReviewsValid(rs)
      modifies this`reviews
      ensures Valid()
      ensures reviews == rs
    {
      reviews := rs;
    }
  }
}
