/** The user account the profile, password, wishlist, one-time-code and
    admin handlers read and update. The user schema itself (models/User.js)
    is not part of this model: the fields below are the ones those handlers
    touch, and `password` holds what the schema's pre-save hook stores,
    written here through an explicit hash function. */
module Accounts {
  import opened Common

  /** The password hash the pre-save hook applies, and the comparison
      `bcrypt.compare` makes between a plain password and a stored hash. */
  type Hasher = string -> string
  type Matcher = (string, string) -> bool

  class User {
    const id: UserId
    var name: string
    var email: string
    var number: string
    var address: map<string, string>
    var role: string
    var password: string
    var wishlist: seq<ProductId>

    constructor (id: UserId, name: string, email: string, role: string, password: string)
      ensures this.id == id && this.name == name && this.email == email
      ensures this.role == role && this.password == password
      ensures number == "" && address == map[] && wishlist == []
    {
      this.id := id;
      this.name := name;
      this.email := email;
      this.number := "";
      this.address := map[];
      this.role := role;
      this.password := password;
      this.wishlist := [];
    }

    /** `user.password = plain; await user.save()`: the hook stores the hash. */
    method SetPassword(plain: string, hash: Hasher)
      modifies this`password
      ensures password == hash(plain)
    {
      password := hash(plain);
    }

    /** The fields an account's settings page writes, saved together. */
    method SetCredentials(name: string, email: string, password: string)
      modifies this`name, this`email, this`password
      ensures this.name == name && this.email == email && this.password == password
    {
      this.name := name;
      this.email := email;
      this.password := password;
    }

    /** A wishlist update (`$addToSet` or `$pull`) touches the wishlist only. */
    method SetWishlist(list: seq<ProductId>)
      modifies this`wishlist
      ensures wishlist == list
    {
      wishlist := list;
    }
  }
}
