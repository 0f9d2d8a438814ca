/** The account handlers of controllers/userController.js: the profile
    update, the password change, and the wishlist kept as a set of product
    ids. The user lookup is a parameter (null when there is no such user). */
module UserService {
  import opened Wrappers
  import opened Common
  import opened Accounts

  // ---------------------------------------------------------------------
  // Profile

  /** A request body value as the handler sees it. */
  datatype Value = Undefined | Null | Str(s: string) | Obj(fields: map<string, string>)

  /** The values the handler drops from the update: undefined, null and "". */
  predicate IsEmptyValue(v: Value) {
    v == Undefined || v == Null || v == Str("")
  }

  /** The keys of the update object, in the order `Object.keys` lists them. */
  const PROFILE_KEYS: seq<string> := ["name", "email", "number", "address"]

  /** The update object built from the request: exactly the four profile
      fields, whatever else the body holds. */
  function ProfileUpdates(name: Value, email: Value, number: Value, address: Value): (m: map<string, Value>)
    ensures m.Keys == {"name", "email", "number", "address"}
  {
    map["name" := name, "email" := email, "number" := number, "address" := address]
  }

  /** The loop that deletes every empty entry of the update object, walking
      its keys in order. */
  method StripEmpty(updates: map<string, Value>, keys: seq<string>) returns (kept: map<string, Value>)
    requires forall k :: k in updates ==> k in keys
    ensures kept.Keys <= updates.Keys
    ensures forall k :: k in kept ==> kept[k] == updates[k] && !IsEmptyValue(kept[k])
    ensures forall k :: k in updates && !IsEmptyValue(updates[k]) ==> k in kept
  {
    kept := updates;
    var i := 0;
    while i < |keys|
      invariant 0 <= i <= |keys|
      invariant kept.Keys <= updates.Keys
      invariant forall k :: k in kept ==> kept[k] == updates[k]
      invariant forall k :: k in updates && !IsEmptyValue(updates[k]) ==> k in kept
      invariant forall j :: 0 <= j < i && keys[j] in kept ==> !IsEmptyValue(kept[keys[j]])
    {
      var key := keys[i];
      if key in kept && IsEmptyValue(kept[key]) {
        kept := kept - {key};
      }
      i := i + 1;
    }
  }

  /** Whether each kept value has the kind its field stores: text for
      name, email and number, an object for the address. A value of another
      kind fails the cast, before any user is looked up. */
  predicate KindsFit(kept: map<string, Value>) {
    && (forall k :: k in kept && k != "address" ==> kept[k].Str?)
    && ("address" in kept ==> kept["address"].Obj?)
  }

  /** Whether every value sent for a profile field is empty or of the kind
      the field stores. */
  predicate ProfileFits(name: Value, email: Value, number: Value, address: Value) {
    && (IsEmptyValue(name) || name.Str?)
    && (IsEmptyValue(email) || email.Str?)
    && (IsEmptyValue(number) || number.Str?)
    && (IsEmptyValue(address) || address.Obj?)
  }

  /** What the stripped update object holds: each profile field sent
      non-empty, with its value, and nothing else. */
  lemma KeptProfile(name: Value, email: Value, number: Value, address: Value, kept: map<string, Value>)
    requires kept.Keys <= ProfileUpdates(name, email, number, address).Keys
    requires forall k :: k in kept ==>
               kept[k] == ProfileUpdates(name, email, number, address)[k] && !IsEmptyValue(kept[k])
    requires forall k :: (k in ProfileUpdates(name, email, number, address) &&
                          !IsEmptyValue(ProfileUpdates(name, email, number, address)[k])) ==> k in kept
    ensures "name" in kept <==> !IsEmptyValue(name)
    ensures "email" in kept <==> !IsEmptyValue(email)
    ensures "number" in kept <==> !IsEmptyValue(number)
    ensures "address" in kept <==> !IsEmptyValue(address)
    ensures "name" in kept ==> kept["name"] == name
    ensures "email" in kept ==> kept["email"] == email
    ensures "number" in kept ==> kept["number"] == number
    ensures "address" in kept ==> kept["address"] == address
    ensures KindsFit(kept) <==> ProfileFits(name, email, number, address)
  {
    var updates := ProfileUpdates(name, email, number, address);
    assert updates["name"] == name && updates["email"] == email;
    assert updates["number"] == number && updates["address"] == address;
  }

  /** The update object of `updateUserProfile` with its empty values
      stripped. */
  method StripProfile(name: Value, email: Value, number: Value, address: Value) returns (kept: map<string, Value>)
    ensures "name" in kept <==> !IsEmptyValue(name)
    ensures "email" in kept <==> !IsEmptyValue(email)
    ensures "number" in kept <==> !IsEmptyValue(number)
    ensures "address" in kept <==> !IsEmptyValue(address)
    ensures "name" in kept ==> kept["name"] == name
    ensures "email" in kept ==> kept["email"] == email
    ensures "number" in kept ==> kept["number"] == number
    ensures "address" in kept ==> kept["address"] == address
    ensures KindsFit(kept) <==> ProfileFits(name, email, number, address)
  {
    var updates := ProfileUpdates(name, email, number, address);
    kept := StripEmpty(updates, PROFILE_KEYS);
    KeptProfile(name, email, number, address, kept);
  }

  /** `updateUserProfile`: only the four profile fields can change, and a
      field sent empty keeps its value. */
  method UpdateUserProfile(user: User?, name: Value, email: Value, number: Value, address: Value)
    returns (status: int)
    modifies user
    ensures status == SERVER_ERROR <==> !ProfileFits(name, email, number, address)
    ensures status == NOT_FOUND <==> ProfileFits(name, email, number, address) && user == null
    ensures status == OK <==> ProfileFits(name, email, number, address) && user != null
    ensures user != null && status != OK ==>
              user.name == old(user.name) && user.email == old(user.email) &&
              user.number == old(user.number) && user.address == old(user.address)
    ensures user != null && status == OK ==>
              && ProfileFits(name, email, number, address)
              && user.name == (if IsEmptyValue(name) then old(user.name) else name.s)
              && user.email == (if IsEmptyValue(email) then old(user.email) else email.s)
              && user.number == (if IsEmptyValue(number) then old(user.number) else number.s)
              && user.address == (if IsEmptyValue(address) then old(user.address) else address.fields)
    ensures user != null ==>
              user.role == old(user.role) && user.password == old(user.password) &&
              user.wishlist == old(user.wishlist)
  {
    var kept := StripProfile(name, email, number, address);
    if !KindsFit(kept) {
      return SERVER_ERROR;
    }
    if user == null {
      return NOT_FOUND;
    }
    if "name" in kept {
      user.name := kept["name"].s;
    }
    if "email" in kept {
      user.email := kept["email"].s;
    }
    if "number" in kept {
      user.number := kept["number"].s;
    }
    if "address" in kept {
      user.address := kept["address"].fields;
    }
    return OK;
  }

  // ---------------------------------------------------------------------
  // Password

  /** `changePassword`: 400 unless both passwords are given (before any
      lookup), 404 for an unknown user, 401 when the current password does
      not match the stored hash; otherwise the new password is stored. */
  method ChangePassword(user: User?, currentPassword: string, newPassword: string,
                        matches: Matcher, hash: Hasher) returns (status: int)
    modifies user
    ensures status == BAD_REQUEST <==> currentPassword == "" || newPassword == ""
    ensures status == NOT_FOUND <==> currentPassword != "" && newPassword != "" && user == null
    ensures status == UNAUTHORIZED <==>
              currentPassword != "" && newPassword != "" && user != null &&
              !matches(currentPassword, old(user.password))
    ensures status == OK <==>
              currentPassword != "" && newPassword != "" && user != null &&
              matches(currentPassword, old(user.password))
    ensures user != null ==> user.password == (if status == OK then hash(newPassword) else old(user.password))
    ensures user != null ==>
              user.name == old(user.name) && user.email == old(user.email) && user.role == old(user.role)
    ensures user != null ==>
              user.number == old(user.number) && user.address == old(user.address) &&
              user.wishlist == old(user.wishlist)
  {
    if currentPassword == "" || newPassword == "" {
      return BAD_REQUEST;
    }
    if user == null {
      return NOT_FOUND;
    }
    if !matches(currentPassword, user.password) {
      return UNAUTHORIZED;
    }
    user.SetPassword(newPassword, hash);
    return OK;
  }

  // ---------------------------------------------------------------------
  // Wishlist

  /** `$addToSet`: append the id unless it is already there. */
  function AddToSet(list: seq<ProductId>, id: ProductId): (r: seq<ProductId>)
    ensures id in r
    ensures forall x :: x in r <==> x in list || x == id
    ensures list <= r
  {
    if id in list then list else list + [id]
  }

  /** `$pull`: drop every occurrence of the id, keeping the rest in order. */
  function Pull(list: seq<ProductId>, id: ProductId): (r: seq<ProductId>)
    ensures id !in r
    ensures forall x :: x in r <==> x in list && x != id
    ensures |r| <= |list|
  {
    if list == [] then []
    else if list[0] == id then Pull(list[1..], id)
    else [list[0]] + Pull(list[1..], id)
  }

  /** A set insert never creates a duplicate, and inserting twice is
      inserting once. */
  lemma AddToSetKeepsSet(list: seq<ProductId>, id: ProductId)
    requires NoDuplicates(list)
    ensures NoDuplicates(AddToSet(list, id))
    ensures AddToSet(AddToSet(list, id), id) == AddToSet(list, id)
  {
  }

  /** Pulling an absent id changes nothing. */
  lemma {:induction false} PullAbsent(list: seq<ProductId>, id: ProductId)
    requires id !in list
    ensures Pull(list, id) == list
  {
    if list != [] {
      PullAbsent(list[1..], id);
    }
  }

  /** The pull works element by element: pulling from a concatenation is
      concatenating the pulled parts, so the kept ids stay in order. */
  lemma {:induction false} PullAppend(a: seq<ProductId>, b: seq<ProductId>, id: ProductId)
    ensures Pull(a + b, id) == Pull(a, id) + Pull(b, id)
  {
    if a == [] {
      assert a + b == b;
    } else {
      assert (a + b)[1..] == a[1..] + b;
      PullAppend(a[1..], b, id);
    }
  }

  /** Adding an id and then removing it leaves the list as the remove alone
      would, so a list without the id comes back unchanged. */
  lemma AddThenPull(list: seq<ProductId>, id: ProductId)
    ensures Pull(AddToSet(list, id), id) == Pull(list, id)
    ensures id !in list ==> Pull(AddToSet(list, id), id) == list
  {
    if id !in list {
      PullAppend(list, [id], id);
      assert Pull([id], id) == [];
      PullAbsent(list, id);
    }
  }

  /** A pull keeps the list free of duplicates. */
  lemma {:induction false} PullKeepsSet(list: seq<ProductId>, id: ProductId)
    requires NoDuplicates(list)
    ensures NoDuplicates(Pull(list, id))
  {
    if list != [] {
      PullKeepsSet(list[1..], id);
      assert list[0] !in list[1..];
    }
  }

  /** The wishlist ids `populate` returns: the stored ids whose product still
      exists, in stored order. */
  function WishlistIds(list: seq<ProductId>, existing: set<ProductId>): (r: seq<ProductId>)
    ensures forall x :: x in r <==> x in list && x in existing
    ensures |r| <= |list|
  {
    if list == [] then []
    else if list[0] in existing then [list[0]] + WishlistIds(list[1..], existing)
    else WishlistIds(list[1..], existing)
  }

  /** When every stored product exists, the listing is the stored list. */
  lemma {:induction false} WishlistIdsAllExist(list: seq<ProductId>, existing: set<ProductId>)
    requires forall x :: x in list ==> x in existing
    ensures WishlistIds(list, existing) == list
  {
    if list != [] {
      WishlistIdsAllExist(list[1..], existing);
    }
  }

  /** The listing keeps the stored order: it works piece by piece, and a
      single id is listed exactly when its product exists. */
  lemma {:induction false} WishlistIdsAppend(a: seq<ProductId>, b: seq<ProductId>, existing: set<ProductId>)
    ensures WishlistIds(a + b, existing) == WishlistIds(a, existing) + WishlistIds(b, existing)
  {
    if a == [] {
      assert a + b == b;
    } else {
      assert (a + b)[1..] == a[1..] + b;
      WishlistIdsAppend(a[1..], b, existing);
    }
  }

  lemma WishlistIdsSingle(id: ProductId, existing: set<ProductId>)
    ensures WishlistIds([id], existing) == if id in existing then [id] else []
  {
    assert [id][1..] == [];
  }

  /** The outcome of a wishlist request, before the user is looked up: 400
      without a product id or with an action other than add and remove; 500
      when the id does not cast to an ObjectId. */
  function WishlistRequest(productId: string, action: string): (r: Result<bool>)
    ensures r == Err(BAD_REQUEST) <==> productId == "" || (action != "add" && action != "remove")
    ensures r.Ok? <==> productId != "" && (action == "add" || action == "remove") && IsValidObjectId(productId)
    ensures r.Ok? ==> (r.value <==> action == "add")
    ensures r.Err? ==> r.code == BAD_REQUEST || r.code == SERVER_ERROR
  {
    if productId == "" || (action != "add" && action != "remove") then Err(BAD_REQUEST)
    else if !IsValidObjectId(productId) then Err(SERVER_ERROR)
    else Ok(action == "add")
  }

  /** `addToWishlist`: a set insert or a pull of the (canonical) id, then
      the listing of the products that still exist. */
  method UpdateWishlist(user: User?, productId: string, action: string, existing: set<ProductId>)
    returns (r: Result<seq<ProductId>>)
    modifies user
    ensures WishlistRequest(productId, action).Err? ==> r == Err(WishlistRequest(productId, action).code)
    ensures WishlistRequest(productId, action).Ok? && user == null ==> r == Err(NOT_FOUND)
    ensures user != null && r.Ok? ==> r.value == WishlistIds(user.wishlist, existing)
    ensures user != null ==>
              user.wishlist ==
                match WishlistRequest(productId, action)
                case Err(_) => old(user.wishlist)
                case Ok(add) =>
                  if add then AddToSet(old(user.wishlist), CanonicalId(productId))
                  else Pull(old(user.wishlist), CanonicalId(productId))
    ensures user != null && WishlistRequest(productId, action).Ok? ==> r.Ok?
    ensures user != null ==>
              user.name == old(user.name) && user.email == old(user.email) && user.number == old(user.number) &&
              user.address == old(user.address) && user.role == old(user.role) && user.password == old(user.password)
  {
    var request := WishlistRequest(productId, action);
    if request.Err? {
      return Err(request.code);
    }
    if user == null {
      return Err(NOT_FOUND);
    }
    var id := CanonicalId(productId);
    if request.value {
      user.SetWishlist(AddToSet(user.wishlist, id));
    } else {
      user.SetWishlist(Pull(user.wishlist, id));
    }
    return Ok(WishlistIds(user.wishlist, existing));
  }

  /** `removeFromWishlist`: a pull of the id (500 when it does not cast),
      404 for an unknown user. */
  method RemoveFromWishlist(user: User?, productId: string, existing: set<ProductId>)
    returns (r: Result<seq<ProductId>>)
    modifies user
    ensures !IsValidObjectId(productId) ==> r == Err(SERVER_ERROR)
    ensures IsValidObjectId(productId) && user == null ==> r == Err(NOT_FOUND)
    ensures user != null ==>
              user.wishlist ==
                if IsValidObjectId(productId) then Pull(old(user.wishlist), CanonicalId(productId))
                else old(user.wishlist)
    ensures user != null && IsValidObjectId(productId) ==> r == Ok(WishlistIds(user.wishlist, existing))
    ensures user != null ==>
              user.name == old(user.name) && user.email == old(user.email) && user.number == old(user.number) &&
              user.address == old(user.address) && user.role == old(user.role) && user.password == old(user.password)
  {
    if !IsValidObjectId(productId) {
      return Err(SERVER_ERROR);
    }
    if user == null {
      return Err(NOT_FOUND);
    }
    user.SetWishlist(Pull(user.wishlist, CanonicalId(productId)));
    return Ok(WishlistIds(user.wishlist, existing));
  }

  /** `getUserWishlist`: 404 for an unknown user, otherwise the ids of the
      wishlist's existing products as strings, in stored order. */
  function GetUserWishlist(user: User?, existing: set<ProductId>): (r: Result<seq<ProductId>>)
    reads user
    ensures r.Err? <==> user == null
    ensures r.Err? ==> r.code == NOT_FOUND
    ensures r.Ok? ==> forall x :: x in r.value <==> x in user.wishlist && x in existing
    ensures r.Ok? ==> r.value == WishlistIds(user.wishlist, existing)
  {
    if user == null then Err(NOT_FOUND) else Ok(WishlistIds(user.wishlist, existing))
  }
}
