/** The administrator's handlers (controllers/adminController.js): the
    settings update, the product pagination arithmetic, adding and updating
    users, the car-modification status whitelist, review removal and the
    rows of the recent-orders panel. */
module AdminService {
  import opened Wrappers
  import Text
  import opened Common
  import opened Accounts
  import opened OrderModel
  import opened ProductModel
  import opened CarModModel

  // ---------------------------------------------------------------------
  // Settings
  // ---------------------------------------------------------------------

  /** A name or email after the settings update: a given string replaces
      the current value, trimmed, unless it is only whitespace. `None` is a
      missing or non-string value. */
  function Refreshed(current: string, given: Option<string>): (r: string)
    ensures given.Some? && !Text.IsBlank(given.value) ==> r == Text.Trim(given.value) && r != ""
    ensures given.None? || Text.IsBlank(given.value) ==> r == current
  {
    if given.Some? then
      Text.TrimEmptyIffBlank(given.value);
      if Text.Trim(given.value) != "" then Text.Trim(given.value) else current
    else current
  }

  /** A value with no surrounding whitespace keeps that shape through the
      update. */
  lemma RefreshedStaysTrimmed(current: string, given: Option<string>)
    requires Text.Trim(current) == current
    ensures Text.Trim(Refreshed(current, given)) == Refreshed(current, given)
  {
    if given.Some? && !Text.IsBlank(given.value) {
      Text.TrimIdempotent(given.value);
    }
  }

  /** The account fields the settings update may change. */
  datatype Settings = Settings(name: string, email: string, password: string)

  function SettingsOf(u: User): Settings
    reads u
  {
    Settings(u.name, u.email, u.password)
  }

  /** The settings after `updateAdminSettings`: name and email refreshed;
      the password replaced (by its hash) only when both the current and
      the new password are given, and then only if the current one matches
      the stored hash — otherwise 400 and nothing is saved. */
  function SettingsUpdate(current: Settings, name: Option<string>, email: Option<string>,
                          currentPassword: string, newPassword: string,
                          matches: Matcher, hash: Hasher): (r: Result<Settings>)
    ensures r.Err? <==> currentPassword != "" && newPassword != "" && !matches(currentPassword, current.password)
    ensures r.Err? ==> r.code == BAD_REQUEST
    ensures r.Ok? ==> r.value.name == Refreshed(current.name, name) && r.value.email == Refreshed(current.email, email)
    ensures r.Ok? && (currentPassword == "" || newPassword == "") ==> r.value.password == current.password
    ensures r.Ok? && currentPassword != "" && newPassword != "" ==> r.value.password == hash(newPassword)
  {
    if currentPassword != "" && newPassword != "" then
      if !matches(currentPassword, current.password) then Err(BAD_REQUEST)
      else Ok(Settings(Refreshed(current.name, name), Refreshed(current.email, email), hash(newPassword)))
    else Ok(Settings(Refreshed(current.name, name), Refreshed(current.email, email), current.password))
  }

  /** The stored password only ever moves to the hash of the new password,
      and only after the current password was matched. */
  lemma PasswordChangeNeedsMatch(current: Settings, name: Option<string>, email: Option<string>,
                                 currentPassword: string, newPassword: string, matches: Matcher, hash: Hasher)
    requires SettingsUpdate(current, name, email, currentPassword, newPassword, matches, hash).Ok?
    requires SettingsUpdate(current, name, email, currentPassword, newPassword, matches, hash).value.password != current.password
    ensures matches(currentPassword, current.password)
    ensures SettingsUpdate(current, name, email, currentPassword, newPassword, matches, hash).value.password == hash(newPassword)
  {
  }

  /** `updateAdminSettings`: 403 and no change when the caller's account is
      missing or not an administrator; otherwise the settings above. */
  method UpdateAdminSettings(admin: User?, name: Option<string>, email: Option<string>,
                             currentPassword: string, newPassword: string,
                             matches: Matcher, hash: Hasher) returns (status: int)
    modifies admin
    ensures admin == null ==> status == FORBIDDEN
    ensures admin != null && old(admin.role) != "admin" ==> status == FORBIDDEN && SettingsOf(admin) == old(SettingsOf(admin))
    ensures admin != null && old(admin.role) == "admin" ==> (
      var r := SettingsUpdate(old(SettingsOf(admin)), name, email, currentPassword, newPassword, matches, hash);
      (r.Err? ==> status == r.code && SettingsOf(admin) == old(SettingsOf(admin))) &&
      (r.Ok? ==> status == OK && SettingsOf(admin) == r.value))
    ensures admin != null ==> admin.role == old(admin.role) && admin.number == old(admin.number) &&
                              admin.address == old(admin.address) && admin.wishlist == old(admin.wishlist)
  {
    if admin == null || admin.role != "admin" {
      return FORBIDDEN;
    }
    var r := SettingsUpdate(SettingsOf(admin), name, email, currentPassword, newPassword, matches, hash);
    if r.Err? {
      return r.code;
    }
    admin.SetCredentials(r.value.name, r.value.email, r.value.password);
    return OK;
  }

  // ---------------------------------------------------------------------
  // Pagination
  // ---------------------------------------------------------------------

  const PAGE_SIZE := 6

  /** The numbers of a paginated listing. */
  datatype PageInfo = PageInfo(page: int, skip: int, totalPages: int)

  /** `getPaginatedProducts`: the page is the parsed `page` parameter, or 1
      when it is missing, not a number or 0; six per page; the skip is the
      products of the earlier pages; the number of pages is the total over
      six, rounded up. */
  function Paginate(pageParam: string, total: nat): (p: PageInfo)
    ensures p.page == (if Text.ParseInt(pageParam).Some? && Text.ParseInt(pageParam).value != 0
                       then Text.ParseInt(pageParam).value else 1)
    ensures p.page != 0
    ensures p.skip == (p.page - 1) * PAGE_SIZE
    ensures p.totalPages >= 0
    ensures total == 0 ==> p.totalPages == 0
    ensures total > 0 ==> (p.totalPages - 1) * PAGE_SIZE < total <= p.totalPages * PAGE_SIZE
  {
    var parsed := Text.ParseInt(pageParam);
    var page := if parsed.Some? && parsed.value != 0 then parsed.value else 1;
    PageInfo(page, (page - 1) * PAGE_SIZE, (total + PAGE_SIZE - 1) / PAGE_SIZE)
  }

  /** The store's `skip((page - 1) * 6).limit(6)` over the products in
      listing order. */
  function PageOf<T>(items: seq<T>, page: int): (r: seq<T>)
    requires page >= 1
    ensures |r| <= PAGE_SIZE
    ensures (page - 1) * PAGE_SIZE >= |items| ==> r == []
  {
    var start := (page - 1) * PAGE_SIZE;
    if start >= |items| then [] else items[start..if page * PAGE_SIZE <= |items| then page * PAGE_SIZE else |items|]
  }

  /** Pages 1 to n, one after the other. */
  function FirstPages<T>(items: seq<T>, n: nat): seq<T> {
    if n == 0 then [] else FirstPages(items, n - 1) + PageOf(items, n)
  }

  lemma {:induction false} FirstPagesPrefix<T>(items: seq<T>, n: nat)
    ensures FirstPages(items, n) == items[..if n * PAGE_SIZE <= |items| then n * PAGE_SIZE else |items|]
  {
    if n > 0 {
      FirstPagesPrefix(items, n - 1);
    }
  }

  /** Reading pages 1 to `totalPages` returns every product once, in order;
      every later page is empty. */
  lemma PagesCoverAll<T>(items: seq<T>, pageParam: string, page: int)
    requires page >= 1
    ensures var p := Paginate(pageParam, |items|);
            FirstPages(items, p.totalPages) == items &&
            (page > p.totalPages ==> PageOf(items, page) == [])
  {
    var p := Paginate(pageParam, |items|);
    FirstPagesPrefix(items, p.totalPages);
  }

  // ---------------------------------------------------------------------
  // Adding and updating users
  // ---------------------------------------------------------------------

  /** The role `addUser` stores: lower-cased, and `user` for exactly the
      spellings "customer" and "Customer". */
  function NormaliseRole(role: string): (r: string)
    ensures Text.ToLower(r) == r
    ensures role == "customer" || role == "Customer" ==> r == "user"
    ensures role != "customer" && role != "Customer" ==> r == Text.ToLower(role)
  {
    if role == "customer" || role == "Customer" then "user" else Text.ToLower(role)
  }

  /** Other spellings of "customer" are only lower-cased, so normalising
      twice is not normalising once. */
  lemma UpperCaseCustomerStaysCustomer()
    ensures NormaliseRole("CUSTOMER") == "customer"
    ensures NormaliseRole(NormaliseRole("CUSTOMER")) == "user"
  {
    assert Text.ToLower("CUSTOMER") == "customer";
  }

  /** The body of `addUser`; `role` is `None` when it is missing. */
  datatype NewUserInput = NewUserInput(name: string, email: string, role: Option<string>, password: string)

  predicate InputComplete(u: NewUserInput) {
    u.name != "" && u.email != "" && u.role.Some? && u.role.value != "" && u.password != ""
  }

  /** `addUser` as written: the role is lower-cased before the fields are
      checked, so a missing role throws (500) instead of getting the
      missing-field answer; then 400 for a missing field, 409 for an email
      already registered, otherwise the normalised role is stored. */
  function AddUserAsWritten(u: NewUserInput, emailTaken: bool): (r: Result<string>)
    ensures u.role.None? ==> r == Err(SERVER_ERROR)
  {
    if u.role.None? then Err(SERVER_ERROR)
    else if !InputComplete(u) then Err(BAD_REQUEST)
    else if emailTaken then Err(CONFLICT)
    else Ok(NormaliseRole(u.role.value))
  }

  /** `addUser` checking its fields first, as its 400 answer intends: any
      missing field (the role included) is 400, a registered email 409, and
      otherwise the normalised role is stored. */
  function AddUserCheck(u: NewUserInput, emailTaken: bool): (r: Result<string>)
    ensures r == Err(BAD_REQUEST) <==> !InputComplete(u)
    ensures r == Err(CONFLICT) <==> InputComplete(u) && emailTaken
    ensures r.Ok? <==> InputComplete(u) && !emailTaken
    ensures r.Ok? ==> r.value == NormaliseRole(u.role.value)
  {
    if !InputComplete(u) then Err(BAD_REQUEST)
    else if emailTaken then Err(CONFLICT)
    else Ok(NormaliseRole(u.role.value))
  }

  /** The two agree whenever a role is sent; without one the code as
      written answers 500 where the check answers 400. */
  lemma AddUserMissingRole(u: NewUserInput, emailTaken: bool)
    ensures u.role.Some? ==> AddUserAsWritten(u, emailTaken) == AddUserCheck(u, emailTaken)
    ensures u.role.None? ==> AddUserAsWritten(u, emailTaken) == Err(SERVER_ERROR) &&
                             AddUserCheck(u, emailTaken) == Err(BAD_REQUEST)
  {
  }

  /** `addUser` with its fields checked first: the new account stores the
      hash of the password and the normalised role (201). */
  method AddUser(id: UserId, u: NewUserInput, emailTaken: bool, hash: Hasher)
    returns (status: int, user: User?)
    ensures var r := AddUserCheck(u, emailTaken);
            (r.Err? ==> status == r.code && user == null) &&
            (r.Ok? ==> status == CREATED && user != null && fresh(user) &&
                       user.id == id && user.name == u.name && user.email == u.email &&
                       user.role == r.value && user.password == hash(u.password))
  {
    var r := AddUserCheck(u, emailTaken);
    if r.Err? {
      return r.code, null;
    }
    user := new User(id, u.name, u.email, r.value, hash(u.password));
    status := CREATED;
  }

  /** The update document of `updateUser`: only the fields sent non-empty,
      the password as its hash. */
  function UserUpdate(name: string, email: string, role: string, password: string, hash: Hasher): (m: map<string, string>)
    ensures m.Keys <= {"name", "email", "role", "password"}
    ensures ("name" in m <==> name != "") && ("name" in m ==> m["name"] == name)
    ensures ("email" in m <==> email != "") && ("email" in m ==> m["email"] == email)
    ensures ("role" in m <==> role != "") && ("role" in m ==> m["role"] == role)
    ensures ("password" in m <==> password != "") && ("password" in m ==> m["password"] == hash(password))
  {
    var m0: map<string, string> := map[];
    var m1 := if name != "" then m0["name" := name] else m0;
    var m2 := if email != "" then m1["email" := email] else m1;
    var m3 := if role != "" then m2["role" := role] else m2;
    if password != "" then m3["password" := hash(password)] else m3
  }

  function Pick(m: map<string, string>, key: string, current: string): string {
    if key in m then m[key] else current
  }

  /** `updateUser`: a malformed id fails the cast (400), an unknown user is
      404; otherwise exactly the fields of the update document change. */
  method UpdateUser(userId: string, found: User?, name: string, email: string, role: string,
                    password: string, hash: Hasher) returns (status: int)
    modifies found
    ensures !IsValidObjectId(userId) ==> status == BAD_REQUEST
    ensures IsValidObjectId(userId) && found == null ==> status == NOT_FOUND
    ensures found != null ==> (
      var m := UserUpdate(name, email, role, password, hash);
      if IsValidObjectId(userId) then
        status == OK &&
        found.name == Pick(m, "name", old(found.name)) && found.email == Pick(m, "email", old(found.email)) &&
        found.role == Pick(m, "role", old(found.role)) && found.password == Pick(m, "password", old(found.password))
      else
        found.name == old(found.name) && found.email == old(found.email) &&
        found.role == old(found.role) && found.password == old(found.password))
    ensures found != null ==> found.number == old(found.number) && found.address == old(found.address) &&
                              found.wishlist == old(found.wishlist)
  {
    if !IsValidObjectId(userId) {
      return BAD_REQUEST;
    }
    if found == null {
      return NOT_FOUND;
    }
    var m := UserUpdate(name, email, role, password, hash);
    found.name := Pick(m, "name", found.name);
    found.email := Pick(m, "email", found.email);
    found.role := Pick(m, "role", found.role);
    found.password := Pick(m, "password", found.password);
    return OK;
  }

  // ---------------------------------------------------------------------
  // Car-modification status
  // ---------------------------------------------------------------------

  /** The statuses `updateCarModRequestStatus` accepts. */
  const VALID_STATUSES: seq<string> := ["pending", "reviewed", "accepted", "rejected"]

  /** The handler's whitelist is exactly the schema's enum. */
  lemma WhitelistIsEnum(status: string)
    ensures status in VALID_STATUSES <==> ParseCarModStatus(status).Some?
  {
    assert status in VALID_STATUSES <==>
      status == "pending" || status == "reviewed" || status == "accepted" || status == "rejected";
  }

  /** `updateCarModRequestStatus`: a status outside the whitelist is 400
      before the lookup, a malformed id fails the cast (500), an unknown
      request is 404; otherwise the status is set. */
  method UpdateCarModStatus(id: string, status: string, found: CarModRequest?) returns (code: int)
    modifies found
    ensures status !in VALID_STATUSES ==> code == BAD_REQUEST
    ensures status in VALID_STATUSES && !IsValidObjectId(id) ==> code == SERVER_ERROR
    ensures status in VALID_STATUSES && IsValidObjectId(id) && found == null ==> code == NOT_FOUND
    ensures found != null ==> (
      if status in VALID_STATUSES && IsValidObjectId(id)
      then code == OK && Some(found.status) == ParseCarModStatus(status)
      else found.status == old(found.status))
  {
    if status !in VALID_STATUSES {
      return BAD_REQUEST;
    }
    if !IsValidObjectId(id) {
      return SERVER_ERROR;
    }
    if found == null {
      return NOT_FOUND;
    }
    WhitelistIsEnum(status);
    found.SetStatus(ParseCarModStatus(status).value);
    return OK;
  }

  // ---------------------------------------------------------------------
  // Review removal
  // ---------------------------------------------------------------------

  /** The reviews whose id differs from `id`, in their order. */
  function DropReview(reviews: seq<Review>, id: string): (r: seq<Review>)
    ensures |r| <= |reviews|
    ensures forall x :: x in r <==> x in reviews && x.id != id
    ensures (exists x :: x in reviews && x.id == id) ==> |r| < |reviews|
  {
    if reviews == [] then []
    else if reviews[0].id == id then DropReview(reviews[1..], id)
    else [reviews[0]] + DropReview(reviews[1..], id)
  }

  /** Removal keeps the order of what it keeps: it works piece by piece. */
  lemma {:induction false} DropReviewAppend(a: seq<Review>, b: seq<Review>, id: string)
    ensures DropReview(a + b, id) == DropReview(a, id) + DropReview(b, id)
  {
    if a != [] {
      assert (a + b)[1..] == a[1..] + b;
      DropReviewAppend(a[1..], b, id);
    } else {
      assert a + b == b;
    }
  }

  /** Removing an id no review has changes nothing. */
  lemma {:induction false} DropReviewAbsent(reviews: seq<Review>, id: string)
    requires forall x :: x in reviews ==> x.id != id
    ensures DropReview(reviews, id) == reviews
  {
    if reviews != [] {
      DropReviewAbsent(reviews[1..], id);
    }
  }

  /** `deleteReview` as written. The lookup casts the id, so it finds the
      product holding the review whatever the case of the hexadecimal
      digits; the filter then compares the printed, lower-case ids with the
      id as sent. A malformed id fails the cast (500); no product is 404. */
  function DeleteReviewAsWritten(id: string, reviews: Option<seq<Review>>): (r: Result<seq<Review>>)
    ensures r.Err? <==> !IsValidObjectId(id) || reviews.None?
    ensures !IsValidObjectId(id) ==> r == Err(SERVER_ERROR)
    ensures IsValidObjectId(id) && reviews.None? ==> r == Err(NOT_FOUND)
    ensures r.Ok? ==> r.value == DropReview(reviews.value, id) && |r.value| <= |reviews.value|
  {
    if !IsValidObjectId(id) then Err(SERVER_ERROR)
    else if reviews.None? then Err(NOT_FOUND)
    else Ok(DropReview(reviews.value, id))
  }

  /** An id sent in upper case: the store finds the product holding the
      review, the handler answers 200, and the review is still there. */
  lemma UpperCaseIdDeletesNothing()
    ensures var stored := seq(24, _ => 'a');
            var sent := seq(24, _ => 'A');
            var reviews := [Review(stored, "Ann", 5, "Great", 0)];
            IsValidObjectId(sent) && CanonicalId(sent) == stored &&
            DeleteReviewAsWritten(sent, Some(reviews)) == Ok(reviews)
  {
    var stored := seq(24, _ => 'a');
    var sent := seq(24, _ => 'A');
    assert Text.IsHexDigit('A');
    assert CanonicalId(sent) == stored;
    assert sent != stored by { assert sent[0] != stored[0]; }
    DropReviewAbsent([Review(stored, "Ann", 5, "Great", 0)], sent);
  }

  /** `deleteReview` comparing ids in their printed form, as the lookup
      does: a malformed id is 500, no product holding the review is 404;
      otherwise that review is removed (there is one fewer at least), every
      other review stays in order, and the answer is 200. */
  method DeleteReview(id: string, found: Product?) returns (status: int)
    requires found != null ==> found.Valid() && exists x :: x in found.reviews && x.id == CanonicalId(id)
    modifies found
    ensures !IsValidObjectId(id) ==> status == SERVER_ERROR
    ensures IsValidObjectId(id) && found == null ==> status == NOT_FOUND
    ensures found != null && !IsValidObjectId(id) ==> found.reviews == old(found.reviews)
    ensures found != null && IsValidObjectId(id) ==>
              status == OK && found.Valid() &&
              found.reviews == DropReview(old(found.reviews), CanonicalId(id)) &&
              |found.reviews| < |old(found.reviews)|
    ensures found != null ==> found.Fields() == old(found.Fields())
    ensures found != null ==> found.UneditedFields() == old(found.UneditedFields())
  {
    if !IsValidObjectId(id) {
      return SERVER_ERROR;
    }
    if found == null {
      return NOT_FOUND;
    }
    found.SetReviews(DropReview(found.reviews, CanonicalId(id)));
    return OK;
  }

  // ---------------------------------------------------------------------
  // Recent orders
  // ---------------------------------------------------------------------

  /** The stored text of an order status. */
  function StatusText(s: OrderStatus): (t: string)
    ensures t in {"pending", "processing", "shipped", "delivered", "cancelled"}
  {
    match s
    case Pending => "pending"
    case Processing => "processing"
    case Shipped => "shipped"
    case Delivered => "delivered"
    case Cancelled => "cancelled"
  }

  /** One row of the dashboard's recent orders. */
  datatype OrderRow = OrderRow(id: string, customer: string, amount: int, status: string)

  /** The row for an order: the customer's name, or "Unknown" when the user
      is gone or has no name; the total as the amount; the status as stored,
      or "Pending" when none is stored. `status` is the stored text, "" when
      it is null or missing: `updateOrderStatus` writes the request's status
      without running validators, so it may be empty or outside the schema's
      names. The total is a number the pre-save hook always sets, so its
      `|| 0` fallback never applies. */
  function RecentOrderRow(id: string, customerName: Option<string>, totalPrice: int, status: string): (row: OrderRow)
    ensures row.id == id && row.amount == totalPrice
    ensures customerName.Some? && customerName.value != "" ==> row.customer == customerName.value
    ensures customerName.None? || customerName.value == "" ==> row.customer == "Unknown"
    ensures status != "" ==> row.status == status
    ensures status == "" ==> row.status == "Pending"
  {
    var customer := if customerName.Some? && customerName.value != "" then customerName.value else "Unknown";
    OrderRow(id, customer, totalPrice, if status != "" then status else "Pending")
  }

  /** A status written through the schema shows as its own name, never as
      the "Pending" fallback. */
  lemma SchemaStatusShown(id: string, customerName: Option<string>, totalPrice: int, s: OrderStatus)
    ensures RecentOrderRow(id, customerName, totalPrice, StatusText(s)).status == StatusText(s)
    ensures RecentOrderRow(id, customerName, totalPrice, StatusText(s)).status != "Pending"
  {
  }
}
