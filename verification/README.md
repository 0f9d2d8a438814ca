# ModifyX backend — a Dafny model of its core

ModifyX is the Express/Mongoose backend of a car-accessories shop. Customers
browse products, keep a cart and a wishlist, check out into orders and follow
their tracking. They can also ask for a car-modification package, price a
customised product and chat with the shop. Administrators manage products,
reviews, users, orders and modification requests.

This project models the request handlers and document schemas of that core.
Each handler becomes a Dafny function or method. It receives what the handler
reads from the store (the document it finds, or `null`) and it returns the
HTTP status it answers with. The documents that handlers change in place
(orders, carts, products, user accounts, modification requests, the OTP store)
are classes, and their methods are the handlers' updates. Pure decisions are
functions with contracts and lemmas:

- the order lifecycle and its tracking log;
- cart merging and removal;
- the product update merge;
- wishlist set semantics;
- OTP issue and verify;
- pagination and chat ordering.

Conventions used throughout:

- JavaScript's falsy strings are the empty string; a falsy number is 0.
- A value the request may omit is an `Option`.
- Mongoose's ObjectId cast lower-cases hexadecimal text; `Common.CanonicalId` models it.
- A Mongoose validation or cast failure caught by a handler's generic `catch` is a 500. Two handlers answer 400 from their `catch` instead.
- The clock, random codes, password hashing and comparison, token verification, the store's query engine and the mailer are parameters.

Files:

- `wrappers.dfy`, `text.dfy`, `common.dfy`: shared definitions (Option/Result, the string operations the handlers use, statuses, ids, item types).
- `order_model.dfy`, `order_service.dfy`: the order schema, its lifecycle and the order handlers.
- `cart_model.dfy`, `cart_service.dfy`: the cart document and the cart handlers.
- `accounts.dfy`, `user_service.dfy`, `otp.dfy`: user accounts, profile, password, wishlist and one-time-password reset.
- `product_model.dfy`, `product_service.dfy`: the product schema and the product handlers.
- `carmod_model.dfy`, `carmod_service.dfy`: car-modification requests.
- `admin_service.dfy`: the administrator handlers.
- `customization.dfy`: the pricing of customised products.
- `chat.dfy`: the chat queries.
- `auth.dfy`: the authentication middleware.

## Model

| member | source | states |
|---|---|---|
| Common.ParseItemType | models/Order.js:10-14 | only "standard" and "custom" are item types, each recognised exactly |
| Common.CanonicalId | controllers/cartController.js:18-24 | the ObjectId cast keeps the length of the id text |
| Common.CanonicalIdUnchanged | controllers/cartController.js:18-22 | an id is its own cast exactly when it holds no upper-case letter, so only such ids are found again by the string comparison |
| OrderModel.ItemsTotalAppend | models/Order.js:145-148 | the items total of two lists joined is the sum of their totals |
| OrderModel.ItemsTotalCons | models/Order.js:146 | the items total is the first line's price times quantity plus the rest |
| OrderModel.OrderTotalBounds | models/Order.js:145-148 | with valid items at non-negative prices: no items gives exactly the shipping charges; the total is never below them; any positive price makes it strictly larger |
| OrderModel.DeliveryDays | controllers/orderController.js:162-165 | the estimated-delivery offset is the given day count, or 3 when it is missing or 0; never 0 |
| OrderModel.OrElse | controllers/orderController.js:171 | a non-empty location is kept, an empty one falls back to the default |
| OrderModel.Initial | models/Order.js:87-124 | a new order is pending, undelivered, with no payment, dates, tracking number or tracking events |
| OrderModel.ApplyLog | controllers/orderController.js:64-212 | each step appends exactly one tracking event when it logs (process, ship, deliver, note) and none otherwise (pay), keeping the earlier events |
| OrderModel.RunLog | controllers/orderController.js:64-212 | over any run of steps the log only grows, by exactly the number of logging steps |
| OrderModel.PayTwice | controllers/orderController.js:97-105 | paying twice is paying once with the later result |
| OrderModel.InitialCoherent | models/Order.js:87-124 | a new order's fields agree with its status |
| OrderModel.ApplyCoherent | controllers/orderController.js:64-212 | every admissible step keeps status, flags and dates coherent |
| OrderModel.RunCoherent | controllers/orderController.js:64-212 | coherence holds after any run of admissible steps |
| OrderModel.Order.Create | models/Order.js:1-148 | a saved new order carries the given fields, its total is items plus shipping, and its lifecycle is the initial one |
| OrderModel.Order.Save | models/Order.js:145-148 | the pre-save hook recomputes the total from the items and shipping charges |
| OrderModel.Order.MarkPaid | controllers/orderController.js:97-107 | the order's lifecycle becomes the Pay step's; the total is unchanged |
| OrderModel.Order.MarkProcessing | controllers/orderController.js:124-135 | the lifecycle becomes the Process step's, logging one event |
| OrderModel.Order.MarkShipped | controllers/orderController.js:157-174 | the lifecycle becomes the Ship step's: tracking number, shipped date, estimated delivery, one event |
| OrderModel.Order.MarkDelivered | controllers/orderController.js:68-80 | the lifecycle becomes the Deliver step's, logging one event |
| OrderModel.Order.AddEvent | controllers/orderController.js:191-204 | the lifecycle becomes the Note step's: one event appended, nothing else |
| OrderService.MapItem | controllers/orderController.js:288-299 | a checkout item keeps its type and price; standard items keep the product, custom ones get custom data; quantity 0 becomes 1 |
| OrderService.CastItem | models/Order.js:9-36 | an item casts exactly when the schema accepts it, the product id cast to its canonical form; otherwise 500 |
| OrderService.CastItems | models/Order.js:9-36 | a list casts exactly when every item casts, item by item |
| OrderService.PaymentMethodOf | controllers/orderController.js:315 | "creditCard" maps to credit card, every other value to cash on delivery, never PayPal |
| OrderService.AddressOf | controllers/orderController.js:308-314 | the address keeps street, city and zip; state and country default to "N/A" and "Pakistan" |
| OrderService.BuildOrder | controllers/orderController.js:280-322 | 400 exactly when the body or its items are missing; built exactly when the customer and address are given, every item casts and the candidate order passes the schema, then from the body and paid exactly when paying by credit card; otherwise the cast fails with 500 |
| OrderService.WellFormedBodyBuilds | controllers/orderController.js:280-322 | a body with items that cast, a customer email and phone, and a street and city is always built |
| OrderService.BuiltItems | controllers/orderController.js:288-299 | the k-th stored item comes from the k-th checkout item with its type, price and quantity |
| OrderService.BuiltTotal | controllers/orderController.js:288-322 | the built order's total is the checkout items' price times quantity plus shipping |
| OrderService.Payment | controllers/orderController.js:274-354 | the status follows BuildOrder; a built order is saved with the body's fields and the initial lifecycle; once the gateway opens a session its id is returned and the cart emptied, whatever becomes of the confirmation mail; a gateway failure is 500 with the cart untouched |
| OrderService.ReadOrder | controllers/orderController.js:17-34 | 500 for an id that does not cast; 404 for no order; the order for its owner or an administrator; 401 for anyone else; 500 when the owner is gone |
| OrderService.UpdateOrderToPaid | controllers/orderController.js:93-115 | 500 exactly for an id that does not cast, with the order unchanged; 404 exactly when no order; otherwise the Pay step |
| OrderService.UpdateOrderToProcessing | controllers/orderController.js:120-143 | 500 exactly for an id that does not cast, with the order unchanged; 404 exactly when no order; otherwise the Process step |
| OrderService.UpdateOrderToShipped | controllers/orderController.js:148-182 | 500 for an id that does not cast, 404 without an order, 400 without a tracking number, and nothing changes on either error; otherwise the Ship step |
| OrderService.UpdateOrderToDelivered | controllers/orderController.js:64-88 | 500 exactly for an id that does not cast, with the order unchanged; 404 exactly when no order; otherwise the Deliver step |
| OrderService.AddTrackingEvent | controllers/orderController.js:187-212 | 400 without a description, checked before the lookup; then 500 for an id that does not cast and 404 without an order, with the order unchanged; otherwise one event is appended |
| OrderService.ProjectItem | controllers/orderController.js:230-261 | the tracking view shows a standard item's product summary, or an all-empty summary when its product no longer exists, and a custom item's data, with quantity and price |
| OrderService.TrackOrder | controllers/orderController.js:217-268 | 400 exactly for an id that is not 24 hex digits; 404 when absent; otherwise the order's id, status, flags, email, phone, address, dates, total and tracking events as stored, and its items projected |
| OrderService.TrackRejectsBeforeLookup | controllers/orderController.js:220-223 | a malformed id is rejected whatever the store holds |
| CartModel.QuantityOrDefault | models/Cart.js:13-16 | a missing quantity is stored as 1 |
| CartModel.FindStandard | controllers/cartController.js:18-22 | the first standard line whose product is the given id, or none when there is none |
| CartModel.WithoutProductAppend | controllers/cartController.js:75-77 | filtering out a product distributes over concatenation |
| CartModel.WithoutProductKeeps | controllers/cartController.js:75-77 | the filter drops exactly the lines of that product and keeps the others in order |
| CartModel.Cart.constructor | controllers/cartController.js:11-12 | a new cart belongs to the user and is empty |
| CartModel.Cart.AddQuantity | controllers/cartController.js:23 | one line's quantity grows by the amount; the other lines are unchanged |
| CartModel.Cart.Append | controllers/cartController.js:24-29 | a line is appended at the end |
| CartModel.Cart.RemoveAt | controllers/cartController.js:71 | the line at the index is cut out |
| CartModel.Cart.RemoveProduct | controllers/cartController.js:75-77 | the product's lines are filtered out |
| CartModel.Cart.Clear | controllers/cartController.js:96 | the cart becomes empty |
| CartService.AddOutcome | controllers/cartController.js:14-34 | 400 for an item type other than standard or custom, and for a standard item whose id does not cast; a custom item is 400 exactly when its name or price is missing, and otherwise appended as a custom line with its data and the quantity (1 when absent); 500 exactly when an absent quantity is added to an existing line; on success the list grows by one line or keeps its length |
| CartService.AddToCart | controllers/cartController.js:4-40 | the cart found, or a fresh one, ends with AddOutcome's list; a failure leaves an existing cart unchanged |
| CartService.AddNewStandard | controllers/cartController.js:18-24 | a product not in the cart is appended as one standard line |
| CartService.AddExistingStandard | controllers/cartController.js:18-23 | a product already in the cart has its first line's quantity increased; nothing else changes |
| CartService.AddStandardTwiceMerges | controllers/cartController.js:18-24 | adding the same lower-case id twice gives one line with the summed quantity |
| CartService.AddUpperCaseIdTwiceAppends | controllers/cartController.js:18-24 | adding an id with upper-case letters twice gives two lines, because the comparison uses the stored lower-case form |
| CartService.RemoveOutcome | controllers/cartController.js:67-78 | removal never grows the cart; a "custom-" id removes exactly the indexed line when it is in range and nothing otherwise; any other id is the filter of that product, after which no line for it remains |
| CartService.WithoutProductShrinks | controllers/cartController.js:75-77 | the filter never grows the cart |
| CartService.RemoveCustomAt | controllers/cartController.js:68-72 | "custom-n" with n in range removes exactly line n |
| CartService.RemoveCustomHex | controllers/cartController.js:68-72 | `parseInt` reads "custom-0x1" in hexadecimal and removes line 1; "custom-0x" is NaN and removes nothing |
| CartService.SecondFieldOfCustomId | controllers/cartController.js:69 | splitting "custom-n" on "-" yields the digits of n as second field |
| CartService.AddThenRemoveStandard | controllers/cartController.js:14-24 | adding a new product and removing it by id restores the cart |
| CartService.AddThenRemoveCustom | controllers/cartController.js:25-29 | adding a custom line and removing "custom-" plus its index restores the cart |
| CartService.RemoveFromCart | controllers/cartController.js:58-86 | 404 exactly without a cart; otherwise the cart becomes RemoveOutcome's list and is returned |
| CartService.ClearCart | controllers/cartController.js:90-103 | 404 exactly without a cart; otherwise 200 with an empty cart |
| Accounts.User.SetCredentials | controllers/adminController.js:26-43 | name, email and password take the given values and no other field of the account changes |
| Accounts.User.SetPassword | controllers/userController.js:88-89 | the stored password is the hash of the new one |
| UserService.ProfileUpdates | controllers/userController.js:26-31 | the update object names exactly name, email, number and address |
| UserService.StripEmpty | controllers/userController.js:34-42 | the loop keeps exactly the fields whose values are not empty, unchanged |
| UserService.KeptProfile | controllers/userController.js:26-42 | each profile field is updated exactly when it is not empty, to the given value; the result fits the schema exactly when the inputs do |
| UserService.UpdateUserProfile | controllers/userController.js:22-66 | 500 for values the schema rejects, 404 without a user; otherwise only the non-empty fields change, and the password, role and wishlist never do |
| UserService.ChangePassword | controllers/userController.js:70-97 | 400 without both passwords, 404 without a user, 401 when the current one does not match; the password changes to the new hash only on 200; no other field changes |
| UserService.AddToSet | controllers/userController.js:124 | the id is in the result, which holds exactly the old ids and it, the old list as a prefix |
| UserService.Pull | controllers/userController.js:125 | the result holds exactly the old ids other than the one removed |
| UserService.AddToSetKeepsSet | controllers/userController.js:122-124 | adding keeps a list free of duplicates, and adding twice is adding once |
| UserService.PullAbsent | controllers/userController.js:125 | removing an absent id changes nothing |
| UserService.PullAppend | controllers/userController.js:125 | removal distributes over concatenation |
| UserService.AddThenPull | controllers/userController.js:122-125 | add then remove equals remove; for an id not in the list, it restores the list |
| UserService.PullKeepsSet | controllers/userController.js:125 | removal keeps a list free of duplicates |
| UserService.WishlistIds | controllers/userController.js:148 | the populated wishlist shows exactly the listed ids whose products still exist |
| UserService.WishlistIdsAllExist | controllers/userController.js:148 | when every listed product exists, the whole list is shown |
| UserService.WishlistIdsAppend | controllers/userController.js:148 | the shown list keeps the stored order: the listing of two pieces is the two listings one after the other |
| UserService.WishlistIdsSingle | controllers/userController.js:148 | a single stored id is shown exactly when its product exists |
| UserService.WishlistRequest | controllers/userController.js:116-125 | 400 for a missing id or an action other than add/remove; 500 for an id that does not cast; otherwise add or remove |
| UserService.UpdateWishlist | controllers/userController.js:114-140 | an accepted request on an existing user adds or removes the id and returns the populated list; a rejected one changes nothing; no field but the wishlist changes |
| UserService.RemoveFromWishlist | controllers/userController.js:157-174 | 500 for an id that does not cast, 404 without a user; otherwise the id is pulled and the populated list returned; no field but the wishlist changes |
| UserService.GetUserWishlist | controllers/userController.js:144-153 | 404 exactly without a user; otherwise the listed ids whose products exist, in stored order (WishlistIds, whose order WishlistIdsAppend and WishlistIdsSingle fix) |
| Otp.Issue | controllers/otpController.js:30-34 | the email gets the code's text and an expiry five minutes on; every other entry is kept |
| Otp.CodeText | controllers/otpController.js:30 | a code drawn from the range is six digits and reads back as itself |
| Otp.ReissueOverwrites | controllers/otpController.js:31-34 | a second code for the same email replaces the first |
| Otp.Verify | controllers/otpController.js:79-94 | unknown email fails and nothing changes; the entry stays only when the code is wrong; other emails are untouched |
| Otp.VerifyStatus | controllers/otpController.js:83-93 | only a verified code answers 200; every failure is 400 |
| Otp.IssueThenVerify | controllers/otpController.js:84-93 | the issued code verifies within five minutes and is then consumed |
| Otp.VerifyAfterExpiry | controllers/otpController.js:84-87 | after five minutes the code is refused and its entry deleted |
| Otp.VerifyOnce | controllers/otpController.js:92 | a verified code cannot be used a second time |
| Otp.WrongCodeKeeps | controllers/otpController.js:88-90 | a wrong code within the lifetime leaves the store as it was, and the right code still verifies |
| Otp.OtpStore.constructor | controllers/otpController.js:10 | the store starts empty |
| Otp.OtpStore.SendOtp | controllers/otpController.js:22-76 | 400 without an email, 404 without a user, both with the store unchanged; otherwise the code is issued, then 200 or 500 as the mail goes out |
| Otp.OtpStore.VerifyOtp | controllers/otpController.js:79-94 | the store and status follow Verify |
| Otp.ResetStatus | controllers/otpController.js:100-105 | 400 exactly without email or password, 404 exactly without a user, otherwise 200; the code store plays no part |
| Otp.ResetWithoutCode | controllers/otpController.js:97-116 | an email with no code, or an expired one, is still reset |
| Otp.ResetPassword | controllers/otpController.js:97-116 | the status follows ResetStatus; on 200 the password is the hash of the new one, and name, email, role, number, address and wishlist never change |
| Otp.CheckedReset | controllers/otpController.js:79-116 | the corrected reset answers 200 exactly when the fields are given, the user exists and the email's code verifies; the code is then consumed |
| Otp.CheckedResetNeedsCode | controllers/otpController.js:79-116 | with the check, an email without a live code cannot be reset |
| Otp.CheckedResetOnce | controllers/otpController.js:79-116 | with the check, an issued code resets the password once and not a second time |
| Otp.ResetPasswordChecked | controllers/otpController.js:79-116 | the corrected handler's status and store follow CheckedReset; the password changes only on 200 and no other field changes |
| ProductModel.ParseCategory | models/Product.js:73 | exactly "exterior", "interior" and "performance" are categories |
| ProductModel.Product.constructor | models/Product.js:62-78 | a new product has the given fields and the schema defaults: PKR, not featured, stock 40, brand "Universal", no reviews |
| ProductModel.Product.SetFields | controllers/productController.js:120-126 | the editable fields become the merged ones |
| ProductModel.Product.PushReview | controllers/productController.js:181 | the review is appended and every review stays valid |
| ProductModel.Product.SetReviews | controllers/adminController.js:602-604 | the review list is replaced by the filtered one |
| ProductService.Selector | controllers/productController.js:17-27 | an empty value or "all" means no filter; anything else filters by itself |
| ProductService.FilterFor | controllers/productController.js:7-30 | the keyword filter is present exactly when a keyword is; category and occasion follow Selector |
| ProductService.SortFor | controllers/productController.js:33-50 | each of the four sort names picks its order; every other value means newest first |
| ProductService.GetProducts | controllers/productController.js:4-63 | the listing is the store's answer to that filter and sort, and its total is the list's length |
| ProductService.AllCategoriesIsNoFilter | controllers/productController.js:18-21 | category "all" lists the same as no category |
| ProductService.CreateProduct | controllers/productController.js:90-107 | 500 and no product exactly for a category outside the enum; otherwise 201 with a fresh product carrying the fields and defaults |
| ProductService.Merge | controllers/productController.js:120-126 | each falsy field keeps the old value, featured changes only when given; a category outside the enum fails with 500 |
| ProductService.MergeNothing | controllers/productController.js:120-126 | an empty update changes nothing |
| ProductService.ZeroCannotBeSet | controllers/productController.js:121-125 | price and stock become 0 only when they already were 0 |
| ProductService.FeaturedCanBeCleared | controllers/productController.js:126 | featured false does clear the flag |
| ProductService.MergeIdempotent | controllers/productController.js:120-126 | applying the same update twice is applying it once |
| ProductService.UpdateProduct | controllers/productController.js:112-136 | 500 for an id that does not cast and nothing changes; 404 without a product; 500 leaves it unchanged; otherwise its fields are the merge; reviews, image, currency, quantity, availability, brand and rating average never change |
| ProductService.NewReview | controllers/productController.js:174-179 | the review carries the author, the comment as text and the time; none without a rating |
| ProductService.CreateProductReview | controllers/productController.js:162-192 | 400 for a malformed id, 404 without a product; 201 exactly when the review passes the schema, then appended; otherwise 500 and nothing changes; the editable fields, image, currency, quantity, availability, brand and rating average never change |
| ProductService.AddReviewCheckIsSchema | controllers/productController.js:198-200 | the handler's input check accepts exactly what the review schema accepts |
| ProductService.AddReviewAsWritten | controllers/productController.js:195-225 | 400 for invalid input, 404 without a product; the handler is not routed (routes/products.js:22) |
| ProductService.AddReviewNeverSucceeds | controllers/productController.js:206-211 | as written the handler never answers 201: past the checks it always fails with 500 |
| ProductService.AddReview | controllers/productController.js:195-225 | 201 exactly for valid input on an existing product, with the review (its author included) appended; every other answer is the as-written one; no field but the reviews changes |
| CarModModel.ParseCarModStatus | models/carMod.js:32-36 | exactly the four status names parse, each to its status |
| CarModModel.CarModRequest.constructor | models/carMod.js:3-41 | a saved request holds the trimmed name, email and phone, the package and message, and is pending |
| CarModModel.CarModRequest.SetStatus | controllers/adminController.js:749 | the status becomes the given one |
| CarModService.CreateCheck | controllers/carModController.js:11-13 | 400 exactly when a field is empty; the save goes through exactly when the trimmed fields are present; otherwise 500 |
| CarModService.BlankNameFailsSave | models/carMod.js:9-13 | a name of spaces passes the handler's check but fails the save with 500 |
| CarModService.CreateCarModRequest | controllers/carModController.js:5-31 | 201 exactly with a fresh pending request whose user is the caller, if any; otherwise CreateCheck's status and no request |
| AdminService.Refreshed | controllers/adminController.js:26-32 | a given non-blank value is stored trimmed; a missing or blank one keeps the current value |
| AdminService.RefreshedStaysTrimmed | controllers/adminController.js:26-32 | a trimmed value stays trimmed after any refresh |
| AdminService.SettingsUpdate | controllers/adminController.js:26-43 | 400 exactly when both passwords are given and the current one does not match; otherwise name and email are refreshed and the password hashed when both are given |
| AdminService.PasswordChangeNeedsMatch | controllers/adminController.js:35-41 | the password changes only after the current one matched, and then to the new hash |
| AdminService.UpdateAdminSettings | controllers/adminController.js:14-57 | 403 for a non-administrator, nothing changed; otherwise the settings follow SettingsUpdate; role, number, address and wishlist never change |
| Text.Magnitude | controllers/cartController.js:69 | `parseInt` without a radix: after `0x` or `0X` the longest run of hexadecimal digits, otherwise the longest run of decimal digits; no digit at all is NaN |
| Text.ParseIntHex | controllers/cartController.js:69 | `0x` switches to hexadecimal: "0x1f" reads 31 |
| Text.ParseIntBareHex | controllers/cartController.js:69 | "0x" with no hexadecimal digit after it is NaN |
| Text.ParseDecimal | controllers/cartController.js:69 | a number's decimal text reads back as the number, whatever non-digit text follows, unless a lone 0 is followed by the `x` of a hex marker |
| AdminService.Paginate | controllers/adminController.js:189-199 | the page is the parsed number or 1; skip is 6 per earlier page; total pages is the ceiling of the count over 6 |
| AdminService.PageOf | controllers/adminController.js:194-197 | a page holds at most 6 products, none past the end |
| AdminService.PagesCoverAll | controllers/adminController.js:189-199 | the pages up to the last one together list every product, in order |
| AdminService.NormaliseRole | controllers/adminController.js:304-315 | the stored role is lower-case; "customer" and "Customer" become "user" |
| AdminService.UpperCaseCustomerStaysCustomer | controllers/adminController.js:313-315 | "CUSTOMER" is stored as "customer", unlike the other spellings |
| AdminService.AddUserAsWritten | controllers/adminController.js:300-337 | as written, a request without a role fails with 500 |
| AdminService.AddUserCheck | controllers/adminController.js:305-312 | 400 exactly for missing fields, 409 exactly for a taken email, otherwise the normalised role |
| AdminService.AddUserMissingRole | controllers/adminController.js:304-307 | with a role the two agree; without one the code answers 500 where 400 is meant |
| AdminService.AddUser | controllers/adminController.js:300-337 | the status follows AddUserCheck; on 201 a fresh user with the hashed password and the normalised role |
| AdminService.UserUpdate | controllers/adminController.js:365-373 | exactly the non-empty fields are updated; the password is hashed |
| AdminService.UpdateUser | controllers/adminController.js:360-389 | 400 for an id that does not cast, 404 without a user; otherwise only the fields in the update change |
| AdminService.WhitelistIsEnum | controllers/adminController.js:739 | the handler's whitelist is exactly the schema's status enum |
| AdminService.UpdateCarModStatus | controllers/adminController.js:733-757 | 400 for a status outside the list, 500 for an id that does not cast, 404 without a request; otherwise the status is set |
| AdminService.DropReview | controllers/adminController.js:602-604 | the filter keeps exactly the reviews with other ids and shrinks when one matches |
| AdminService.DropReviewAppend | controllers/adminController.js:602-604 | the filter distributes over concatenation |
| AdminService.DropReviewAbsent | controllers/adminController.js:602-604 | filtering an id no review has changes nothing |
| AdminService.DeleteReviewAsWritten | controllers/adminController.js:593-613 | 500 for an id that does not cast, 404 without a product; otherwise the reviews filtered by the raw id |
| AdminService.UpperCaseIdDeletesNothing | controllers/adminController.js:596-604 | an upper-case id finds the review's product but removes nothing, while its cast form would match |
| AdminService.DeleteReview | controllers/adminController.js:593-613 | comparing by the cast id, the review is removed and the list strictly shrinks; no field but the reviews changes |
| AdminService.StatusText | models/Order.js:87-92 | each order status has its own lower-case name from the schema enum |
| AdminService.RecentOrderRow | controllers/adminController.js:95-101 | the row shows the id and total, the customer's name or "Unknown", and the stored status, or "Pending" when none is stored |
| AdminService.SchemaStatusShown | controllers/adminController.js:95-101 | a status written through the schema enum shows as its own name, never as the "Pending" fallback |
| Customization.AddonCharge | controllers/customizationController.js:47-50 | a selected name adds the price of the first add-on with that name, or nothing |
| Customization.ChargesAppend | controllers/customizationController.js:45-51 | the charges of two selections joined are their sum |
| Customization.SelectedTwiceChargedTwice | controllers/customizationController.js:46-50 | a name selected twice is charged twice |
| Customization.UnknownNamesAddNothing | controllers/customizationController.js:48 | names no add-on has add nothing |
| Customization.UnitPrice | controllers/customizationController.js:44-52 | the loop computes the base price plus the charges; with a selection but no add-on list it fails with 400 |
| Customization.SubmitCustomization | controllers/customizationController.js:26-77 | 404 without a product id, since the lookup of `undefined` finds nothing; 400 for an id that does not cast, 404 without a product; otherwise the pending order's amount is unit price times quantity, but the save fails with 400 |
| Chat.AddParticipant | controllers/chatController.js:47-48 | adding to the set keeps it free of duplicates and never adds the administrator |
| Chat.ChatUsers | controllers/chatController.js:45-49 | the ids are exactly the participants other than the administrator, each once |
| Chat.CollectChatUsers | controllers/chatController.js:41-56 | the loop collects ChatUsers: each participant but the administrator, once |
| Chat.Conversation | controllers/chatController.js:27-31 | exactly the messages between the user and the administrator, either way |
| Chat.Insert | controllers/chatController.js:32 | inserting keeps the order by timestamp and adds exactly that message |
| Chat.SortByTime | controllers/chatController.js:32 | the result is ordered by timestamp and is a permutation of the input |
| Chat.MessagesWithUser | controllers/chatController.js:23-38 | the conversation, each message once, by ascending timestamp |
| Auth.TokenOf | middleware/auth.js:8-9 | a token exists exactly when the header does |
| Auth.BearerToken | middleware/auth.js:9 | "Bearer " plus a token yields the token |
| Auth.DoubledBearer | middleware/auth.js:9 | only the first prefix is removed |
| Auth.Authenticate | middleware/auth.js:5-40 | no token, a token that does not verify, an unknown account, or the account the token names, in that order |
| Auth.AuthStatus | middleware/auth.js:11-34 | every failure answers 401; only an authenticated caller passes |
| Auth.NoHeaderNoLookup | middleware/auth.js:8-14 | without a header the answer comes before any verification or lookup |
| Auth.BearerAuthenticates | middleware/auth.js:5-31 | a bearer header with a valid token for a live account authenticates that account |
| Auth.AdminGate | middleware/auth.js:43-66 | 401 without a caller, 403 for a non-administrator, through exactly for an administrator |

## Left out

- Stripe, the Gmail mailer and the image and upload services are not modelled. The card session is a parameter of `OrderService.Payment` (none when the gateway fails). The order confirmation mail needs no parameter: controllers/sendEmail.js:13-52 returns without an address and swallows every failure, so the mail never changes the answer. Whether the code mail of `Otp.OtpStore.SendOtp` went out is a parameter, because there a failure reaches the handler's catch.
- Floating point is not modelled. Prices, quantities and ratings are integers.
- Request bodies whose fields have unexpected JavaScript types are not modelled. A cart quantity sent as a string, for example, would be concatenated by `+=`.
- Mongoose's 12-character ObjectId strings are not modelled. `Common.IsValidObjectId` accepts 24 hexadecimal digits only.
- Unicode case mapping is not modelled. `toLowerCase` lower-cases ASCII letters only.
- `AdminService.Paginate`, `CartService.CustomIndex`, `CartService.RemoveOutcome`: `parseInt` is modelled with its whitespace skipping, its sign and its `0x` prefix. Precision loss on numbers beyond 2^53 and the `-0` it returns for "-0" are not modelled.
- Dates are numbers of milliseconds and the clock is a parameter. The calendar arithmetic of `setDate` is the day count times a day's milliseconds.
- Password hashing and comparison (bcrypt) and token verification (jsonwebtoken) are parameters.
- models/User.js is not part of this model. Its own validation, its unique email index and its password-hashing hook are therefore not modelled. The hashing of a reset password is taken as that hook.
- The store's query engine is not modelled. The regex keyword match, the occasion filter, sorting, `limit`, `populate` and `select` are a parameter or a map of existing documents.
- `ProductService.GetProducts` and `AdminService.PageOf` take the store's results as given.
- `AdminService.Paginate`: a page parameter that parses to a negative number is kept as the source keeps it; what the store does with the negative skip that follows is not modelled.
- The aggregations of `getDashboardData` and the recent orders' date field are not modelled. Only the row mapping is modelled.
- `updateOrderStatus` (controllers/adminController.js:425-445) is not modelled. Because it stores the request's status without validators, `AdminService.RecentOrderRow` takes the stored status as free text rather than as the schema enum.
- Concurrency between requests is not modelled. Every handler runs alone against the store.
- Saves that fail for reasons outside the schema are not modelled, such as duplicate keys or a lost connection.
- Plain reads and deletes with no logic beyond a lookup are not modelled: `getProductById`, `deleteProduct`, `deleteUser`, `deleteCarModRequest`, `getCartItems`, `getMyOrders`, `getOrders`, `getAllUsers`.
- The chat's ordering of messages with equal timestamps is unspecified in the store. `Chat.SortByTime` returns one admissible order. The user lookup that follows `getAllChatUsers` is not modelled.
- `Customization.SubmitCustomization`: a product's add-on list is a parameter, because the product schema has no such field. Colours, size, message and delivery date are not modelled because they never reach a saved document.
- `ProductService.AddReviewAsWritten`: a malformed product id, which the lookup's cast rejects with 500, is folded into the "product found" branch. Both branches end in 500.
- The upper-case product id in `CartService.AddUpperCaseIdTwiceAppends` is modelled as written, with no corrected member.
- `Otp.Verify`, `Otp.OtpStore.VerifyOtp`: the store is a `map`, while the source's store is a plain object that inherits keys such as `constructor`, `toString` and `__proto__`. For such an email with no `otp` in the body, the source finds a truthy record with no expiry and no code and answers 200. The model answers 400, and a missing `otp` is not representable: it is a string, where "" stands for the empty code.
- `OrderService.ReadOrder` answers 401 to a caller who is neither the owner nor an administrator. This follows the code; a 403 would be the usual answer.

## Findings

| source | as written | input that shows it | evidently intended | confidence | as-written member | corrected member |
|---|---|---|---|---|---|---|
| controllers/adminController.js:304-307 | `role.toLowerCase()` runs before the check for missing fields | a request with name, email and password but no role: the call on `undefined` throws and the answer is 500 | 400 "All fields are required" | not executed | AdminService.AddUserAsWritten | AdminService.AddUserCheck |
| controllers/productController.js:206-211 | the review `{user, rating, review, date}`, without the `author` the review schema requires, is pushed onto `product.ratings`, a field the product schema does not have | any valid review for an existing product: pushing onto `undefined` throws and the answer is 500 (the handler is not routed: routes/products.js:22 sends `POST /:id/reviews` to `createProductReview`, so no request reaches it) | append the review, carrying the request's `author`, to `product.reviews` and answer 201 | not executed | ProductService.AddReviewAsWritten | ProductService.AddReview |
| controllers/adminController.js:602-604 | the reviews are filtered by the raw id string, but the product was found through the id's cast | a review id of 24 'A's for a stored review whose id is 24 'a's: the product is found and 200 is returned, but no review is removed | compare against the cast id, so the review is removed | not executed | AdminService.DeleteReviewAsWritten | AdminService.DeleteReview |
| controllers/otpController.js:97-116 | `resetPassword` never checks that a code was issued or verified for the email | any known email and a new password, with no code ever requested: 200 and the password is replaced | the reset goes through only after the email's code verifies | not executed | Otp.ResetWithoutCode | Otp.ResetPasswordChecked |
