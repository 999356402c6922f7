# Pet shop ordering core, in Dafny

A model of the ordering core of a Django pet shop and of its browser scripts,
with proofs about it. The shop sells products, and each product's stock is held
per pickup point. A signed-in customer fills a cart, then places an order for
one pickup point. The order takes the cart's lines at their current prices,
decrements the stock at that point and empties the cart. After receiving an
order, the customer may review each received item once.

Placing an order exists in two versions: the REST endpoint and the HTML
checkout page. Both run as one database transaction, so any failure leaves
everything as it was.

The model covers:

- the cart handlers and both order placements (`Shop.Shop`);
- review eligibility and creation;
- the form and serializer validators;
- the age rule;
- the owner check on order details;
- the value rendering of the backup script;
- the admin audit trail and the order admin rules;
- two template filters;
- the logic of the page scripts: the registration phone mask and `getCookie`,
  the profile date formats and phone field, the checkout phone gate, the
  catalogue search history and request parameters, the home page quiz and its
  paging, and the review paging and ordering on the product page.

Conventions:

- Money is integer kopecks. Prices and totals are `numeric(10,2)` columns, so a
  stored amount is below 10^10 kopecks in magnitude (`Models.MoneyFits`).
  Neither column has a validator, so a product's price may be negative, and the
  model allows it.
- Quantities are `int` columns (`Models.IntFits`).
- Each transaction computes its new state in locals and assigns the fields only
  on success. Every error path therefore ensures `unchanged(this)`.
- Things the code cannot see are parameters:
  - the random order number (`number`);
  - whether the mail server accepts the confirmation (`mailOk`);
  - today's date (`today`);
  - the e-mail syntax check (`emailValid`);
  - `decodeURIComponent` (`decode`);
  - whether an audit insert succeeds (`writeOk`);
  - the clock of a history entry (`now`).

Modules, one per source file, plus shared helpers:

| file | module | source |
|---|---|---|
| wrappers.dfy | Wrappers | `Option` / `Result` |
| text.dfy | Text | Python and JS string helpers: `strip`, digits, `split`, `substring`, `padStart` |
| pyvalue.dfy | PyValue | Python cell values, calendar dates, `isoformat` |
| models.dfy | Models | petshop/models.py |
| shop.dfy | Shop | the order and cart handlers of api_shop/views.py, and `checkout` of petshop/views.py |
| api_views.dfy | ApiViews | the age rule, the order owner check and the backup rendering of api_shop/views.py |
| petshop_views.dfy | PetshopViews | the role predicates and review counters of petshop/views.py |
| serializers.dfy | Serializers | api_shop/serializers.py |
| forms.dfy | Forms | petshop/forms.py |
| admin.dfy | Admin | petshop/admin.py |
| custom_tags.dfy | CustomTags | petshop/templatetags/custom_tags.py |
| register_js.dfy | RegisterJs | petshop/static/js/register.js |
| profile_js.dfy | ProfileJs | petshop/static/js/profile.js |
| checkout_js.dfy | CheckoutJs | petshop/static/js/checkout.js |
| catalog_js.dfy | CatalogJs | petshop/static/js/catalog.js |
| index_js.dfy | IndexJs | petshop/static/js/index.js |
| product_detail_js.dfy | ProductDetailJs | petshop/static/js/product_detail.js |

Some behaviour of the code is easy to misread; the model follows the code:

- **The confirmation mail is sent inside the transaction.** Both order views
  send it inside `transaction.atomic()`, so a mail failure rolls the order
  back (`MailFailure`, state unchanged); the mail is not best-effort.
- **The REST order view has no contact validation of its own.** Only the
  column constraints of the order row apply; a violation is
  `PersistenceFailure`. There is no separate invalid-contact answer.
- **The REST order view checks the cart first.** An empty cart is answered
  before a missing pickup point, and that before an unknown one.
- **The reservation is not a conditional write.** The code reads the stock
  row, checks it, then writes it.
- **The order row comes first in the REST version.** The row is inserted
  before the lines are checked, so a column violation shows up before a
  stock shortage.
- **A missing product in add-to-cart answers 500.** The view's API
  documentation declares a 404 for it (api_shop/views.py:531-533), but
  `get_object_or_404` raises `Http404` inside the view's `try`, and the
  `except Exception` at api_shop/views.py:569-574 turns it into the
  server-error answer (`ServerError`).
- **The order form's phone is not stripped.** It is a `RegexField`
  (petshop/forms.py:225-229), which keeps the text as typed: a phone with a
  leading blank is refused, and one with a final newline is accepted and
  stored with it, because the pattern is applied with `search`, where `$`
  also matches before a final newline.

## Model

| member | source | states |
|---|---|---|
| Models.ParseStatus | petshop/models.py:194-200 | a status name parses only to the status with that name |
| Models.StatusRoundTrip | petshop/models.py:194-204 | each of the four statuses parses back from its name |
| Models.StockAtMostTotal | petshop/models.py:167-168 | with non-negative rows, one point's stock is between 0 and the product's stock summed over all points |
| Models.TotalStockNonNegative | petshop/models.py:167-168 | the summed stock is non-negative when every row is |
| Models.TotalStockAfterDecrement | petshop/models.py:167-168 | lowering one row by q lowers the product's summed stock by exactly q |
| Models.TotalStockOtherProduct | petshop/models.py:167-168 | changing another product's row leaves the summed stock unchanged |
| Models.ItemsOf | petshop/models.py:217-221 | one order item per cart line, in order, with the line's product and quantity and the product's price at that moment |
| Models.CartTotalIsItemsTotal | petshop/models.py:164-165 | the summed `get_total_price` of the cart equals the summed price × quantity of the order items made from it |
| Models.ReceivedItemCountAppend | petshop/models.py:217-221 | appending an order adds its matching items to the user's received count only when it is received and theirs |
| Models.ReviewCountAppend | petshop/models.py:224-229 | appending a review increments the count only for its own user and product |
| Shop.FindFirst | api_shop/views.py:552-553 | the first line the test accepts, no earlier line accepted; `None` exactly when no line is accepted |
| Shop.FindProduct | api_shop/views.py:552-553 | the first cart line for the product, or `None` exactly when no line has it |
| Shop.FindLine | api_shop/views.py:652 | the first line with the id, or `None` exactly when no line has it (`Cart.DoesNotExist`) |
| Shop.CartWithAdded | api_shop/views.py:561-565 | the line for the product grows by q, or one new line is appended; only that product's carted quantity changes; still one line per product |
| Shop.CartWithAddedValid | api_shop/views.py:561-565 | adding keeps the cart valid: catalogue products, positive int-sized quantities, fresh ids |
| Shop.FirstShortage | api_shop/views.py:932-940 | the first line with no stock row at the point or too little in it, or `None` when every line can be served |
| Shop.ReservedStock | api_shop/views.py:942-943 | taking the cart from a point keeps the set of stock rows and leaves other points' rows unchanged |
| Shop.ReservedStockStep | petshop/views.py:228-233 | serving line i after the lines before it lowers the row of (that line's product, the point) by that line's quantity |
| Shop.ReservedStockBounds | api_shop/views.py:937-943 | when no line is short, every row stays between 0 and its old value, and each line's row drops by exactly its quantity |
| Shop.ReservedTotalStock | petshop/models.py:167-168 | taking the cart from a listed point lowers each product's summed stock by its carted quantity |
| Shop.ApiPlacement | api_shop/views.py:904-960 | the REST result after the first checks. Order row rejected: `PersistenceFailure`. Short line: its error. Mail failure: `MailFailure`. Otherwise an order with status 'В обработке', the cart's items, total = sum of price × quantity, and the chosen point |
| Shop.FormPlacement | petshop/views.py:188-255 | an invalid order form gives `InvalidForm` with its errors; a valid one gives exactly the `CleanedPlacement` result of the cleaned form (whose phone is the text as typed), and on success an order at an active point with the cart's items, their total and the default status |
| Shop.CleanedPlacement | petshop/views.py:194-244 | the first short cart line gives its shortage error; then an order row that does not fit its columns gives `PersistenceFailure`, and a failed mail `MailFailure`; success exactly when no line is short, the mail is sent and the order row fits its columns. The order then has the default status, the cart's items, their total, the form's point and contact columns, the given number and user |
| Shop.CommitValid | api_shop/views.py:913-945 | storing a placed order keeps every invariant: catalogue, carts, orders and the review bound |
| Shop.OrdersValidAppend | petshop/models.py:202-221 | a new order whose number is fresh and fits 20 characters, and whose total is its items' sum, keeps the orders valid |
| Shop.ReviewsBoundedAfterOrder | api_shop/views.py:1127-1140 | a new order that is not received keeps every user's review count at or below their received count |
| Shop.ReviewsBoundedAfterReview | api_shop/views.py:1127-1148 | a review allowed by the counts keeps the bound |
| Shop.ServeLines | api_shop/views.py:925-943 | the item loop. On a shortage it returns the first short line's error (missing row or too small); otherwise the items of the cart and the reserved stock |
| Shop.CheckStock | petshop/views.py:195-203 | the validation loop returns the first short line's error, or none when every line can be served |
| Shop.CreateItems | petshop/views.py:218-233 | the creation loop returns the cart's items, the accumulated total (= `get_total_price` summed = items' sum) and the stock decremented line by line |
| Shop.Shop.constructor | petshop/models.py:160-186 | a valid shop with the given catalogue, points and stock, and no carts, orders or reviews |
| Shop.Shop.CartFacts | petshop/models.py:160-163 | a stored cart has one line per catalogue product |
| Shop.Shop.AddToCart | api_shop/views.py:540-575 | inactive or unknown product: `ServerError`, since the `Http404` is caught by `except Exception`. Bad quantity: `InvalidQuantity`. Requested plus carted above the stock summed over all points: `ExceedsStock` (available = total − carted). Otherwise the line grows or one new line is made. Errors change nothing |
| Shop.Shop.StoreAdded | api_shop/views.py:561-565 | the cart becomes `CartWithAdded` of the old cart; nothing else changes |
| Shop.Shop.UpdateCart | api_shop/views.py:650-671 | unknown line: `LineNotFound`. Quantity (1 when absent) below 1: `InvalidQuantity`. Above the summed stock: `ExceedsStock` with the line unchanged. Otherwise the line's quantity is set exactly |
| Shop.Shop.RemoveFromCart | api_shop/views.py:686-696 | `LineNotFound` exactly when the user has no line with the id; otherwise that line alone is removed |
| Shop.Shop.CommitOrder | api_shop/views.py:913-945 | the order is appended, the stock at its point reserved, the user's cart emptied, and the shop stays valid |
| Shop.Shop.PlaceOrder | api_shop/views.py:887-975 | empty cart: `EmptyCart`. No point: `NoPickupPoint`. Unknown point: `PickupPointNotFound`. Then the `ApiPlacement` result. Success: exactly one new order, stock reserved at the point, cart empty. Any error changes nothing |
| Shop.Shop.Checkout | petshop/views.py:178-255 | empty cart: `EmptyCart`, nothing created; otherwise the `FormPlacement` result, committed only on success |
| Shop.Shop.PlaceCleanedOrder | petshop/views.py:193-255 | the result is `CleanedPlacement`. On success the order is stored, the stock reserved, the cart deleted |
| Shop.Shop.CreateReview | api_shop/views.py:1119-1156 | inactive product: `ReviewProductNotFound`. Nothing received: `NothingReceived`. Reviews ≥ received: `AllReviewsWritten`. Invalid rating or text: `InvalidReview`. Otherwise one review is appended and the count stays ≤ received |
| ApiViews.AdultIffBirthdayReached | api_shop/views.py:81-82 | the computed age is at least 18 exactly when the 18th birthday is not after today |
| ApiViews.AgeMonotone | api_shop/views.py:81 | the age never decreases as today advances |
| ApiViews.CheckAge | api_shop/views.py:78-86 | accepted exactly when no birth date was given or the 18th birthday is reached (same rule at api_shop/views.py:250-256) |
| ApiViews.OrderDetail | api_shop/views.py:1006-1031 | `NotFound` exactly when no order has the id; `Forbidden` exactly when it is another user's; otherwise the order |
| ApiViews.EscapeQuotes | api_shop/views.py:2572 | doubling quotes never shortens the text |
| ApiViews.SqlLiteralShape | api_shop/views.py:2568-2578 | never empty; None → `NULL`; True/False → `TRUE`/`FALSE`; a string → `'` + the quote-doubled text + `'` |
| ApiViews.EscapeWithoutQuotes | api_shop/views.py:2572 | text without `'` is unchanged by escaping |
| ApiViews.UnescapeEscape | api_shop/views.py:2572 | reading an escaped body gives the text back |
| ApiViews.EscapeUnescape | api_shop/views.py:2572 | a body that reads back is the escaping of what it reads as |
| ApiViews.StringLiteralRoundTrip | api_shop/views.py:2571-2572 | a rendered string reads back, as a character string literal (ISO/IEC 9075-2 section 5.3), to the same string |
| ApiViews.OnlyStringsAreQuoted | api_shop/views.py:2568-2578 | a rendered value reads as a character string literal exactly when it was a string |
| ApiViews.StringLiteralInjective | api_shop/views.py:2571-2572 | distinct strings give distinct literals |
| ApiViews.BackupDateLiteral | api_shop/views.py:2540-2541 | a date cell reaches the script as its ISO 8601 `YYYY-MM-DD` text in quotes |
| ApiViews.BackupRow | api_shop/views.py:2536-2546 | the row dictionary has exactly the columns as keys, each holding its cell with dates and datetimes as ISO text |
| ApiViews.RenderRow | api_shop/views.py:2566-2578 | one literal per column, in column order, each the rendering of that column's value |
| PetshopViews.AdminRequired | petshop/views.py:33-34 | true exactly for a signed-in user whose role is 'Администратор' |
| PetshopViews.CustomerRequired | petshop/views.py:36-37 | true exactly for a signed-in user whose role is 'Покупатель' |
| PetshopViews.RolesExclusive | petshop/views.py:33-37 | no user passes both role checks |
| PetshopViews.UserOf | petshop/views.py:121-130 | the request's user id exactly when signed in |
| PetshopViews.ProductPageCounters | petshop/views.py:121-132 | anonymous: (false, 0). Otherwise remaining = received items − reviews, not clamped, and can-review exactly when remaining > 0 |
| PetshopViews.PageAgreesWithApi | api_shop/serializers.py:191-203 | the API's `can_review` is the page's remaining count clamped at 0, and is positive exactly when the page offers a review |
| Serializers.NamePatternIsWellFormed | api_shop/serializers.py:64 | the regular expression matches exactly the Cyrillic letter runs joined by single hyphens or spaces |
| Serializers.ValidateRussianName | api_shop/serializers.py:57-75 | required and empty: `NameRequired`. Accepted exactly when empty and optional, or when the stripped value is well formed and has 2..50 characters. The value returned is the stripped input |
| Serializers.ValidateCartQuantity | api_shop/serializers.py:222-226 | accepted exactly when a quantity is given and is ≥ 1 |
| Serializers.ValidateReview | api_shop/serializers.py:206-215 | accepted exactly when the rating is 1..5 and the text is non-blank; the text is stripped; a rejection carries at least one error |
| Serializers.ValidateRegisterPassword | api_shop/serializers.py:12 | accepted exactly when the stripped password has at least 8 characters |
| Serializers.CartItemTotal | api_shop/serializers.py:248-249 | a cart item's total is the product's price × the line's quantity, which is the cart total of that one line |
| Serializers.CanReview | api_shop/serializers.py:191-203 | positive exactly when signed in with fewer reviews than received items; for a signed-in user it is exactly max(received items − reviews, 0), so with the reviews it reaches the received count; an anonymous user gets 0 |
| Forms.ErrorOf | petshop/forms.py:28-53 | a cleaned field contributes one error when it fails and none otherwise |
| Forms.Submitted | petshop/forms.py:11-22 | the stripped submitted text: empty exactly when blank, and never starting or ending with whitespace |
| Forms.CleanChar | petshop/forms.py:11-13 | `CharField`: `Required` exactly when required and blank; accepted exactly when the length bounds hold; the value is the stripped text |
| Forms.CleanEmailField | petshop/forms.py:14 | accepted exactly when present, within length and valid as an address; the value is non-empty |
| Forms.RegistrationPhone | petshop/forms.py:34-39 | accepted exactly when the phone is `+7` and 10 digits |
| Forms.RegistrationBirthDate | petshop/forms.py:41-45 | accepted exactly when a date is given and lies strictly before today |
| Forms.CleanRegistration | petshop/forms.py:10-53 | on success: a valid phone, a birth date before today, matching passwords of ≥ 6 characters, an e-mail not taken, names of 1..50 characters. A rejection is never empty, and a birth date on or after today is always one of its errors |
| Forms.Assemble | petshop/forms.py:47-53 | the form is valid exactly when every field is; then its data are the cleaned fields; each field's error is kept |
| Forms.LoginEmail | petshop/forms.py:87-93 | accepted exactly when non-blank, at most 254 characters and a valid address |
| Forms.LoginPassword | petshop/forms.py:95-103 | accepted exactly when the stripped password has 6..128 characters |
| Forms.ProfileName | petshop/forms.py:139-149 | accepted exactly when the stripped name is letters only and at most 50 characters |
| Forms.ProfileMiddleName | petshop/forms.py:151-155 | accepted exactly when empty or letters only, at most 50 characters |
| Forms.ProfilePhone | petshop/forms.py:163-167 | accepted exactly when empty or `+7` and 10 digits |
| Forms.ProfileBirthDate | petshop/forms.py:169-174 | accepted exactly when absent or not after today |
| Forms.CleanProfile | petshop/forms.py:121-174 | valid exactly when every field is; the birth date and stripped e-mail are kept |
| Forms.BirthDateRules | petshop/forms.py:41-45 | a date the registration accepts the profile accepts too; today is accepted by the profile and refused at registration (petshop/forms.py:169-174) |
| Forms.CleanCartAdd | petshop/forms.py:183-206 | accepted exactly for an active product and a quantity of 1 up to the stock summed over all points; an inactive product is refused |
| Forms.OrderName | petshop/forms.py:236-246 | accepted exactly when the stripped name is letters only and at most 50 characters |
| Forms.CleanOrderForm | petshop/forms.py:210-258 | valid exactly when names, e-mail, phone and pickup point are; then the names are letters, the phone is the submitted text unchanged and matches the pattern, the e-mail non-empty, the point active |
| Forms.OrderPhone | petshop/forms.py:225-229 | the `RegexField` phone: absent or empty is `Required`; otherwise accepted exactly when the unstripped text is `+7` and ten digits, optionally followed by one final newline, and then kept as typed |
| Forms.OrderPhoneUnstripped | petshop/forms.py:225-229 | ` +79991234567` is refused, and `+79991234567` with a final newline is accepted with the newline kept |
| Forms.CleanReviewForm | petshop/forms.py:261-279 | accepted exactly when the rating is 1..5 and the text non-blank; the stripped text is returned |
| Admin.JsonSnapshotShape | petshop/admin.py:40-47 | same keys; no date or datetime remains; dates become their ISO text; every other value is unchanged |
| Admin.JsonSnapshotIdempotent | petshop/admin.py:40-47 | serialising a serialised snapshot changes nothing |
| Admin.SerializeForJson | petshop/admin.py:40-47 | the key-by-key loop computes the snapshot |
| Admin.IsAdminInAdminPanel | petshop/admin.py:51-67 | true exactly when the path starts with `/admin/` and the user is signed in, has a non-zero id and the role 'Администратор' |
| Admin.AdminObject.constructor | petshop/admin.py:105-110 | an object with its key and fields and no prior state |
| Admin.AdminObject.PriorState | petshop/admin.py:76 | the stored prior state, or `{}` when none was taken |
| Admin.AuditedTable.constructor | petshop/admin.py:69-103 | an empty table and log |
| Admin.AuditedTable.LogAction | petshop/admin.py:69-103 | nothing outside the admin panel or when the insert fails. A save: CREATE with no old data when the prior snapshot is empty, else UPDATE with it. A delete: DELETE with the current snapshot as old data and no new data |
| Admin.AuditedTable.SaveModel | petshop/admin.py:105-113 | the prior row (or `{}`) is taken only for an admin save of an object with a key; the row is stored; the save is logged as above, the record naming the saving admin and the table |
| Admin.AuditedTable.DeleteModel | petshop/admin.py:115-117 | the DELETE is logged with the object's key and current data, then the row removed; afterwards the object's key is None, as Django's `delete()` leaves it, and its data are kept |
| Admin.StoredRowGivesUpdate | petshop/admin.py:78-88 | a stored non-empty row has a non-empty snapshot, so saving it logs an UPDATE |
| Admin.OrderHasAddPermission | petshop/admin.py:248-249 | orders can never be added in the admin |
| Admin.OrderHasDeletePermission | petshop/admin.py:251-252 | orders can never be deleted in the admin |
| Admin.OrderReadonly | petshop/admin.py:237-246 | the order data are read-only only when editing an existing order; the status is never read-only |
| CustomTags.Pluck | petshop/templatetags/custom_tags.py:6-7 | as long as its input; element i is the i-th dict's value for the key, or None when absent |
| CustomTags.PluckConcat | petshop/templatetags/custom_tags.py:6-7 | plucking distributes over concatenation |
| CustomTags.GetItem | petshop/templatetags/custom_tags.py:13-17 | the mapped value for a non-empty dict, truthy key and present key; the key itself when the key is absent, the dict empty or None, or the key falsy |
| CustomTags.GetItemChangesOnlyPresentKeys | petshop/templatetags/custom_tags.py:13-17 | a result other than the key comes only from a present key of a non-empty dict |
| PyValue.IsoDate | petshop/admin.py:44 | `date.isoformat`: ten characters, `YYYY-MM-DD` |
| PyValue.IsoCell | api_shop/views.py:2540-2545 | dates and datetimes become ISO text, everything else is kept |
| RegisterJs.NationalDigits | petshop/static/js/register.js:19-25 | the digits, one leading 7 or 8 dropped, at most 10 kept |
| RegisterJs.MaskShape | petshop/static/js/register.js:27-41 | the mask holds exactly the national digits; it is empty exactly when they are; its length follows the groups `(ddd`, `) ddd`, `-dd`, `-dd` |
| RegisterJs.NationalDigitsEmpty | petshop/static/js/register.js:19-25 | no national digits exactly when the input has none, or only a single 7 or 8 |
| RegisterJs.FormatPhoneValue | petshop/static/js/register.js:18-42 | the step-by-step construction is the mask `(ddd) ddd-dd-dd` filled with the national digits as far as they reach |
| RegisterJs.CleanPhoneNumber | petshop/static/js/register.js:44-47 | `+7` followed by every digit of the text |
| RegisterJs.CleanAfterFormat | petshop/static/js/register.js:83-84 | cleaning a masked number gives `+7` and the national digits, at most 12 characters |
| RegisterJs.PhoneInput.constructor | petshop/static/js/register.js:49-50 | the field starts empty |
| RegisterJs.PhoneInput.OnInput | petshop/static/js/register.js:52-54 | the field text is replaced by its mask (as written) |
| RegisterJs.PhoneInput.OnPaste | petshop/static/js/register.js:56-61 | the field becomes the mask of the pasted text |
| RegisterJs.KeyAllowed | petshop/static/js/register.js:63-76 | a key passes exactly when it is Backspace, Tab, Enter, Escape or Delete (8, 9, 13, 27, 46), a navigation key 35..39, Ctrl with A, C, V or X, or a digit of the main row (48..57) or keypad (96..105); so letters without Ctrl are blocked |
| RegisterJs.RemaskDropsDigit | petshop/static/js/register.js:19-23 | national digits starting with 7 or 8 lose that digit on the next input event, so the field changes |
| RegisterJs.MaskNotIdempotent | petshop/static/js/register.js:18-42 | for the digits 88005553535, masking the masked text changes it |
| RegisterJs.NationalDigitsFixed | petshop/static/js/register.js:19-25 | the corrected rule: the 7 or 8 is dropped only on top of ten national digits |
| RegisterJs.FixedMaskIdempotent | petshop/static/js/register.js:18-42 | with the corrected rule, masking a masked number changes nothing |
| RegisterJs.FixedAgreesOnFullNumbers | petshop/static/js/register.js:19-25 | the corrected rule agrees with the written one on eleven-digit numbers and on digits not starting with 7 or 8 |
| RegisterJs.FirstMatchSpec | petshop/static/js/register.js:6-11 | the search finds the first trimmed piece starting with the prefix, and none before it matches |
| RegisterJs.CookieValueSpec | petshop/static/js/register.js:1-14 | no cookie exactly when no trimmed piece starts with `name=`; otherwise the decoded rest of the first one that does |
| RegisterJs.GetCookie | petshop/static/js/register.js:1-14 | the loop with `break` computes that lookup |
| RegisterJs.CookieStringLookup | petshop/static/js/register.js:3-11 | on a `Cookie` header built per RFC 6265 section 4.2.1, the pieces are the pairs; a pair matches exactly when its name is the name, and its value is what follows `name=` |
| ProfileJs.FormatDateByPattern | petshop/static/js/profile.js:34-50 | "" for empty input or a missing part; otherwise the parts read by separator and reordered per the format |
| ProfileJs.ReadAs | petshop/static/js/profile.js:52-60 | parts are read exactly for the three known formats |
| ProfileJs.ConvertToIso | petshop/static/js/profile.js:52-63 | null for empty input, an unknown format or a missing part; otherwise `Y-MM-DD` |
| ProfileJs.FormatPlaceholder | petshop/static/js/profile.js:64-71 | the Cyrillic mask of each format, `ДД.ММ.ГГГГ` by default |
| ProfileJs.FormatIso | petshop/static/js/profile.js:36-49 | an ISO text is read as year, month, day and rendered per the format |
| ProfileJs.FormatDotted | petshop/static/js/profile.js:36-49 | a dotted text is read as day, month, year |
| ProfileJs.FormatSlashed | petshop/static/js/profile.js:36-49 | a slashed text is read as month, day, year |
| ProfileJs.RenderOrders | petshop/static/js/profile.js:44-49 | the three output orders, and unknown formats render as D.M.Y |
| ProfileJs.UnknownFormatFallsBack | petshop/static/js/profile.js:44-49 | an unknown format formats like `%d.%m.%Y` |
| ProfileJs.ConvertToIsoPadded | petshop/static/js/profile.js:59-62 | month and day come out zero-padded to two characters |
| ProfileJs.IsoRoundTrip | petshop/static/js/profile.js:103-110 | for an ISO 8601 `YYYY-MM-DD` date (ISO 8601:2004 section 4.1.2.2), converting back after formatting in any known format gives the date |
| ProfileJs.EffectiveFormat | petshop/static/js/profile.js:104 | the previous format, or `%d.%m.%Y` when none is recorded |
| ProfileJs.Reformat | petshop/static/js/profile.js:104-108 | "" when the text does not convert; otherwise the ISO date formatted in the new format |
| ProfileJs.ReformatKeepsDate | petshop/static/js/profile.js:103-110 | switching format shows the same date in the new format |
| ProfileJs.ReformatBack | petshop/static/js/profile.js:103-110 | switching to another format and back restores the text |
| ProfileJs.SubmitDate | petshop/static/js/profile.js:118-123 | a non-empty text that does not convert is refused; otherwise its ISO form (or nothing) is sent |
| ProfileJs.KeepDateChars | petshop/static/js/profile.js:30-32 | only digits, `.` and `/` remain |
| ProfileJs.KeepDateCharsKeeps | petshop/static/js/profile.js:30-32 | text of those characters is unchanged |
| ProfileJs.KeepDateCharsIdempotent | petshop/static/js/profile.js:30-32 | filtering twice is filtering once |
| ProfileJs.NormalizePhone | petshop/static/js/profile.js:17-21 | `+7` and digits, 2..12 characters |
| ProfileJs.NormalizeKeepsNumber | petshop/static/js/profile.js:17-21 | digits starting with 7, at most 11, become `+` and those digits |
| ProfileJs.NormalizeIdempotent | petshop/static/js/profile.js:17-21 | normalising twice is normalising once |
| ProfileJs.EnsurePlus7 | petshop/static/js/profile.js:13-15 | an empty value becomes `+7`, any other is kept |
| ProfileJs.ProfilePhoneInput.constructor | petshop/static/js/profile.js:13-16 | the initial value passes through `ensurePlus7` |
| ProfileJs.ProfilePhoneInput.OnInput | petshop/static/js/profile.js:17-21 | the value is normalised |
| ProfileJs.ProfilePhoneInput.OnBlur | petshop/static/js/profile.js:25 | `ensurePlus7` on leaving the field |
| ProfileJs.ProfilePhoneInput.OnClick | petshop/static/js/profile.js:26-28 | the caret is moved to at least 2 |
| ProfileJs.ProfilePhoneInput.OnKeyDown | petshop/static/js/profile.js:22-24 | Backspace and Delete are blocked exactly at or before the prefix |
| ProfileJs.ProfileDateField.constructor | petshop/static/js/profile.js:30-32 | an empty field with the selected format |
| ProfileJs.ProfileDateField.Load | petshop/static/js/profile.js:85-94 | the format (default `%d.%m.%Y`) is selected and recorded, the placeholder set, the birth date shown in it |
| ProfileJs.ProfileDateField.OnInput | petshop/static/js/profile.js:30-32 | the value keeps only date characters |
| ProfileJs.ProfileDateField.OnFormatChange | petshop/static/js/profile.js:103-111 | the value is reformatted, the placeholder set, the new format recorded |
| CheckoutJs.SevenDigits | petshop/static/js/checkout.js:16-17 | the digits, with a 7 put in front unless they start with one |
| CheckoutJs.GateNeedsElevenDigits | petshop/static/js/checkout.js:127-133 | the submit gate passes exactly when there are at least 11 such digits |
| CheckoutJs.GateIsPhoneShape | petshop/static/js/checkout.js:127-133 | a normalised phone passes the gate exactly when it has the shape of the pattern `^\+7\d{10}$`: `+7` and ten digits |
| CheckoutJs.NormalizeKeepsValidPhone | petshop/static/js/checkout.js:15-19 | a valid `+7` number is unchanged by normalising |
| CheckoutJs.ProfilePhonePrefixed | petshop/static/js/checkout.js:47-53 | a profile phone starting with 7 gets a `+`; the result starts with `+7` when the phone started with 7 or `+7` |
| CheckoutJs.CheckoutPhoneInput.constructor | petshop/static/js/checkout.js:31-32 | the initial value passes through `ensurePlus7` |
| CheckoutJs.CheckoutPhoneInput.EnsurePlus7 | petshop/static/js/checkout.js:11-13 | the value changes only when empty, to `+7` |
| CheckoutJs.CheckoutPhoneInput.ValidatePhone | petshop/static/js/checkout.js:15-19 | the value becomes `+7` and digits, at most 12 characters |
| CheckoutJs.CheckoutPhoneInput.LoadProfilePhone | petshop/static/js/checkout.js:47-54 | a non-empty profile phone is shown prefixed |
| CheckoutJs.CheckoutPhoneInput.Submit | petshop/static/js/checkout.js:127-133 | the phone is normalised and sent exactly when it has 12 characters; what is sent has the shape of the pattern `^\+7\d{10}$` |
| CatalogJs.Keys | petshop/static/js/catalog.js:22-33 | the filter keys in order |
| CatalogJs.AddEntry | petshop/static/js/catalog.js:25-32 | a new key is appended once; the entry's value is added to its key's values only |
| CatalogJs.SelectedFiltersSpec | petshop/static/js/catalog.js:22-33 | keys are distinct, none has an empty list, and each key's values are its recorded form values in form order |
| CatalogJs.SelectedKeysIff | petshop/static/js/catalog.js:22-33 | a key is present exactly when the form records a value for it |
| CatalogJs.RecordedValuesExclude | petshop/static/js/catalog.js:26-28 | the CSRF token and `search_name` are never recorded, nor empty values |
| CatalogJs.CollectFilters | petshop/static/js/catalog.js:22-33 | the `forEach` loop computes the selected filters |
| CatalogJs.WithoutSame | petshop/static/js/catalog.js:99-103 | exactly the older entries that are not the same search |
| CatalogJs.Take | petshop/static/js/catalog.js:107-109 | the first n entries |
| CatalogJs.SavedHistorySpec | petshop/static/js/catalog.js:99-109 | the new entry is first and nowhere else; the rest are the older entries without the same search, in order; at most 10, the oldest dropped |
| CatalogJs.SaveSameSearchAgain | petshop/static/js/catalog.js:99-109 | saving the same search again just refreshes its entry |
| CatalogJs.SearchHistory.constructor | petshop/static/js/catalog.js:9 | an empty history |
| CatalogJs.SearchHistory.Load | petshop/static/js/catalog.js:11-16 | the stored list when present, else the history unchanged |
| CatalogJs.SearchHistory.Save | petshop/static/js/catalog.js:18-112 | a blank query changes nothing; otherwise the history becomes the saved list and is stored; never more than 10 entries |
| CatalogJs.SentEntries | petshop/static/js/catalog.js:235-241 | exactly the form entries that are not the CSRF token and not empty |
| CatalogJs.BuildParams | petshop/static/js/catalog.js:231-245 | those entries plus `sort` only when one is chosen |
| IndexJs.PageItems | petshop/static/js/index.js:73-75 | exactly the products at indices [3·page, 3·page + 3) that exist |
| IndexJs.ProductOnItsPage | petshop/static/js/index.js:73-75 | product i is on page i / 3 at place i % 3 |
| IndexJs.RenderPage | petshop/static/js/index.js:59-108 | "nothing found" exactly for no products; else the page, previous disabled exactly on page 0, next disabled exactly when 3·page + 3 ≥ count |
| IndexJs.QuizParams | petshop/static/js/index.js:136-144 | exactly the answered fields with non-empty answers, their names in the order of the field list (a subsequence of it) |
| IndexJs.QuizParamsDistinct | petshop/static/js/index.js:136-144 | with distinct field names, no parameter name is sent twice |
| IndexJs.QuizRequestParams | petshop/static/js/index.js:136-144 | the quiz request sends each question's name at most once, in the order of the questions |
| IndexJs.ProductsUrl | petshop/static/js/index.js:136-147 | the bare URL when nothing was answered, else the URL with a query string |
| IndexJs.QuizPage.constructor | petshop/static/js/index.js:4-11 | step 0, no answers, page 0, no products |
| IndexJs.QuizPage.PrevPage | petshop/static/js/index.js:110-115 | retreats and redraws only when the page is above 0 |
| IndexJs.QuizPage.NextPage | petshop/static/js/index.js:117-122 | advances and redraws only when (page + 1)·3 < count; the page stays in range |
| IndexJs.QuizPage.ProductsLoaded | petshop/static/js/index.js:151-155 | the list is replaced, the page reset to 0 and drawn |
| IndexJs.QuizPage.ChooseOption | petshop/static/js/index.js:204-226 | the answer is recorded; before the last step the step advances by one; at the last, the load is asked for and the grid shown |
| IndexJs.QuizPage.Back | petshop/static/js/index.js:228-237 | steps back only above step 0 |
| IndexJs.QuizPage.ResetQuiz | petshop/static/js/index.js:186-200 | step 0, no answers, products hidden |
| IndexJs.ButtonsMatchGuards | petshop/static/js/index.js:106-122 | a button is disabled exactly when its click would do nothing |
| IndexJs.ValidPageNotEmpty | petshop/static/js/index.js:73-75 | a page reached by the guarded clicks is never empty |
| ProductDetailJs.InsertPermutes | petshop/static/js/product_detail.js:138 | insertion adds exactly the one review |
| ProductDetailJs.InsertKeepsOrder | petshop/static/js/product_detail.js:138 | insertion into a newest-first list keeps it newest first |
| ProductDetailJs.SortNewestFirstSpec | petshop/static/js/product_detail.js:138 | the sorted list is newest first and a permutation of the reviews |
| ProductDetailJs.TotalPages | petshop/static/js/product_detail.js:56 | ceil(n / 5) |
| ProductDetailJs.Clamp | petshop/static/js/product_detail.js:57-59 | within [1, total] when there is a page; a page already in range is kept |
| ProductDetailJs.PageReviews | petshop/static/js/product_detail.js:61-63 | exactly the reviews at indices [5·(p − 1), 5·p) that exist |
| ProductDetailJs.ReviewOnItsPage | petshop/static/js/product_detail.js:56-63 | review i is on page i / 5 + 1, within the count, at place i % 5 |
| ProductDetailJs.PageInRangeNotEmpty | petshop/static/js/product_detail.js:56-63 | a page within the count is never empty |
| ProductDetailJs.PaginationButtons | petshop/static/js/product_detail.js:83-101 | previous, pages 1..total, next; previous disabled on page 1, next on the last, the current page active |
| ProductDetailJs.DisabledButtonsAreIgnored | petshop/static/js/product_detail.js:95-110 | a button is disabled exactly when the click handler would ignore its page |
| ProductDetailJs.ReviewSectionFor | petshop/static/js/product_detail.js:141-151 | the link exactly when `can_review > 0`, with that count; else the note |
| ProductDetailJs.LinkShownIffReviewable | petshop/static/js/product_detail.js:141-151 | with the server's count, the link is shown exactly to a signed-in user with fewer reviews than received items |
| ProductDetailJs.ReviewPager.constructor | petshop/static/js/product_detail.js:13-15 | no reviews, page 1 |
| ProductDetailJs.ReviewPager.RenderReviewsPage | petshop/static/js/product_detail.js:45-81 | with no reviews, the note and no pagination; otherwise the clamped page becomes current and its reviews and buttons are drawn |
| ProductDetailJs.ReviewPager.ClickPage | petshop/static/js/product_detail.js:102-110 | a page outside [1, total] is ignored; any other is drawn |
| ProductDetailJs.ReviewPager.LoadProduct | petshop/static/js/product_detail.js:138-151 | the reviews are stored newest first (a permutation) and the review section set; an empty list draws the no-reviews message and leaves the page number alone; otherwise the page number is clamped to the page count and the drawn page holds exactly that page's reviews and its pagination buttons |

## Left out

- Concurrency: neither order placement locks rows; both read stock, check it and write it. The model is sequential and claims nothing about concurrent checkouts.
- Database-specific SQL: the trigger toggling around the order transaction, `session_replication_role` and `SET LOCAL` have no logical content.
- Backup plumbing: files, zip, temporary directories and `pg_dump` are left out; only the row dictionary and value rendering are modelled.
- Floating point: `Decimal` money is integer kopecks. The backup's `float(value)` for decimal cells and the `str` of a float in the script are not modelled; the modelled cell values are None, booleans, integers, strings, dates and datetimes, and an integer renders as its decimal digits.
- DOM rendering, `fetch`, messages, redirects and the templates are left out; each handler is modelled by the state it changes.
- Authentication, sessions, password hashing and the login form's `clean` (which authenticates) are framework calls and are left out.
- E-mail syntax (`EmailValidator`) is the parameter `emailValid`; Django's date parsing of form input is left out (dates arrive parsed or absent).
- Python's `str.strip`, `isalpha` and JS `trim` are approximated: whitespace is the six ASCII whitespace characters, letters are ASCII and Russian Cyrillic letters. The phone pattern's `\d` is read as an ASCII digit (`Forms.IsPhone`), while Python's `\d` on a `str` matches every Unicode decimal digit, so the three forms (petshop/forms.py:36, 166, 226) also accept `+7` followed by ten digits of another script, which the model refuses. Likewise the `\s` in the patronymic separator class `[-\s]` (api_shop/serializers.py:64, `Serializers.IsNameSeparator`) matches every Unicode whitespace character, no-break space included, while the model accepts only the ASCII ones.
- The random order numbers (`uuid4`, `get_random_string`) are the parameter `number`; the shop only requires it to be unique and at most 20 characters, the column's rules.
- The mail send is the parameter `mailOk`; its failure rolls the order back, as in the code.
- A failing audit insert is the parameter `writeOk`; the model logs nothing then and does not model the effect of a failed insert on a surrounding transaction.
- The review bound (no user has more reviews of a product than received items) is part of the shop invariant `Shop.Shop.Valid`. Orders change status only outside the modelled code (the admin), so the model does not show how an order becomes received. The bound is an invariant of the model, not of the program: `Admin.OrderReadonly` leaves `status` editable, so an admin can move a received order back to another status after its reviews are written, and the count of received items then falls below the count of reviews. That is why the source clamps the remaining count at zero (`max(…, 0)`, api_shop/serializers.py:191-203, modelled by `Serializers.CanReview`).
- One `ProductStock` row per (product, point) is given by the stock map; the database has no such constraint.
- Every `ProductStock` row is taken to be non-negative: the shop invariant `Shop.Shop.Valid` (through `Shop.CatalogValid`) and the constructor require it, and `Models.StockAtMostTotal` and the reservation lemmas rely on it. The database does not enforce it: `quantity` is a plain `IntegerField` (petshop/models.py:186), and the stock admin saves any integer. The cart and order handlers themselves compare against the same sums the code computes, so the model claims nothing about a shop whose stock an administrator set negative.
- ApiViews.OrderDetail: the order with id k is taken to be the k-th stored order. This identity of id and position is a modelling choice; in the database a rolled-back order still uses up its sequence value, so ids can have gaps.
- One cart line per product is kept as an invariant of the model; the database has no such constraint, and the add-to-cart handler itself never creates a duplicate.
- Shop.Shop.AddToCart / Shop.Shop.UpdateCart: a quantity or stock sum beyond the 32-bit `int` column is reported as `ServerError`, which stands for the database error the code turns into a 500.
- Shop.Shop.UpdateCart: the quantity arrives as an integer or absent. Python's `int()` on other JSON values is not modelled: it truncates a float (`int(2.7)` is 2) and turns a boolean into 0 or 1, while a non-numeric string, a string such as `"2.7"` or null raises and the code answers 500.
- The `theme` field and `clean_theme` of the profile form, and model `full_clean`, are left out.
- `isoformat` of datetimes is modelled without microseconds or time zone.
- ApiViews.BackupRow requires distinct column names; a query result with repeated names overwrites earlier keys in the code.
- `decodeURIComponent` is the parameter `decode`.
- The catalogue history: the display labels of filters, the timestamp (parameter `now`) and the JSON parse/stringify of local storage are left out.
- Checkout: `loadCart`'s float total is display only and left out; the checkout field's keydown and click handlers are the profile field's (`ProfileJs.ProfilePhoneInput`) and are not repeated.
- The review date display (dayjs and the user's date format) on the product page is left out.
- ProductDetailJs.SortNewestFirstSpec: proves newest-first order and permutation, not stability of equal times.
- URL percent-encoding of query parameters is left out (`IndexJs.QueryString`, `CatalogJs.BuildParams`).
- IndexJs.QuizPage.ChooseOption: keeps the step in range only for a click on the current step, the only step whose answers are visible.
- The profile submit's fetch and its error display are left out; only the date check before it is modelled.
- ProfileJs.ProfilePhoneInput.OnKeyDown: only whether the key is blocked is modelled, not the browser's edit.

## Findings

| source | as written | input that shows it | evidently intended | confidence | as-written member | corrected member |
|---|---|---|---|---|---|---|
| petshop/static/js/register.js:18-42 | `formatPhoneNumber` drops a leading 7 or 8 on every input event, including from text it has already masked | the digits 88005553535 mask to `(800) 555-35-35`; the next input event masks that text to `(005) 553-53-5` | the 7 or 8 is a country or trunk prefix only when it comes on top of ten national digits, so masking a masked number changes nothing | not executed; high: the property is proved for every input | RegisterJs.MaskNotIdempotent | RegisterJs.FixedMaskIdempotent |

The as-written half is `RegisterJs.MaskNotIdempotent`, built on
`RegisterJs.RemaskDropsDigit`. The corrected half is
`RegisterJs.NationalDigitsFixed` together with `RegisterJs.FixedMaskIdempotent`,
and `RegisterJs.FixedAgreesOnFullNumbers` shows the fix changes nothing for
full eleven-digit numbers. The registration field's handlers
(`RegisterJs.PhoneInput`) and `RegisterJs.FormatPhoneValue` are modelled as
written, since they are what the page runs. Nothing else in the model depends
on the mask.
