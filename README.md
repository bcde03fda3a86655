# Catalog mini app: a verified model

This Dafny project models the decision rules of a shop "mini app" that runs
inside a messenger. The app has two parts.

The **browser script** (`static/js/app.js`) covers these rules:

- resolving the user's identifier;
- turning any HTTP response into one JSON value without throwing;
- choosing a category icon;
- filtering the catalog by category and cutting it into pages of ten;
- the pagination buttons;
- the cart badge and totals, and the request a quantity change sends;
- the single mutable `state` record that the view transitions change.

The **server** (`server.py`) provides request handler cores:

- the cart join with the cached catalog;
- the cart change handlers and the fields they require;
- the product search;
- the order total, the saved order and the cleared cart;
- the subscription toggle;
- the assistant chat reply: the five-item recommendation list and the error classification;
- the wholesale request;
- `error_middleware`'s rules for shaping `/api/` replies.

Both runtimes' string handling is written out in `Common`: substring search,
case folding, white-space stripping, and decimal rendering and parsing. The JSON
values both sides exchange are the `Json` datatype of `JsonValues`. Prices are
whole numbers: think of them as minor units.

## How the model is laid out

Browser side:

- `Identity` models `getUserId`.
- `ResponseDecoding` models `safeJsonParse`, as a function of what the decoder
  observes. The body's parse outcome and the `<title>`/`<h1>` captures are
  inputs.
- `CategoryEmoji` models `getCategoryEmoji`.
- `Catalog` holds the pure view rules.
- `CatalogController.AppState` is a class with the `state` record's fields. Its
  methods are the transitions: `showProducts`, `showCategories`,
  `showAllProducts`, `changePage`, `showProductDetails`, the back handler,
  `loadData`, `loadCart`, `renderCart` and `searchProducts`. Which catalog
  sections are visible is kept as a set. Everything else the DOM shows is
  returned as a value.

Server side:

- `PyValues`: Python truthiness, `dict.get`, `int()`, and the exceptions these
  raise. Every handler reports them through its `except Exception` as a 500 reply
  with `str(e)`.
- `CartApi`, `OrderApi`, `SubscriptionApi`, `SearchApi`, `ChatApi`,
  `WholesaleApi`: one module per handler family.
  - A handler that changes stored state is a method of a store class, such as
    `CartStore`, `OrderDesk`, `SubscriptionStore` or `WholesaleDesk`.
  - That method is proved equal to a specification function of the request and
    the old state. The properties are then lemmas about that function.
  - The loops (`for item in cart_items`, `for product in products`,
    `for _ in range(int(quantity))`, `recommended_products[:5]`) are `while`
    loops against recursive definitions.
- `Middleware` models `error_middleware` as a function of the request and of
  what the route handler did.

## Where the descriptions and the code part ways

The model follows the code in each of these cases.

- **Error text on a non-JSON error page.** The error is the page's first
  `<title>`, or else `<h1>`, capture. That capture can be empty, so the text can
  be empty. `ResponseDecoding.NonOkHtmlErrorNonEmpty` states the exact condition
  under which it is non-empty.
- **A JSON error body can report success.** The JSON error body is spread after
  `success: false`. A non-OK body that says `"success": true` therefore decodes
  as a success (`SuccessFieldOverrides`).
- **Empty falsy JSON error bodies.** A falsy one (`null`, `false`, `0`) is read a
  second time. The runtime refuses that second read, and the caught message
  becomes the error.
- **Which sections are visible.**
  - `showProducts` does not hide the all-products section.
  - A successful search does not hide the details section.
  - More than one section can therefore be visible.
- **Search keeps the page number.** A search leaves `currentPage` as it was. The
  next category opened resets it.
- **"Back" goes to page 1.** From details it re-opens the category at its first
  page (`BackFromDetailsRestartsCategory`). The page the user had reached is lost.
- **A success reply without its list.** `loadCart` takes over a missing
  `cart` as `undefined`, and drawing it then raises inside the handler's
  `try`. A search success without `products` has already cleared the category
  and switched sections when reading the list raises, so the user sees a search
  error over the list section.
- **Zero or negative add quantities.** `add_to_cart_api` with a quantity of 0 or
  less reports success after adding nothing. `int(user_id)` is then never
  evaluated, so even a non-numeric user id succeeds.

## Model

| member | source | states |
|---|---|---|
| Identity.ResolutionOrder | static/js/app.js:17-70 | `getUserId` returns the first identifier found in this order: the host's unsafe user record, the init-data user record, the `test_user_id` parameter via `parseInt`, then 123456789. Each source is defined on its own. |
| Identity.HostIdentityWins | static/js/app.js:33-38 | A truthy id in the host's unsafe user record is returned as is, whatever the other sources hold. |
| Identity.FalsyOnlyFromTestParameter | static/js/app.js:17-70 | The identifier is falsy exactly when the host gave none, the init data gave none, and `parseInt` of a non-empty test parameter is NaN or 0. The fallback is never falsy. |
| Identity.GetUserId | static/js/app.js:17-70 | Without a non-empty test parameter the identifier is always truthy, and with no host bridge it is then 123456789. NaN can only come from `parseInt` of the test parameter. |
| Identity.ParseIntHex | static/js/app.js:58-63 | After a `0x` prefix `parseInt` reads base 16: the value is that of the hexadecimal digits. |
| Identity.ParseIntHexSixteen | static/js/app.js:58-63 | `parseInt("0x10")` is 16. |
| Identity.ParseIntBareHexPrefix | static/js/app.js:58-63 | A `0x` prefix not followed by a hexadecimal digit gives NaN, so `parseInt("0x")` is NaN. |
| Identity.ParseIntRoundTrip | static/js/app.js:58-63 | `parseInt` of the decimal text of any integer a double holds exactly (magnitude at most 2^53) gives that integer back. |
| Identity.ParseUnsigned | static/js/app.js:58-63 | Text that starts with neither white space nor a sign is NaN exactly when its magnitude has no digit, and that magnitude otherwise. |
| Identity.ParseNegative | static/js/app.js:58-63 | A leading minus sign gives the negated magnitude of the rest, or NaN. |
| ResponseDecoding.SafeJsonParse | static/js/app.js:84-165 | An OK response whose body parses yields that body. Every other response yields an object with `success` and `error` fields; a non-OK one also carries `status`, unless its JSON body was falsy. |
| ResponseDecoding.NonOkHtmlClassified | static/js/app.js:91-114 | A non-OK non-JSON response gives `success: false`, `data: []` and the status. The error is "Endpoint не найден: path" for 404; otherwise the first `<title>` capture, else the first `<h1>` capture, else "HTTP status: statusText". |
| ResponseDecoding.NonOkHtmlErrorNonEmpty | static/js/app.js:100-106 | For a non-JSON failure the error text is non-empty unless the capture it came from is empty. |
| ResponseDecoding.NonOkJsonErrorChosen | static/js/app.js:128-136 | A non-OK JSON error object keeps all its own fields. Without its own `error`, the error is its truthy `message` or "HTTP status". |
| ResponseDecoding.NonOkIsFailure | static/js/app.js:89-136 | Every non-OK response decodes to `success: false`, unless its JSON object sets `success` itself. |
| ResponseDecoding.SuccessFieldOverrides | static/js/app.js:129-135 | A 500 whose JSON body says `"success": true` decodes as a success. |
| ResponseDecoding.OkParsedPassesThrough | static/js/app.js:138-149 | An OK response whose body parses is returned unchanged, whatever its content type. |
| ResponseDecoding.OkMalformedFails | static/js/app.js:138-165 | An OK response whose body does not parse gives `success: false` with `data: []`. The error names the content type for non-JSON responses, and is the parse message or "Unknown error" for JSON ones. |
| CategoryEmoji.FirstMatch | static/js/app.js:777-782 | The table search returns the icon of the first entry from `from` on whose key occurs in the name, and the default when none occurs. |
| CategoryEmoji.GetCategoryEmoji | static/js/app.js:760-783 | The icon is that of the first key, in table order, that occurs in the lower-cased name. A name that contains no key gets '📦'. |
| CategoryEmoji.EmojiFromTable | static/js/app.js:760-783 | Every returned icon is a table icon or the default. |
| CategoryEmoji.KitchenCategory | static/js/app.js:765 | "Кухни" gets the plate icon: case is ignored and the earlier keys do not occur in it. |
| Catalog.FilterCategory | static/js/app.js:448-450 | The category filter holds exactly the products whose `categoryId` is the current category. |
| Catalog.FilterCategoryAppend | static/js/app.js:448-450 | The filter keeps catalog order: filtering `a + b` filters `a`, then `b`. |
| Catalog.FilterWithoutCategory | static/js/app.js:448-450 | With no current category the filter matches nothing. |
| Catalog.SliceBound | static/js/app.js:457 | `slice` clamps each bound into `[0, n]`. In-range bounds are kept and bounds past the end become `n`. |
| Catalog.PageAtMostTen | static/js/app.js:455-457 | Every page, for any page number, holds at most ten products. |
| Catalog.PageIsWindow | static/js/app.js:455-457 | For page ≥ 1 the page is the window `[(page-1)*10, (page-1)*10+10)` of the filtered list, cut at its end. |
| Catalog.PagesCoverCategory | static/js/app.js:455-457 | Pages 1 to `ceil(n/10)` laid end to end are exactly the filtered list: nothing is lost or repeated. |
| Catalog.PagesInRangeFilled | static/js/app.js:455-457 | Every page in range is non-empty, and every page before the last is full. |
| Catalog.TotalPages | static/js/app.js:676 | The page count is `ceil(n/10)`, and it is 0 exactly for no items. |
| Catalog.RenderPagination | static/js/app.js:674-687 | There are no controls exactly when there is at most one page. "Back" is disabled exactly on page 1 and "next" exactly on the last page; they ask for page ∓ 1. |
| Catalog.EnabledButtonsStayInRange | static/js/app.js:683-686 | From a page in range, every enabled button leads to a page in range. |
| Catalog.NextEnabledBeyondLastPage | static/js/app.js:683-693 | Nothing clamps the page: past the last page "next" stays enabled and leads further out. |
| Catalog.RenderProducts | static/js/app.js:437-467 | The "not loaded" placeholder shows exactly when there are no products. The empty-category notice shows exactly when products exist but none is in the category. Otherwise at most ten products of the category are listed, with the pagination for the category's size. |
| Catalog.ListingIsCategoryPage | static/js/app.js:437-467 | A listing shows at most ten products, all of the current category. They are that page's window of the filtered list, in catalog order. |
| Catalog.CategoryCards | static/js/app.js:397-406 | One card per category, in order, with its icon and name, opening that category. |
| Catalog.CategoryTitle | static/js/app.js:416-417 | The title is never empty. For the first category carrying the id it is that category's name, or "Товары" when the name is empty. With no such category it is "Товары". |
| Catalog.CartCountAppend | static/js/app.js:669 | The badge count of a concatenation is the sum of the counts. |
| Catalog.TotalUsesOnlySubtotals | static/js/app.js:633-635 | Two carts with the same subtotals show the same total, whatever the prices or quantities. The client never recomputes price × quantity. |
| Catalog.UpdateQuantityRequest | static/js/app.js:582-600 | A request is sent exactly when the user id is truthy. A quantity below 1 is a removal, never an update; otherwise the update carries exactly that quantity. |
| Catalog.MinusOnSingleItemRemoves | static/js/app.js:652 | The minus button on a line with one item removes it. |
| CatalogController.AppState.constructor | static/js/app.js:73-81 | The record starts with empty lists, no category and no product, page 1 and ten items per page. |
| CatalogController.AppState.ShowProducts | static/js/app.js:412-424 | Sets the category, resets the page to 1, and leaves products, categories, cart and product unchanged. Shows the products section and hides categories and details. Returns the title and page 1's listing. |
| CatalogController.AppState.ShowCategories | static/js/app.js:427-434 | Clears the category and the product, keeps the page, and shows only the categories of the four sections. |
| CatalogController.AppState.ShowAllProducts | static/js/app.js:833-866 | With no products it shows only an error and changes nothing. Otherwise it clears category and product and shows only the all-products section, listing every product. |
| CatalogController.AppState.ChangePage | static/js/app.js:691-695 | Sets the page to the number given, without clamping. Nothing else changes. It returns that page's listing. |
| CatalogController.AppState.ShowProductDetails | static/js/app.js:494-499 | Sets the current product and shows the details over either listing. |
| CatalogController.AppState.Back | static/js/app.js:1403-1409 | With a current category it re-opens that category at page 1, returning that category's title and page 1's listing, and keeps the product. Otherwise it is `showAllProducts`: with no products only the error and nothing changes; else the whole list, no category or product, and only the all-products section shown. |
| CatalogController.AppState.LoadData | static/js/app.js:189-273 | Both fetched lists always replace the state's, a missing one as `[]`. Cards are drawn only when both arrived non-empty. A missing product list shows the server's error or the waiting message. It ends with the `loadCart` step: the cart changes exactly as there. |
| CatalogController.AppState.LoadCart | static/js/app.js:276-297 | No request is made without a truthy user id. A successful response replaces the cart, even with an undefined list. The panel is redrawn exactly when that list was present. |
| CatalogController.AppState.RenderCart | static/js/app.js:612-664 | An undefined cart draws nothing, as reading its length raises. An empty cart gives the empty panel. Otherwise the panel has one line per item (quantity, shown subtotal, minus and plus targets), the badge count, and the sum of the server subtotals with a missing one counted as 0. |
| CatalogController.AppState.Search | static/js/app.js:793-830 | A blank query sends nothing. Otherwise the stripped query is sent. Success clears the category and shows the list section, then shows the results; a success without results ends in "Ошибка поиска: " and the runtime's message. Failure shows "Ошибка поиска: " and the error, changing nothing. |
| CatalogController.BackFromDetailsRestartsCategory | static/js/app.js:1403-1409 | Open a category, page on, open a product, then go back: the result is the same category at page 1, with the products section shown and details hidden. |
| PyValues.PyInt | server.py:120 | `int()` of a number is that number. `int()` of `None`, a list or a dict raises. `int()` of text succeeds exactly when the text is an integer literal, with that literal's value. |
| PyValues.IntLiteral | server.py:120 | After white space is stripped, plain decimal digits are read as their value. |
| PyValues.UnsignedValue | server.py:120 | Unsigned text has a value exactly when it is digit groups separated by single underscores. Plain digits have their decimal value. |
| PyValues.UnsignedLiteral | server.py:120 | Stripped text that starts with a digit, not a sign, is read by its digit groups alone. |
| PyValues.UnderscoresIgnored | server.py:120 | An underscore between two digit runs is ignored: `int("1_000")` is 1000. |
| PyValues.DoubledUnderscoreRefused | server.py:120 | A doubled underscore makes the text no integer literal: `int("1__0")` raises. |
| PyValues.PriceValue | server.py:151 | `float(price)` of a number is that number, of text it is the integer literal read by `int()`, and of `None`, a list or a dict it fails. |
| PyValues.PyIntOfDecimalText | server.py:642 | `int()` reads back the decimal text of every integer, as sent in a query string. |
| PyValues.IntLiteralOfDecimalText | server.py:120 | `int()` of the text `str(n)` renders is `n`, for every integer `n`. |
| PyValues.BodyObject | server.py:182-183 | The handler gets past `data.get` exactly when the body parses as a JSON object. |
| CartApi.EntryKey | server.py:142 | `p["id"]` succeeds exactly for a dict entry with a hashable `id`, and gives that id. |
| CartApi.IndexedEntriesHaveKeys | server.py:142 | A catalog that indexes without raising has a usable id on every entry. |
| CartApi.IndexDomain | server.py:142 | The product index holds exactly the ids of the cached entries. |
| CartApi.IndexLastWins | server.py:142 | An id maps to the last cached entry that carries it. |
| CartApi.KnownRows | server.py:147-149 | The join keeps exactly the rows whose product is in the index as a non-empty dict. |
| CartApi.KnownRowsAppend | server.py:147-149 | The join keeps cart order: joining `a + b` joins `a`, then `b`. |
| CartApi.EnrichIsKnownRows | server.py:145-164 | The joined cart has, in row order, exactly the known rows. Each has its product and subtotal price × quantity, or 0 when the price does not parse. |
| CartApi.JoinCart | server.py:145-164 | The loop builds the joined lines and a `total` equal to the sum of their subtotals. |
| CartApi.GetCart | server.py:110-176 | A missing or empty `user_id` gives 400 "user_id required". A non-numeric one gives 500. Otherwise the reply holds the joined cart of the user's rows and its total, or 500 for a catalog entry that cannot be indexed. |
| CartApi.AddEffect | server.py:179-204 | The reply is 200, 400 or 500. Only a success makes calls, and then it carries no other field. Every call adds the request's product for its numeric user id. |
| CartApi.RemoveEffect | server.py:207-229 | The reply is 200, 400 or 500. A success makes exactly one call, removing the request's product for its numeric user id; a failure makes none. |
| CartApi.UpdateEffect | server.py:232-258 | The reply is 200, 400 or 500. A success makes exactly one call, setting the request's product to its numeric quantity for its numeric user id; a failure makes none. |
| CartApi.CartStore.AddToCart | server.py:179-204 | The reply and the store calls are those of the specification `AddEffect`. |
| CartApi.CartStore.RemoveFromCart | server.py:207-229 | The reply and the store calls are those of `RemoveEffect`. |
| CartApi.CartStore.UpdateCartQuantity | server.py:232-258 | The reply and the store calls are those of `UpdateEffect`. |
| CartApi.MissingIdsRefused | server.py:187-247 | Without a truthy `user_id` and `product_id`, add, remove and update are refused with 400 and call nothing. |
| CartApi.UpdateNeedsQuantity | server.py:240-250 | An update with a missing or null quantity is refused with 400. A quantity of 0 reaches the store. |
| CartApi.AddCallsQuantityTimes | server.py:185-196 | With valid ids and a quantity `n` > 0, `add_to_cart` is called exactly `n` times for the same user and product. A missing quantity means one call. |
| CartApi.AddNothingForNonPositiveQuantity | server.py:193-198 | A quantity of 0 or less adds nothing and still reports success. |
| OrderApi.SumOrder | server.py:295-302 | The loop's total is the sum of price × quantity over rows with a known product and a parsable price. |
| OrderApi.OrderSubtotalIsCartTotal | server.py:295-302 | The order is charged, before delivery, exactly the `total` that `get_cart` reports for the same rows and catalog. |
| OrderApi.OrderFieldsChecked | server.py:268-279 | Without a truthy `user_id` and `order_data` the order is refused with 400. A non-numeric user id gives 500. |
| OrderApi.OrderDesk.SubmitOrder | server.py:261-322 | A refused request changes nothing. An admitted one stores the order with subtotal + delivery(subtotal) and empties the user's cart, in the event order "saved, then cleared". It replies with the new order id. |
| SubscriptionApi.ToggleEffect | server.py:656-692 | A toggle that does not succeed leaves the subscriptions unchanged. A successful one flips exactly one user's membership and replies with that user's new status. Entries of users who stay subscribed are never rewritten. |
| SubscriptionApi.SubscriptionStore.Toggle | server.py:656-692 | The reply and the new subscriptions are those of the specification `ToggleEffect`. |
| SubscriptionApi.StatusReply | server.py:631-653 | A missing or empty `user_id` gives 400 "user_id required". An integer literal gives `subscribed` equal to that user's membership. Any other text gives 500. |
| SubscriptionApi.ToggleNegates | server.py:674-686 | A successful toggle replies with the negation of the old status. It removes a subscribed user, or adds an unsubscribed one with the given chat id and username. No other user changes. |
| SubscriptionApi.ToggleRequiresIds | server.py:664-668 | Without a truthy `user_id` and `chat_id` the toggle is refused with 400 and nothing changes. |
| SubscriptionApi.ToggleTwiceRestores | server.py:674-682 | Toggling twice from unsubscribed restores the subscriptions. |
| SubscriptionApi.StatusAfterToggle | server.py:631-686 | After a successful toggle the status handler reports the new status. |
| SearchApi.LoweredField | server.py:431-432 | A missing field reads as "". A text field reads as its lower-cased text. |
| SearchApi.MatchProducts | server.py:429-434 | The loop computes the filter `Matching`. The first entry that raises ends it with that fault. |
| SearchApi.MatchingStopsAtFault | server.py:430-432 | Once a prefix of the catalog raises, the whole search raises the same fault. |
| SearchApi.MatchingIsFilter | server.py:429-434 | The result holds exactly the products whose lower-cased name or description contains the lower-cased query. |
| SearchApi.MatchingAppend | server.py:429-434 | Matches keep catalog order: searching `a + b` searches `a`, then `b`. |
| SearchApi.VerbatimNameFound | server.py:426-433 | A product whose name contains the query is found, whatever the query's case. |
| SearchApi.SearchProducts | server.py:402-446 | A blank stripped query gives 400 "Query required". No cached catalog gives 404. Otherwise the matches are returned with `count` equal to their number. |
| ChatApi.ClassifyAiError | server.py:515-533 | Case-insensitive: "timeout" or "timed out" gives the slow-reply text. Otherwise "api" or "key" gives the service text. Anything else gets the generic text. Each direction is an if-and-only-if. |
| ChatApi.ApiTimeoutIsSlow | server.py:521-528 | "API Timeout" counts as slow: the timeout check comes first. |
| ChatApi.InvalidKeyIsServiceTrouble | server.py:529-533 | "Invalid KEY" is a service problem. |
| ChatApi.Summary | server.py:549-555 | A recommendation record has exactly the five keys. Each present field is copied; a missing one becomes "" or, for pictures, []. |
| ChatApi.Summaries | server.py:547-555 | Exactly the dict entries are summarised, and nothing else is. |
| ChatApi.SummariesAppend | server.py:547-555 | The summaries keep the assistant's order: summarising `a + b` summarises `a`, then `b`. |
| ChatApi.FirstFive | server.py:547 | At most five recommendations are looked at. |
| ChatApi.RecommendedList | server.py:545-555 | The loop builds the summaries of the dicts among the first five recommendations. The list is empty for none. |
| ChatApi.RecommendationsFromFirstFive | server.py:545-555 | At most five records, each drawn from a dict among the first five the assistant gave. |
| ChatApi.AiChat | server.py:449-569 | The reply for each case: a missing user or blank message gives 400; an empty catalog gets the not-loaded answer; an assistant failure gets 500; a reply gets its truncated recommendations and `product_ids or []`. |
| ChatApi.FailureReplyShape | server.py:535-542 | Every assistant failure gets 500, `success: false`, no recommendations, no product ids, the order buttons off, and one of the three texts. |
| WholesaleApi.WholesaleDesk.Submit | server.py:572-628 | The reply and the stored requests are those of the specification `SubmitEffect`, with ids given out in sequence. |
| WholesaleApi.MissingFieldRefused | server.py:581-585 | A request is refused with 400 "All fields required", storing nothing, exactly when one of the four fields is missing or falsy. |
| WholesaleApi.StoredAsSubmitted | server.py:590-622 | A stored request has the numeric user id and exactly the submitted name, contact and question. The reply carries its id. |
| WholesaleApi.SubmitEffect | server.py:572-628 | A request is stored exactly when the reply is 200. The reply is otherwise 400 or 500; a stored request's reply names the id it was stored under. |
| Middleware.HttpErrorText | server.py:804-812 | The error text is the not-found text for 404, the reason when it is non-empty, and "Endpoint not found: METHOD PATH" otherwise. |
| Middleware.ErrorMiddleware | server.py:733-826 | OPTIONS gets the preflight reply without the handler's result. Off `/api/`, a response passes through with the CORS headers and an exception is re-raised. |
| Middleware.ApiAnswersAreJson | server.py:773-825 | Off preflight, an `/api/` request is always answered, never re-raised, with a content type naming JSON. |
| Middleware.ApiResponseKept | server.py:760-786 | An `/api/` response keeps its status and body and gets the CORS headers. Its content type is kept exactly when it already names JSON; otherwise it becomes the JSON type. |
| Middleware.ApiHttpErrorShaped | server.py:787-816 | An `HTTPException` on `/api/` becomes `{success: false, error}` with the same status and no CORS headers. |
| Middleware.ApiCrashShaped | server.py:818-825 | Any other exception on `/api/` becomes a 500 `{success: false, error: str(ex)}`. |

## Left out

- DOM rendering is not modelled: markup, `escapeHtml`, scrolling, focus, timers and popups. Only the state they reflect and the values they show are kept.
- `fetch`, aiohttp, SQLite and the messenger bridge become inputs. Responses and bridge fields are parameters, and the cart, order, subscription and wholesale stores are fields of classes.
- Async ordering and races between overlapping responses are not modelled. The model is sequential.
- Floating point: prices are integers. `toFixed(2)` is not modelled.
- PyValues.PriceValue: `float(price)` is read as `int()` reads text, so forms only `float()` accepts (a fraction such as "1.5", an exponent such as "1e3", "inf", "nan") count as unparsable.
- Identity.ParseInt: the exact integer is returned. JavaScript's `parseInt` returns a double, which rounds magnitudes above 2^53; `ParseIntRoundTrip` is stated only up to that bound.
- JSON, URL and regular-expression parsing happen outside the model: the parse outcome and the `<title>`/`<h1>` captures are inputs. JSON object key order is not kept.
- `Common.Lower` folds ASCII and the basic Cyrillic alphabet only, and `Common.Strip` trims ASCII white space only. Full Unicode case mapping and white space are left out.
- `PyValues.FaultText` quotes a bad literal as given, where Python's `repr` would escape it.
- Python's `True == 1` equality of dict keys is not modelled.
- The store receives `str(product_id)`. The model records the JSON value itself.
- Exceptions raised by the foreign stores (`database.*`), by `calculate_delivery_cost` and by `json.loads` of the cache are not modelled. A cached catalog that is not a list is not modelled either.
- Non-list recommendations from `generate_maxim_reply` are not modelled: the assistant's result is an input.
- OrderApi.OrderDesk.SubmitOrder: the saved order's id is its position in the order list. The real id comes from the database.
- WholesaleApi.WholesaleDesk.Submit: the request id is its position in the request list. The Telegram notification to the owner is not modelled; only the storing and the reply are.
- `get_products`, `get_categories`, `get_faq` and `get_user_orders_api` are not modelled. Neither are the index and static file handlers, the CORS header values or the logging.
- On the browser side, `showTab`, the `addToCart`/`removeFromCart` requests and popups, the checkout modal, the assistant chat panel and the info panels are not modelled.
- Middleware.ErrorMiddleware: the preflight reply's headers and the list of routes logged on a 404 are left out. Any other status the handler's response carries is kept as given.
