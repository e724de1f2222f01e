# E-commerce backend core, modelled in Dafny

This project models the core of a small Flask/SQLAlchemy e-commerce
backend. The backend stores brands, product categories, products, customers
and orders, and serves create, read, update and delete endpoints for them.
The model has seven parts:

- **The generic table interface** (`DefaultTableInterface`). `Tables.Table<R>`
  is a class whose `rows: map<int, R>` field is the committed content of one
  table. `get_all` pages by primary-key range, not by position: page `p` of
  size `n` holds the rows whose key lies in `[(p-1)*n, (p-1)*n + n)`. Gaps
  left by deletions make short pages. Keys start at 1, so the first page
  never holds more than `n - 1` rows (`FirstPageShort`).
- **The records** (`Records`). Brand, ProductCategory, Product, Customer and
  Order are datatypes. Each has a constructor with the model class's
  defaults, and each except Product has its `format` projection. The order
  column defaults the store fills in on insert are modelled too.
- **`Order.pretty_print_items`**. It is an imperative loop that is proved
  equal to a join of `"<name> x<quantity>"` texts with `", "`.
- **The database-URL rewrite**. A leading `postgres://` becomes
  `postgresql://`.
- **Integer text** (`Text`). Python's `str(int)` is used for quantities.
  Python's `int(str)` is what Flask's `type=int` uses to read the `page`
  query argument.
- **The handlers** (`Handlers`). These are the create, update, delete and
  list handlers for brands, product categories, customers and orders. A
  create checks the required fields with Python truthiness, a PATCH merges
  the body into the stored record, a missing record gives 404, and every
  list uses a fixed page size of 10. Every error handler returns the same
  error envelope. For products, only the create guard and the PATCH merge
  are modelled.
- **Three defects in the handlers**, listed under "Findings". Each one is
  modelled as written and as evidently intended.

Where the code and the design description disagree, the model follows the
code:

- `create_brand` passes `catchphrase=None` when the body has no catchphrase.
  The constructor's `""` default is therefore not used, and the stored
  catchphrase is `null` (`Handlers.BrandWithoutCatchphrase`). The same holds
  for a category's description. A customer's address has no constructor
  default; a missing address is passed as `None` and stored as `null`.
- `pretty_print_items` cuts the last two characters with `[:-2]`. On an empty
  item list this yields `""`.

Outside inputs are parameters:

- The key the store assigns on insert is `freshId`, and the only requirement
  is that it is unused.
- The insertion time is `now`.
- The database URL is the argument of `RewriteDatabaseUrl`.

## Model

| member | source | states |
|---|---|---|
| `Tables.PageOf` | models.py:31-35 | a page holds exactly the stored rows whose key is in `[(page-1)*n, (page-1)*n + n)`, in ascending key order, with at most `n` rows |
| `Tables.RowsInRangeSound` | models.py:32-34 | the key-range query lists only stored rows inside the range, in strictly ascending key order, no more rows than keys in the range |
| `Tables.RowsInRangeComplete` | models.py:32-34 | the key-range query lists every stored row inside the range |
| `Tables.Table.GetAll` | models.py:30-35 | `get_all(page, n)` on the table's rows is that page |
| `Tables.PagesDisjoint` | models.py:32-34 | two different pages of the same positive size share no key |
| `Tables.EveryKeyOnSomePage` | models.py:32-34 | every key `k` is on page `k / n + 1`, so every stored row can be listed |
| `Tables.FirstPageShort` | models.py:32-34 | with keys from 1 upwards, page 1 of size `n` holds at most `n - 1` rows |
| `Tables.Table.CountTotal` | models.py:37-39 | `count_total()` is the number of stored keys, and 0 exactly when the table is empty |
| `Tables.CountFollowsLog` | models.py:41-53 | after any legal sequence of inserts and deletes, the count is the old count plus the inserts minus the deletes |
| `Tables.Table.GetOneOrNone` | models.py:55-57 | returns the stored record, or `None` for an absent key without failing |
| `Tables.Table.Insert` | models.py:41-44 | afterwards the key holds the record, the count grows by one, and every other key is unchanged |
| `Tables.Table.Update` | models.py:46-48 | the record under the key is replaced; the key set and the count are unchanged |
| `Tables.Table.Delete` | models.py:50-53 | afterwards the key is absent, the count drops by one, and every other key is unchanged |
| `DatabaseUrl.RewriteDatabaseUrl` | models.py:8-10 | a URL starting with `postgres://` becomes `postgresql://` plus the unchanged rest; any other URL is returned unchanged |
| `DatabaseUrl.RewriteRemovesRetiredScheme` | models.py:9-10 | a rewritten URL never starts with `postgres://` |
| `DatabaseUrl.RewriteIdempotent` | models.py:9-10 | rewriting twice equals rewriting once |
| `Text.NatToString` | models.py:199 | the decimal text of a natural number is non-empty and all digits, one digit exactly below 10, `"0"` exactly for 0, and never starts with `0` otherwise |
| `Text.IntToString` | models.py:199 | the text of an integer ends in a digit, starts with `-` exactly for negatives, and has no leading zero (`"0"` exactly for 0) |
| `Text.DigitsValueOfNatToString` | models.py:199 | the digits of `n` denote `n` |
| `Text.ParseIntOfIntToString` | app.py:34 | `int(str(i)) == i` |
| `Records.ConstructorDefaults` | models.py:70-93 | Brand's catchphrase and ProductCategory's description default to `""`; the constructors copy the arguments and leave the key unset |
| `Records.OrderColumnDefaults` | models.py:185-193 | an order constructed with unset items and cost is stored with items `"{}"`, cost `0.0`, the insertion time and status `"pending"` |
| `Records.NewOrderIsPending` | models.py:185-193 | a new order is stored with status `"pending"`, the insertion time, and the given items and cost |
| `Records.BrandFormatRoundTrip` | models.py:74-78 | Brand `format` has exactly the keys id, name and catchphrase, and the brand reads back from it |
| `Records.ProductCategoryFormatRoundTrip` | models.py:95-99 | ProductCategory `format` has exactly the keys id, name and description, and the category reads back from it |
| `Records.CustomerFormatRoundTrip` | models.py:170-175 | Customer `format` has exactly the keys id, name, email and address, and the customer reads back from it |
| `Records.OrderFormatRoundTrip` | models.py:204-211 | Order `format` has exactly its six column keys, and the order reads back from it |
| `Records.JoinItemsFront` | models.py:195-201 | the join is the first item's text, then `", "`, then the join of the rest |
| `Records.NoTrailingSeparator` | models.py:199-201 | a non-empty rendering ends with the last quantity's digit, never with the separator |
| `Records.PrettyPrintItems` | models.py:195-201 | the loop-then-`[:-2]` result equals the `", "`-join of the `"<name> x<quantity>"` texts; `""` for no items |
| `Handlers.ErrorResponse` | app.py:444-482 | every error envelope has the status as `error`, `success` false and a non-empty message, and no other keys |
| `Handlers.ErrorEnvelopesDistinct` | app.py:444-482 | an error envelope never reports success, and different statuses give different envelopes |
| `Handlers.FalsyRequiredRejects` | app.py:59-60 | a required field that is missing or falsy rejects the body |
| `Handlers.OnlyRequiredKeysDecide` | app.py:53-60 | bodies that agree on the required keys are accepted or rejected alike |
| `Handlers.PageArgumentReads` | app.py:34 | `page` defaults to 1, reads back a printed integer, and is 1 for every text `int()` rejects (e.g. `next`, or `\x1c5`, which `int()` does not strip) |
| `Handlers.Rendered` | app.py:166 | the listed rows are formatted one for one, in page order |
| `Handlers.ListedIdsOnPage` | models.py:30-35 | while every record's formatted `id` is its key, a rendered page lists only records whose `id` lies on that page, in ascending order |
| `Handlers.ListRows` | app.py:160-167 | a list reply holds the formatted page at size 10 and a total equal to `count_total()` whatever the page; its records' ids lie on the page |
| `Handlers.DeleteRow` | app.py:215-225 | 404 with the table unchanged for an absent id; otherwise exactly that row is removed and the id is echoed |
| `Handlers.BrandFromBody` | app.py:175-181 | accepted exactly when `name` is truthy; the formatted brand carries the body's name, and its catchphrase or `null` |
| `Handlers.BrandWithoutCatchphrase` | app.py:176-181 | a brand created without a catchphrase stores `null` |
| `Handlers.CreateBrand` | app.py:170-187 | 400 with the table unchanged when rejected; otherwise the brand is inserted under the fresh key and returned formatted; every stored record's formatted `id` stays its key |
| `Handlers.MergeBrand` | app.py:199-203 | seen through `format`, the body's name and catchphrase entries are laid over the brand, `null` included; the key is kept |
| `Handlers.MergeBrandIdempotent` | app.py:199-203 | merging a body twice equals merging once; an empty body changes nothing |
| `Handlers.UpdateBrand` | app.py:189-210 | 404 with the table unchanged for an absent id; otherwise the merged brand is stored and returned; the reply's `id` is the requested id, and every stored record's formatted `id` stays its key |
| `Handlers.UpdateRowAsWritten` | app.py:407-410 | a PATCH handler that fails after its lookup replies 404 for an absent id and 500 for an existing one |
| `Handlers.UpdateBrandAsWritten` | app.py:189-210 | 404 for an absent id, 500 for every existing one |
| `Handlers.ListBrands` | app.py:157-168 | the brands page and `total_brands` equal to the count; the listed ids lie on the requested page |
| `Handlers.DeleteBrand` | app.py:212-225 | 404 or removal of exactly that brand, echoing `brand_id`; every remaining record's formatted `id` stays its key |
| `Handlers.CategoryFromBody` | app.py:245-251 | accepted exactly when `name` is truthy; description optional |
| `Handlers.CreateProductCategory` | app.py:240-257 | 400 with the table unchanged, or insertion under the fresh key; every stored record's formatted `id` stays its key |
| `Handlers.MergeProductCategory` | app.py:270-274 | the body's name and description entries are laid over the category |
| `Handlers.UpdateProductCategory` | app.py:259-281 | 404 with the table unchanged, or the merged category stored and returned; the reply's `id` is the requested id, and every stored record's formatted `id` stays its key |
| `Handlers.ListProductCategories` | app.py:227-238 | the categories page and `total_product_categories` equal to the count; the listed ids lie on the requested page |
| `Handlers.DeleteProductCategory` | app.py:283-296 | 404 or removal of exactly that category, echoing `category_id`; every remaining record's formatted `id` stays its key |
| `Handlers.CustomerFromBody` | app.py:316-323 | accepted exactly when `name` and `email` are truthy; address optional |
| `Handlers.CreateCustomer` | app.py:311-329 | 400 with the table unchanged, or insertion under the fresh key; every stored record's formatted `id` stays its key |
| `Handlers.MergeCustomer` | app.py:341-347 | the body's name, email and address entries are laid over the customer |
| `Handlers.UpdateCustomer` | app.py:331-354 | 404 with the table unchanged, or the merged customer stored and returned; the reply's `id` is the requested id, and every stored record's formatted `id` stays its key |
| `Handlers.ListCustomers` | app.py:298-309 | the customers page and `total_customers` equal to the count; the listed ids lie on the requested page |
| `Handlers.DeleteCustomer` | app.py:356-369 | 404 or removal of exactly that customer, echoing `customer_id`; every remaining record's formatted `id` stays its key |
| `Handlers.CreateOrderWitness` | app.py:389-394 | a concrete body passes the order guard |
| `Handlers.OrderFromBody` | app.py:389-396 | accepted exactly when `customer_id`, `items` and `cost` are truthy; the order gets them, status `"pending"` and the time |
| `Handlers.CreateOrderAsWritten` | app.py:384-402 | 400 when rejected, 500 for every accepted body |
| `Handlers.CreateOrder` | app.py:384-402 | 400 with the table unchanged, or insertion under the fresh key; every stored record's formatted `id` stays its key |
| `Handlers.MergeOrder` | app.py:414-420 | customer, items and cost take the body's `customer_id`, `items` and `cost` when present; status, time and key untouched |
| `Handlers.UpdateOrderAsWritten` | app.py:404-427 | 404 for an absent id, 500 for every existing one |
| `Handlers.UpdateOrder` | app.py:404-427 | 404 with the table unchanged, or the merged order stored and returned; the reply's `id` is the requested id, and every stored record's formatted `id` stays its key |
| `Handlers.ListOrders` | app.py:371-382 | the orders page and `total_orders` equal to the count; the listed ids lie on the requested page |
| `Handlers.DeleteOrder` | app.py:429-442 | 404 or removal of exactly that order, echoing `order_id`; every remaining record's formatted `id` stays its key |
| `Handlers.ProductFromBody` | app.py:51-62 | accepted exactly when `name`, `price` and `brand` are truthy; description and category are optional and default to `null` |
| `Handlers.ProductFalsyFieldsRejected` | app.py:59-60 | price 0, 0.0 or null, or an empty name, is rejected |
| `Handlers.ProductOptionalFields` | app.py:56-60 | removing description and category never changes the decision |
| `Handlers.MergeProduct` | app.py:82-88 | name, price and brand take the body's value when present; description and category are never changed |
| `Handlers.MergeTakesNull` | app.py:82-88 | a present `null` overwrites the stored value |

## Left out

- Flask routing, `request`, `jsonify`, CORS, the `index` page and its template are not modelled. The handlers take the decoded body or query arguments and return a status and a JSON object. The commented-out `requires_auth` decorators have no effect and are not modelled.
- The session, engine, commit and `setup_db` are not modelled. Every write commits at once, so a table is the map of its committed rows. Reading the URL from the environment is outside the model.
- A body that is not a JSON object is not modelled. `get_json()` can return `None` or a list, and `body.get` would then fail.
- Store-side behaviour is not modelled. This covers column type coercion (a JSON number sent as a name), rejection of a wrong type, foreign-key enforcement and cascades, and reloading attributes after commit. A record holds the JSON values the handler passed.
- Handlers.UpdateBrand, Handlers.UpdateProductCategory, Handlers.UpdateCustomer, Handlers.UpdateOrder: the source assigns the fields of the tracked ORM object in place and then commits. The model writes the merged value back with `Table.Update`. Aliasing between the object and the session's copy is not modelled.
- Tables.PageOf: the source query has no `ORDER BY`, so the store decides the order of a page. The model returns ascending key order.
- Products are modelled only as validation (`ProductFromBody`) and merge (`MergeProduct`). `Product` does not inherit the table interface. As written, `Product.get_all`, `count_total`, `insert`, `get_one_or_none` and `delete` do not exist, so every product list, valid create, PATCH and DELETE ends in the 500 handler.
- `Product.format` is not modelled. It formats a float price, and it looks up the brand and category, failing when the category is `None`.
- Product reviews are not modelled. Their handlers take no `product_id` argument, they call the `ProductReview` constructor with keywords it lacks, and they read an undefined `product.reviews`.
- `json.loads` inside `pretty_print_items` is not modelled. The item list is taken as already parsed into (name, quantity) pairs with string names and integer quantities.
- Text.ParseInt: only ASCII input is modelled: the whitespace `int()` strips there (space and `\t` through `\r`; not `\x1c` to `\x1f`, which `str.isspace` accepts) and ASCII digits. Python's `int()` also accepts non-ASCII Unicode whitespace and decimal digits. The limit on decimal digits in int/str conversion (4300 by default from Python 3.11 and the 2022 security releases, configurable, absent before) is not modelled: there `int()` rejects a longer `page` argument, so `type=int` falls back to page 1, while the model reads the number and lists an empty page.
- Text.ParseIntOfIntToString: holds for every integer in the model; under the digit limit, Python's `str(i)` itself fails for integers with more than 4300 digits, so the round trip only covers integers `str` can print.
- Handlers.PageArgument: reads a `page` argument of any length, as the digit limit above is not modelled.
- Records.WithOrderDefaults: an explicit `null` is treated like an unset attribute. The handlers never build an order with null items or cost, because the guard rejects them.
- Floats are compared with zero for truthiness and are never computed with.
- Server error handling assumes a non-debug server. When run with `debug=True`, an unhandled exception reaches the debugger instead of the 500 handler.

## Findings

| source | as written | input that shows it | evidently intended | confidence | as-written member | corrected member |
|---|---|---|---|---|---|---|
| app.py:396 | `Order(customer_id=..., items_json=..., cost=...)`, while `Order.__init__` takes `customer` | body `{"customer_id": 1, "items": "[]", "cost": 5.0}` passes the guard; the call raises `TypeError`; reply 500, nothing stored | the order is stored with `customer` set to the body's `customer_id` | high (Python call binding); not executed | `Handlers.CreateOrderAsWritten` | `Handlers.CreateOrder` |
| app.py:205 | `brand.update()` leaves the classmethod's record parameter without an argument (also `order.update()` at app.py:422) | PATCH of existing brand 1 with `{"name": "X"}`: `TypeError` before the commit; reply 500, name not stored | pass the record, as `ProductCategory.update(category)` at app.py:276 does | high (Python call binding); not executed | `Handlers.UpdateBrandAsWritten` | `Handlers.UpdateBrand` |
| app.py:414 | the default `order.customer_id` is evaluated, but `Order` has no such attribute (its column is `customer`); app.py:418 then assigns `order.customer_id`, a plain attribute, not the `customer` column | PATCH of existing order 1 with `{}`: `AttributeError`; reply 500, nothing stored | default to the stored `order.customer` (app.py:414) and assign the `customer` column (app.py:418), so that a body's `customer_id` changes the order's customer | high (Python attribute lookup); not executed | `Handlers.UpdateOrderAsWritten` | `Handlers.UpdateOrder` |
