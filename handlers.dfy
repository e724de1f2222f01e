/**
 * The decisions the HTTP handlers make: which request bodies a create
 * accepts, how a PATCH merges a body into a stored record, when a lookup
 * ends in 404, how list endpoints page, and the uniform error envelope.
 * Routing, JSON encoding and the web framework are outside the model: a
 * handler here takes the decoded body (or query arguments) and the tables
 * it touches, and returns the status and the JSON object it would send.
 */
module Handlers {
  import opened Wrappers
  import opened Json
  import opened Text
  import opened Tables
  import opened Records

  /** Rows per page on every list endpoint. */
  const PageSize: int := 10

  /** What a handler sends back: an HTTP status and a JSON object. */
  datatype Response = Response(status: int, body: map<string, Value>)

  // ---------------------------------------------------------------------
  // Envelopes

  /** The statuses that have an error handler registered. */
  predicate IsHandledError(code: int)
  {
    code == 400 || code == 404 || code == 405 || code == 422 || code == 500
  }

  function ErrorMessage(code: int): string
    requires IsHandledError(code)
  {
    if code == 400 then "Bad request"
    else if code == 404 then "Resource not found"
    else if code == 405 then "Method not allowed"
    else if code == 422 then "Unprocessable entity"
    else "Internal server error"
  }

  /** The error envelope every registered error handler sends. */
  function ErrorResponse(code: int): (r: Response)
    requires IsHandledError(code)
    ensures r.status == code
    ensures r.body.Keys == {"success", "error", "message"}
    ensures r.body["success"] == Bool(false) && r.body["error"] == Int(code)
    ensures r.body["message"].Str? && r.body["message"].s != ""
  {
    Response(code, map["success" := Bool(false), "error" := Int(code), "message" := Str(ErrorMessage(code))])
  }

  predicate Succeeded(r: Response)
  {
    "success" in r.body && r.body["success"] == Bool(true)
  }

  /** A successful reply carrying one resource field. */
  function Success(key: string, value: Value): Response
  {
    Response(200, map["success" := Bool(true), key := value])
  }

  /** Error envelopes never claim success, and different statuses are told apart by `error`. */
  lemma ErrorEnvelopesDistinct(c1: int, c2: int)
    requires IsHandledError(c1) && IsHandledError(c2)
    ensures !Succeeded(ErrorResponse(c1))
    ensures c1 != c2 ==> ErrorResponse(c1).body != ErrorResponse(c2).body
  {
    if c1 != c2 {
      assert ErrorResponse(c1).body["error"] != ErrorResponse(c2).body["error"];
    }
  }

  // ---------------------------------------------------------------------
  // Required fields and PATCH merging

  /** The handler's guard `if not a or not b ...: abort(400)` passes. */
  predicate Accepts(body: Body, required: set<string>)
  {
    forall k :: k in required ==> Truthy(Get(body, k, Null))
  }

  /** A required field that is missing, `null`, `false`, zero, `""`, `[]` or `{}` rejects the body. */
  lemma FalsyRequiredRejects(body: Body, required: set<string>, k: string)
    requires k in required && !Truthy(Get(body, k, Null))
    ensures !Accepts(body, required)
  {
  }

  /** Keys outside the required set never decide acceptance. */
  lemma {:induction false} OnlyRequiredKeysDecide(b1: Body, b2: Body, required: set<string>)
    requires forall k :: k in required ==> Get(b1, k, Null) == Get(b2, k, Null)
    ensures Accepts(b1, required) == Accepts(b2, required)
  {
    if Accepts(b1, required) {
      forall k | k in required ensures Truthy(Get(b2, k, Null)) {
        assert Get(b1, k, Null) == Get(b2, k, Null);
      }
    }
    if Accepts(b2, required) {
      forall k | k in required ensures Truthy(Get(b1, k, Null)) {
        assert Get(b1, k, Null) == Get(b2, k, Null);
      }
    }
  }

  /** The entries of `body` whose key is listed. */
  function Listed(body: Body, keys: set<string>): map<string, Value>
  {
    map k | k in body && k in keys :: body[k]
  }

  // ---------------------------------------------------------------------
  // Query arguments

  /**
   * `request.args.get('page', 1, type=int)`: the `page` argument read as
   * an integer, or 1 when it is absent or not an integer.
   */
  function PageArgument(args: map<string, string>): int
  {
    if "page" in args && ParseInt(args["page"]).Some? then ParseInt(args["page"]).value else 1
  }

  lemma PageArgumentReads(args: map<string, string>, page: int)
    ensures "page" !in args ==> PageArgument(args) == 1
    ensures PageArgument(args["page" := IntToString(page)]) == page
    ensures forall s :: ParseInt(s).None? ==> PageArgument(args["page" := s]) == 1
    ensures PageArgument(args["page" := "next"]) == 1
    ensures PageArgument(args["page" := "\U{1C}5"]) == 1
  {
    ParseIntOfIntToString(page);
    assert StripLeft("next") == "next";
    assert StripRight("next") == "next";
    assert StripRight(StripLeft("\U{1C}5")) == "\U{1C}5";
  }

  /** The formatted rows of a page, in page order. */
  function Rendered<R>(page: seq<(int, R)>, format: R -> map<string, Value>): (vs: seq<Value>)
    ensures |vs| == |page|
    ensures forall i :: 0 <= i < |vs| ==> vs[i] == Object(format(page[i].1))
  {
    seq(|page|, i requires 0 <= i < |page| => Object(format(page[i].1)))
  }

  /**
   * The store's invariant that `format()['id']` is the primary key: every
   * stored record formats with `"id"` equal to the key it is stored under.
   */
  predicate FormattedKeys<R>(rows: map<int, R>, format: R -> map<string, Value>)
  {
    forall k :: k in rows ==> "id" in format(rows[k]) && format(rows[k])["id"] == Int(k)
  }

  /** The primary key a listed record carries: an object's integer `"id"`. */
  function ListedId(v: Value): Option<int>
  {
    if v.Object? && "id" in v.fields && v.fields["id"].Int? then Some(v.fields["id"].i) else None
  }

  /** A list of records that all carry keys on page `page` of size `n`, in ascending order. */
  predicate IdsOnPage(v: Value, page: int, n: int)
  {
    && v.List?
    && (forall i :: 0 <= i < |v.items| ==> ListedId(v.items[i]).Some? && OnPage(ListedId(v.items[i]).value, page, n))
    && (forall i, j :: 0 <= i < j < |v.items| ==>
          ListedId(v.items[i]).Some? && ListedId(v.items[j]).Some? && ListedId(v.items[i]).value < ListedId(v.items[j]).value)
  }

  /** While the keys match, a rendered page lists records whose `"id"` is on that page, ascending. */
  lemma ListedIdsOnPage<R>(rows: map<int, R>, page: int, n: int, format: R -> map<string, Value>)
    requires FormattedKeys(rows, format)
    ensures IdsOnPage(List(Rendered(PageOf(rows, page, n), format)), page, n)
  {
    var p := PageOf(rows, page, n);
    var vs := Rendered(p, format);
    forall i | 0 <= i < |vs|
      ensures ListedId(vs[i]) == Some(p[i].0)
    {
    }
  }

  /**
   * A list endpoint: the page named by the `page` argument (default 1) at
   * the fixed page size, formatted, with the table's total count, which
   * does not depend on the page.
   */
  method ListRows<R>(table: Table<R>, args: map<string, string>, format: R -> map<string, Value>,
                     key: string, totalKey: string) returns (resp: Response)
    requires key != totalKey && key != "success" && totalKey != "success"
    ensures resp.status == 200 && Succeeded(resp)
    ensures resp.body.Keys == {"success", key, totalKey}
    ensures resp.body[key] == List(Rendered(PageOf(table.rows, PageArgument(args), PageSize), format))
    ensures resp.body[totalKey] == Int(table.CountTotal())
    ensures FormattedKeys(table.rows, format) ==> IdsOnPage(resp.body[key], PageArgument(args), PageSize)
  {
    var page := PageArgument(args);
    var rows := table.GetAll(page, PageSize);
    if FormattedKeys(table.rows, format) {
      ListedIdsOnPage(table.rows, page, PageSize, format);
    }
    var total := table.CountTotal();
    resp := Response(200, map["success" := Bool(true), key := List(Rendered(rows, format)), totalKey := Int(total)]);
  }

  /**
   * A DELETE endpoint: 404 when no record has the id; otherwise exactly that
   * record is removed and the id is echoed back.
   */
  method DeleteRow<R>(table: Table<R>, id: int, echoKey: string) returns (resp: Response)
    requires echoKey != "success"
    modifies table
    ensures id !in old(table.rows) ==> resp == ErrorResponse(404) && table.rows == old(table.rows)
    ensures id in old(table.rows) ==> table.rows == old(table.rows) - {id}
    ensures id in old(table.rows) ==> resp == Success(echoKey, Int(id)) && Succeeded(resp)
  {
    var found := table.GetOneOrNone(id);
    if found.None? {
      resp := ErrorResponse(404);
      return;
    }
    table.Delete(id);
    resp := Success(echoKey, Int(id));
  }

  /**
   * A PATCH endpoint whose handler raises after the lookup: 404 when no
   * record has the id, otherwise the 500 handler's reply, with nothing
   * stored. The failing call is the caller's; the 500 is its modelled outcome.
   */
  method UpdateRowAsWritten<R>(table: Table<R>, id: int) returns (resp: Response)
    ensures id !in table.rows ==> resp == ErrorResponse(404)
    ensures id in table.rows ==> resp == ErrorResponse(500)
  {
    var found := table.GetOneOrNone(id);
    if found.None? {
      resp := ErrorResponse(404);
      return;
    }
    resp := ErrorResponse(500);
  }

  // ---------------------------------------------------------------------
  // Brands

  const BrandRequired: set<string> := {"name"}
  const BrandEditable: set<string> := {"name", "catchphrase"}

  /**
   * The brand `create_brand` builds: only `name` must be truthy. The handler
   * passes `catchphrase=None` when the body has none, so the constructor's
   * `""` default is not used.
   */
  function BrandFromBody(body: Body): (r: Option<Brand>)
    ensures r.Some? <==> Accepts(body, BrandRequired)
    ensures r.Some? ==> r.value.id.None?
    ensures r.Some? ==> Listed(FormatBrand(r.value), BrandEditable) == Listed(body, BrandEditable)["catchphrase" := Get(body, "catchphrase", Null)]
  {
    if Truthy(Get(body, "name", Null)) then
      Some(NewBrand(Get(body, "name", Null), Get(body, "catchphrase", Null)))
    else None
  }

  /** A body with a name but no catchphrase makes a brand whose catchphrase is `null`. */
  lemma BrandWithoutCatchphrase(name: Value)
    requires Truthy(name)
    ensures BrandFromBody(map["name" := name]) == Some(Brand(None, name, Null))
  {
  }

  method CreateBrand(brands: Table<Brand>, body: Body, freshId: int) returns (resp: Response)
    requires freshId !in brands.rows
    requires FormattedKeys(brands.rows, FormatBrand)
    modifies brands
    ensures BrandFromBody(body).None? ==> resp == ErrorResponse(400) && brands.rows == old(brands.rows)
    ensures BrandFromBody(body).Some? ==>
      var stored := BrandFromBody(body).value.(id := Some(freshId));
      brands.rows == old(brands.rows)[freshId := stored] && resp == Success("brand", Object(FormatBrand(stored)))
    ensures FormattedKeys(brands.rows, FormatBrand)
  {
    var brand := BrandFromBody(body);
    if brand.None? {
      resp := ErrorResponse(400);
      return;
    }
    var stored := brand.value.(id := Some(freshId));
    brands.Insert(freshId, stored);
    resp := Success("brand", Object(FormatBrand(stored)));
  }

  /**
   * PATCH merge: a listed field takes the body's value whenever its key is
   * present, `null` included; otherwise it keeps the stored value. Seen
   * through `format`, the body's listed entries are laid over the record.
   */
  function MergeBrand(b: Brand, body: Body): (r: Brand)
    ensures r.id == b.id
    ensures FormatBrand(r) == FormatBrand(b) + Listed(body, BrandEditable)
  {
    b.(name := Get(body, "name", b.name), catchphrase := Get(body, "catchphrase", b.catchphrase))
  }

  /** Merging the same body twice changes nothing more; an empty body changes nothing. */
  lemma MergeBrandIdempotent(b: Brand, body: Body)
    ensures MergeBrand(MergeBrand(b, body), body) == MergeBrand(b, body)
    ensures MergeBrand(b, map[]) == b
  {
  }

  /**
   * `update_brand` with the record passed to `update`, as the category and
   * customer handlers do.
   */
  method UpdateBrand(brands: Table<Brand>, brandId: int, body: Body) returns (resp: Response)
    requires FormattedKeys(brands.rows, FormatBrand)
    modifies brands
    ensures brandId !in old(brands.rows) ==> resp == ErrorResponse(404) && brands.rows == old(brands.rows)
    ensures brandId in old(brands.rows) ==>
      var merged := MergeBrand(old(brands.rows)[brandId], body);
      brands.rows == old(brands.rows)[brandId := merged] && resp == Success("brand", Object(FormatBrand(merged)))
    ensures FormattedKeys(brands.rows, FormatBrand)
    ensures brandId in old(brands.rows) ==> resp.body["brand"].Object? && resp.body["brand"].fields["id"] == Int(brandId)
  {
    var found := brands.GetOneOrNone(brandId);
    if found.None? {
      resp := ErrorResponse(404);
      return;
    }
    var merged := MergeBrand(found.value, body);
    brands.Update(brandId, merged);
    resp := Success("brand", Object(FormatBrand(merged)));
  }

  /**
   * `update_brand` as written: `brand.update()` leaves the classmethod's
   * record parameter without an argument, so the call raises `TypeError`
   * before the commit. The request ends in the 500 handler, and the field
   * assignments, never committed, are dropped with the request's session.
   * The 500 is the modelled outcome of that failed call, not derived here:
   * Python's argument binding is outside the model.
   */
  method UpdateBrandAsWritten(brands: Table<Brand>, brandId: int, body: Body) returns (resp: Response)
    ensures brandId !in brands.rows ==> resp == ErrorResponse(404)
    ensures brandId in brands.rows ==> resp == ErrorResponse(500)
  {
    // The merged fields are assigned to the tracked record, then
    // `brand.update()` fails to bind its record argument.
    resp := UpdateRowAsWritten(brands, brandId);
  }

  method ListBrands(brands: Table<Brand>, args: map<string, string>) returns (resp: Response)
    ensures resp.status == 200 && Succeeded(resp)
    ensures resp.body.Keys == {"success", "brands", "total_brands"}
    ensures resp.body["brands"] == List(Rendered(brands.GetAll(PageArgument(args), PageSize), FormatBrand))
    ensures resp.body["total_brands"] == Int(brands.CountTotal())
    ensures FormattedKeys(brands.rows, FormatBrand) ==> IdsOnPage(resp.body["brands"], PageArgument(args), PageSize)
  {
    resp := ListRows(brands, args, FormatBrand, "brands", "total_brands");
  }

  method DeleteBrand(brands: Table<Brand>, brandId: int) returns (resp: Response)
    requires FormattedKeys(brands.rows, FormatBrand)
    modifies brands
    ensures brandId !in old(brands.rows) ==> resp == ErrorResponse(404) && brands.rows == old(brands.rows)
    ensures brandId in old(brands.rows) ==>
      brands.rows == old(brands.rows) - {brandId} && resp == Success("brand_id", Int(brandId))
    ensures FormattedKeys(brands.rows, FormatBrand)
  {
    resp := DeleteRow(brands, brandId, "brand_id");
  }

  // ---------------------------------------------------------------------
  // Product categories

  const CategoryRequired: set<string> := {"name"}
  const CategoryEditable: set<string> := {"name", "description"}

  /** Only `name` must be truthy; a missing description is passed as `None`. */
  function CategoryFromBody(body: Body): (r: Option<ProductCategory>)
    ensures r.Some? <==> Accepts(body, CategoryRequired)
    ensures r.Some? ==> r.value.id.None?
    ensures r.Some? ==> Listed(FormatProductCategory(r.value), CategoryEditable) == Listed(body, CategoryEditable)["description" := Get(body, "description", Null)]
  {
    if Truthy(Get(body, "name", Null)) then
      Some(NewProductCategory(Get(body, "name", Null), Get(body, "description", Null)))
    else None
  }

  method CreateProductCategory(categories: Table<ProductCategory>, body: Body, freshId: int) returns (resp: Response)
    requires freshId !in categories.rows
    requires FormattedKeys(categories.rows, FormatProductCategory)
    modifies categories
    ensures CategoryFromBody(body).None? ==> resp == ErrorResponse(400) && categories.rows == old(categories.rows)
    ensures CategoryFromBody(body).Some? ==>
      var stored := CategoryFromBody(body).value.(id := Some(freshId));
      categories.rows == old(categories.rows)[freshId := stored]
      && resp == Success("product_category", Object(FormatProductCategory(stored)))
    ensures FormattedKeys(categories.rows, FormatProductCategory)
  {
    var category := CategoryFromBody(body);
    if category.None? {
      resp := ErrorResponse(400);
      return;
    }
    var stored := category.value.(id := Some(freshId));
    categories.Insert(freshId, stored);
    resp := Success("product_category", Object(FormatProductCategory(stored)));
  }

  function MergeProductCategory(c: ProductCategory, body: Body): (r: ProductCategory)
    ensures r.id == c.id
    ensures FormatProductCategory(r) == FormatProductCategory(c) + Listed(body, CategoryEditable)
  {
    c.(name := Get(body, "name", c.name), description := Get(body, "description", c.description))
  }

  method UpdateProductCategory(categories: Table<ProductCategory>, categoryId: int, body: Body) returns (resp: Response)
    requires FormattedKeys(categories.rows, FormatProductCategory)
    modifies categories
    ensures categoryId !in old(categories.rows) ==> resp == ErrorResponse(404) && categories.rows == old(categories.rows)
    ensures categoryId in old(categories.rows) ==>
      var merged := MergeProductCategory(old(categories.rows)[categoryId], body);
      categories.rows == old(categories.rows)[categoryId := merged]
      && resp == Success("product_category", Object(FormatProductCategory(merged)))
    ensures FormattedKeys(categories.rows, FormatProductCategory)
    ensures categoryId in old(categories.rows) ==> resp.body["product_category"].Object? && resp.body["product_category"].fields["id"] == Int(categoryId)
  {
    var found := categories.GetOneOrNone(categoryId);
    if found.None? {
      resp := ErrorResponse(404);
      return;
    }
    var merged := MergeProductCategory(found.value, body);
    categories.Update(categoryId, merged);
    resp := Success("product_category", Object(FormatProductCategory(merged)));
  }

  method ListProductCategories(categories: Table<ProductCategory>, args: map<string, string>) returns (resp: Response)
    ensures resp.status == 200 && Succeeded(resp)
    ensures resp.body.Keys == {"success", "product_categories", "total_product_categories"}
    ensures resp.body["product_categories"]
      == List(Rendered(categories.GetAll(PageArgument(args), PageSize), FormatProductCategory))
    ensures resp.body["total_product_categories"] == Int(categories.CountTotal())
    ensures FormattedKeys(categories.rows, FormatProductCategory) ==> IdsOnPage(resp.body["product_categories"], PageArgument(args), PageSize)
  {
    resp := ListRows(categories, args, FormatProductCategory, "product_categories", "total_product_categories");
  }

  method DeleteProductCategory(categories: Table<ProductCategory>, categoryId: int) returns (resp: Response)
    requires FormattedKeys(categories.rows, FormatProductCategory)
    modifies categories
    ensures categoryId !in old(categories.rows) ==> resp == ErrorResponse(404) && categories.rows == old(categories.rows)
    ensures categoryId in old(categories.rows) ==>
      categories.rows == old(categories.rows) - {categoryId} && resp == Success("category_id", Int(categoryId))
    ensures FormattedKeys(categories.rows, FormatProductCategory)
  {
    resp := DeleteRow(categories, categoryId, "category_id");
  }

  // ---------------------------------------------------------------------
  // Customers

  const CustomerRequired: set<string> := {"name", "email"}
  const CustomerEditable: set<string> := {"name", "email", "address"}

  /** `name` and `email` must be truthy; a missing address is passed as `None`. */
  function CustomerFromBody(body: Body): (r: Option<Customer>)
    ensures r.Some? <==> Accepts(body, CustomerRequired)
    ensures r.Some? ==> r.value.id.None?
    ensures r.Some? ==> Listed(FormatCustomer(r.value), CustomerEditable) == Listed(body, CustomerEditable)["address" := Get(body, "address", Null)]
  {
    if Truthy(Get(body, "name", Null)) && Truthy(Get(body, "email", Null)) then
      Some(NewCustomer(Get(body, "name", Null), Get(body, "email", Null), Get(body, "address", Null)))
    else None
  }

  method CreateCustomer(customers: Table<Customer>, body: Body, freshId: int) returns (resp: Response)
    requires freshId !in customers.rows
    requires FormattedKeys(customers.rows, FormatCustomer)
    modifies customers
    ensures CustomerFromBody(body).None? ==> resp == ErrorResponse(400) && customers.rows == old(customers.rows)
    ensures CustomerFromBody(body).Some? ==>
      var stored := CustomerFromBody(body).value.(id := Some(freshId));
      customers.rows == old(customers.rows)[freshId := stored] && resp == Success("customer", Object(FormatCustomer(stored)))
    ensures FormattedKeys(customers.rows, FormatCustomer)
  {
    var customer := CustomerFromBody(body);
    if customer.None? {
      resp := ErrorResponse(400);
      return;
    }
    var stored := customer.value.(id := Some(freshId));
    customers.Insert(freshId, stored);
    resp := Success("customer", Object(FormatCustomer(stored)));
  }

  function MergeCustomer(c: Customer, body: Body): (r: Customer)
    ensures r.id == c.id
    ensures FormatCustomer(r) == FormatCustomer(c) + Listed(body, CustomerEditable)
  {
    c.(name := Get(body, "name", c.name), email := Get(body, "email", c.email), address := Get(body, "address", c.address))
  }

  method UpdateCustomer(customers: Table<Customer>, customerId: int, body: Body) returns (resp: Response)
    requires FormattedKeys(customers.rows, FormatCustomer)
    modifies customers
    ensures customerId !in old(customers.rows) ==> resp == ErrorResponse(404) && customers.rows == old(customers.rows)
    ensures customerId in old(customers.rows) ==>
      var merged := MergeCustomer(old(customers.rows)[customerId], body);
      customers.rows == old(customers.rows)[customerId := merged] && resp == Success("customer", Object(FormatCustomer(merged)))
    ensures FormattedKeys(customers.rows, FormatCustomer)
    ensures customerId in old(customers.rows) ==> resp.body["customer"].Object? && resp.body["customer"].fields["id"] == Int(customerId)
  {
    var found := customers.GetOneOrNone(customerId);
    if found.None? {
      resp := ErrorResponse(404);
      return;
    }
    var merged := MergeCustomer(found.value, body);
    customers.Update(customerId, merged);
    resp := Success("customer", Object(FormatCustomer(merged)));
  }

  method ListCustomers(customers: Table<Customer>, args: map<string, string>) returns (resp: Response)
    ensures resp.status == 200 && Succeeded(resp)
    ensures resp.body.Keys == {"success", "customers", "total_customers"}
    ensures resp.body["customers"] == List(Rendered(customers.GetAll(PageArgument(args), PageSize), FormatCustomer))
    ensures resp.body["total_customers"] == Int(customers.CountTotal())
    ensures FormattedKeys(customers.rows, FormatCustomer) ==> IdsOnPage(resp.body["customers"], PageArgument(args), PageSize)
  {
    resp := ListRows(customers, args, FormatCustomer, "customers", "total_customers");
  }

  method DeleteCustomer(customers: Table<Customer>, customerId: int) returns (resp: Response)
    requires FormattedKeys(customers.rows, FormatCustomer)
    modifies customers
    ensures customerId !in old(customers.rows) ==> resp == ErrorResponse(404) && customers.rows == old(customers.rows)
    ensures customerId in old(customers.rows) ==>
      customers.rows == old(customers.rows) - {customerId} && resp == Success("customer_id", Int(customerId))
    ensures FormattedKeys(customers.rows, FormatCustomer)
  {
    resp := DeleteRow(customers, customerId, "customer_id");
  }

  // ---------------------------------------------------------------------
  // Orders

  const OrderRequired: set<string> := {"customer_id", "items", "cost"}

  /** A body the guard accepts and that the corrected handler stores. */
  lemma CreateOrderWitness(now: Value)
    ensures var body := map["customer_id" := Int(1), "items" := Str("[]"), "cost" := Float(5.0)];
      Accepts(body, OrderRequired) && OrderFromBody(body, now).Some?
  {
  }

  /**
   * The order `create_order` means to build: the three required fields
   * are truthy, and the store fills in status `"pending"` and the time
   * `now` on insert.
   */
  function OrderFromBody(body: Body, now: Value): (r: Option<Order>)
    ensures r.Some? <==> Accepts(body, OrderRequired)
    ensures r.Some? ==> r.value.id.None? && r.value.status == Str("pending") && r.value.datetime == now
    ensures r.Some? ==> r.value.customer == body["customer_id"] && r.value.itemsJson == body["items"]
    ensures r.Some? ==> r.value.cost == body["cost"]
  {
    if Truthy(Get(body, "customer_id", Null)) && Truthy(Get(body, "items", Null)) && Truthy(Get(body, "cost", Null)) then
      Some(WithOrderDefaults(NewOrder(Get(body, "customer_id", Null), Get(body, "items", Null), Get(body, "cost", Null)), now))
    else None
  }

  /**
   * `create_order` as written: after the guard, `Order(customer_id=...)`
   * raises `TypeError` (the constructor's parameter is `customer`), so a
   * valid body ends in the 500 handler and nothing is stored. The 500 is
   * the modelled outcome of that failed call, not derived here: Python's
   * keyword binding is outside the model.
   */
  method CreateOrderAsWritten(body: Body) returns (resp: Response)
    ensures !Accepts(body, OrderRequired) ==> resp == ErrorResponse(400)
    ensures Accepts(body, OrderRequired) ==> resp == ErrorResponse(500)
  {
    var customerId := Get(body, "customer_id", Null);
    var itemsJson := Get(body, "items", Null);
    var cost := Get(body, "cost", Null);
    if !Truthy(customerId) || !Truthy(itemsJson) || !Truthy(cost) {
      resp := ErrorResponse(400);
      return;
    }
    // `Order(customer_id=...)` fails to bind: the parameter is `customer`.
    resp := ErrorResponse(500);
  }

  /** `create_order` with the body's `customer_id` passed as the order's `customer`. */
  method CreateOrder(orders: Table<Order>, body: Body, freshId: int, now: Value) returns (resp: Response)
    requires freshId !in orders.rows
    requires FormattedKeys(orders.rows, FormatOrder)
    modifies orders
    ensures OrderFromBody(body, now).None? ==> resp == ErrorResponse(400) && orders.rows == old(orders.rows)
    ensures OrderFromBody(body, now).Some? ==>
      var stored := OrderFromBody(body, now).value.(id := Some(freshId));
      orders.rows == old(orders.rows)[freshId := stored] && resp == Success("order", Object(FormatOrder(stored)))
    ensures FormattedKeys(orders.rows, FormatOrder)
  {
    var order := OrderFromBody(body, now);
    if order.None? {
      resp := ErrorResponse(400);
      return;
    }
    var stored := order.value.(id := Some(freshId));
    orders.Insert(freshId, stored);
    resp := Success("order", Object(FormatOrder(stored)));
  }

  /**
   * PATCH merge for orders: the body's `customer_id`, `items` and `cost`
   * replace the customer, the items and the cost whenever present; the
   * status, the time and the key are never touched. As written, the handler
   * assigns `order.customer_id`, a plain attribute that is not the
   * `customer` column, so even with the default and the `update()` call
   * fixed the customer would never change; the merge writes the `customer`
   * column, as evidently intended.
   */
  function MergeOrder(o: Order, body: Body): (r: Order)
    ensures r.customer == (if "customer_id" in body then body["customer_id"] else o.customer)
    ensures r.itemsJson == (if "items" in body then body["items"] else o.itemsJson)
    ensures r.cost == (if "cost" in body then body["cost"] else o.cost)
    ensures r.id == o.id && r.status == o.status && r.datetime == o.datetime
  {
    o.(customer := Get(body, "customer_id", o.customer), itemsJson := Get(body, "items", o.itemsJson),
       cost := Get(body, "cost", o.cost))
  }

  /**
   * `update_order` as written: the default in `body.get('customer_id',
   * order.customer_id)` is evaluated first and `Order` has no attribute
   * `customer_id`, so every PATCH of an existing order raises
   * `AttributeError` and ends in the 500 handler, storing nothing. The 500
   * is the modelled outcome of that failed lookup, not derived here.
   */
  method UpdateOrderAsWritten(orders: Table<Order>, orderId: int, body: Body) returns (resp: Response)
    ensures orderId !in orders.rows ==> resp == ErrorResponse(404)
    ensures orderId in orders.rows ==> resp == ErrorResponse(500)
  {
    // Evaluating the default `order.customer_id` fails before the body is read.
    resp := UpdateRowAsWritten(orders, orderId);
  }

  /**
   * `update_order` reading the stored customer, assigning the `customer`
   * column and passing the record to `update`.
   */
  method UpdateOrder(orders: Table<Order>, orderId: int, body: Body) returns (resp: Response)
    requires FormattedKeys(orders.rows, FormatOrder)
    modifies orders
    ensures orderId !in old(orders.rows) ==> resp == ErrorResponse(404) && orders.rows == old(orders.rows)
    ensures orderId in old(orders.rows) ==>
      var merged := MergeOrder(old(orders.rows)[orderId], body);
      orders.rows == old(orders.rows)[orderId := merged] && resp == Success("order", Object(FormatOrder(merged)))
    ensures FormattedKeys(orders.rows, FormatOrder)
    ensures orderId in old(orders.rows) ==> resp.body["order"].Object? && resp.body["order"].fields["id"] == Int(orderId)
  {
    var found := orders.GetOneOrNone(orderId);
    if found.None? {
      resp := ErrorResponse(404);
      return;
    }
    var merged := MergeOrder(found.value, body);
    orders.Update(orderId, merged);
    resp := Success("order", Object(FormatOrder(merged)));
  }

  method ListOrders(orders: Table<Order>, args: map<string, string>) returns (resp: Response)
    ensures resp.status == 200 && Succeeded(resp)
    ensures resp.body.Keys == {"success", "orders", "total_orders"}
    ensures resp.body["orders"] == List(Rendered(orders.GetAll(PageArgument(args), PageSize), FormatOrder))
    ensures resp.body["total_orders"] == Int(orders.CountTotal())
    ensures FormattedKeys(orders.rows, FormatOrder) ==> IdsOnPage(resp.body["orders"], PageArgument(args), PageSize)
  {
    resp := ListRows(orders, args, FormatOrder, "orders", "total_orders");
  }

  method DeleteOrder(orders: Table<Order>, orderId: int) returns (resp: Response)
    requires FormattedKeys(orders.rows, FormatOrder)
    modifies orders
    ensures orderId !in old(orders.rows) ==> resp == ErrorResponse(404) && orders.rows == old(orders.rows)
    ensures orderId in old(orders.rows) ==>
      orders.rows == old(orders.rows) - {orderId} && resp == Success("order_id", Int(orderId))
    ensures FormattedKeys(orders.rows, FormatOrder)
  {
    resp := DeleteRow(orders, orderId, "order_id");
  }

  // ---------------------------------------------------------------------
  // Products: validation and merge only

  const ProductRequired: set<string> := {"name", "price", "brand"}

  /**
   * `create_product`'s guard: `name`, `price` and `brand` must be truthy;
   * `description` and `product_category_id` are optional and passed as
   * `None` when missing.
   */
  function ProductFromBody(body: Body): (r: Option<Product>)
    ensures r.Some? <==> Accepts(body, ProductRequired)
    ensures r.Some? ==> r.value.id.None? && r.value.name == body["name"] && r.value.price == body["price"]
    ensures r.Some? ==> r.value.brand == body["brand"]
    ensures r.Some? ==> r.value.description == Get(body, "description", Null)
    ensures r.Some? ==> r.value.productCategory == Get(body, "product_category_id", Null)
  {
    if Truthy(Get(body, "name", Null)) && Truthy(Get(body, "price", Null)) && Truthy(Get(body, "brand", Null)) then
      Some(NewProduct(Get(body, "name", Null), Get(body, "price", Null), Get(body, "brand", Null),
                      Get(body, "description", Null), Get(body, "product_category_id", Null)))
    else None
  }

  /** A zero price or an empty name is rejected, like a missing one. */
  lemma ProductFalsyFieldsRejected(body: Body)
    requires || ("price" in body && (body["price"] == Int(0) || body["price"] == Float(0.0) || body["price"] == Null))
             || ("name" in body && body["name"] == Str(""))
    ensures ProductFromBody(body).None?
  {
  }

  /** The optional fields never decide whether a product body is accepted. */
  lemma ProductOptionalFields(body: Body)
    ensures ProductFromBody(body - {"description", "product_category_id"}).Some? == ProductFromBody(body).Some?
  {
    OnlyRequiredKeysDecide(body - {"description", "product_category_id"}, body, ProductRequired);
  }

  /**
   * `update_product`'s merge: name, price and brand take the body's value
   * when present; description and category are never changed by a PATCH.
   */
  function MergeProduct(p: Product, body: Body): (r: Product)
    ensures r.name == (if "name" in body then body["name"] else p.name)
    ensures r.price == (if "price" in body then body["price"] else p.price)
    ensures r.brand == (if "brand" in body then body["brand"] else p.brand)
    ensures r.id == p.id && r.description == p.description && r.productCategory == p.productCategory
  {
    p.(name := Get(body, "name", p.name), price := Get(body, "price", p.price), brand := Get(body, "brand", p.brand))
  }

  /** A present `null` overwrites: PATCH does not skip null values. */
  lemma MergeTakesNull(p: Product, c: Customer)
    ensures MergeProduct(p, map["price" := Null]).price == Null
    ensures MergeCustomer(c, map["address" := Null]).address == Null
  {
    assert FormatCustomer(MergeCustomer(c, map["address" := Null]))["address"] == Null;
  }
}
