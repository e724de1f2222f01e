/**
 * The record kinds of the store, their constructors with the defaults the
 * model classes give, the `format` projection each kind uses for transport,
 * and the rendering of an order's line items.
 *
 * A record's `id` is `None` until the store assigns a primary key on insert.
 * Columns are typed in the store, but the handlers pass decoded JSON
 * straight through, so every other field holds a JSON value.
 */
module Records {
  import opened Wrappers
  import opened Json
  import opened Text

  datatype Brand = Brand(id: Option<int>, name: Value, catchphrase: Value)

  datatype ProductCategory = ProductCategory(id: Option<int>, name: Value, description: Value)

  /** `brand` and `productCategory` are foreign keys. */
  datatype Product = Product(
    id: Option<int>, name: Value, price: Value, brand: Value, description: Value, productCategory: Value)

  datatype Customer = Customer(id: Option<int>, name: Value, email: Value, address: Value)

  /**
   * `customer` is a foreign key. `datetime` and `status` are never set by the
   * constructor: `Null` stands for "not set yet" until the store applies the
   * column defaults on insert.
   */
  datatype Order = Order(
    id: Option<int>, customer: Value, itemsJson: Value, cost: Value, datetime: Value, status: Value)

  /** A primary key as it appears in a formatted record: `null` before insert. */
  function IdValue(id: Option<int>): Value
  {
    match id
    case None => Null
    case Some(k) => Int(k)
  }

  /** Reads a formatted primary key back. */
  function ValueId(v: Value): Option<int>
  {
    if v.Int? then Some(v.i) else None
  }

  lemma IdRoundTrip(id: Option<int>)
    ensures ValueId(IdValue(id)) == id
  {
  }

  // Constructors. Optional arguments carry the model classes' defaults.

  function NewBrand(name: Value, catchphrase: Value := Str("")): Brand
  {
    Brand(None, name, catchphrase)
  }

  function NewProductCategory(name: Value, description: Value := Str("")): ProductCategory
  {
    ProductCategory(None, name, description)
  }

  function NewProduct(name: Value, price: Value, brand: Value, description: Value, productCategory: Value): Product
  {
    Product(None, name, price, brand, description, productCategory)
  }

  function NewCustomer(name: Value, email: Value, address: Value): Customer
  {
    Customer(None, name, email, address)
  }

  /** The constructor sets the customer, the items and the cost; nothing else. */
  function NewOrder(customer: Value, itemsJson: Value, cost: Value): Order
  {
    Order(None, customer, itemsJson, cost, Null, Null)
  }

  /**
   * Constructors copy their arguments, leave the key unset, and default the
   * brand's catchphrase and the category's description to the empty string.
   */
  lemma ConstructorDefaults(name: Value, text: Value)
    ensures NewBrand(name).catchphrase == Str("") && NewBrand(name, text).catchphrase == text
    ensures NewProductCategory(name).description == Str("") && NewProductCategory(name, text).description == text
    ensures NewBrand(name).id.None? && NewBrand(name).name == name
    ensures NewProductCategory(name).id.None? && NewProductCategory(name).name == name
  {
  }

  /**
   * The column defaults the store fills in on insert for order columns that
   * were not set: items `"{}"`, cost `0.0`, the insertion time `now` (a
   * parameter: the clock is outside the model) and status `"pending"`.
   */
  function WithOrderDefaults(o: Order, now: Value): Order
  {
    o.(itemsJson := if o.itemsJson == Null then Str("{}") else o.itemsJson,
       cost := if o.cost == Null then Float(0.0) else o.cost,
       datetime := if o.datetime == Null then now else o.datetime,
       status := if o.status == Null then Str("pending") else o.status)
  }

  /**
   * Columns left unset take the declared defaults: items `"{}"`, cost `0.0`,
   * the insertion time and status `"pending"`; the customer is kept.
   */
  lemma OrderColumnDefaults(customer: Value, now: Value)
    ensures WithOrderDefaults(NewOrder(customer, Null, Null), now).itemsJson == Str("{}")
    ensures WithOrderDefaults(NewOrder(customer, Null, Null), now).cost == Float(0.0)
    ensures WithOrderDefaults(NewOrder(customer, Null, Null), now).datetime == now
    ensures WithOrderDefaults(NewOrder(customer, Null, Null), now).status == Str("pending")
    ensures WithOrderDefaults(NewOrder(customer, Null, Null), now).customer == customer
  {
  }

  /** A freshly constructed order is stored as pending, with the given items and cost. */
  lemma NewOrderIsPending(customer: Value, itemsJson: Value, cost: Value, now: Value)
    requires itemsJson != Null && cost != Null
    ensures WithOrderDefaults(NewOrder(customer, itemsJson, cost), now).status == Str("pending")
    ensures WithOrderDefaults(NewOrder(customer, itemsJson, cost), now).itemsJson == itemsJson
    ensures WithOrderDefaults(NewOrder(customer, itemsJson, cost), now).cost == cost
    ensures WithOrderDefaults(NewOrder(customer, itemsJson, cost), now).datetime == now
  {
  }

  // format(): each record's fields under their names.

  function FormatBrand(b: Brand): map<string, Value>
  {
    map["id" := IdValue(b.id), "name" := b.name, "catchphrase" := b.catchphrase]
  }

  function FormatProductCategory(c: ProductCategory): map<string, Value>
  {
    map["id" := IdValue(c.id), "name" := c.name, "description" := c.description]
  }

  function FormatCustomer(c: Customer): map<string, Value>
  {
    map["id" := IdValue(c.id), "name" := c.name, "email" := c.email, "address" := c.address]
  }

  function FormatOrder(o: Order): map<string, Value>
  {
    map["id" := IdValue(o.id), "customer" := o.customer, "items_json" := o.itemsJson,
        "cost" := o.cost, "datetime" := o.datetime, "status" := o.status]
  }

  // Reading a formatted record back: `format` loses nothing.

  function ParseBrand(m: map<string, Value>): Brand
    requires {"id", "name", "catchphrase"} <= m.Keys
  {
    Brand(ValueId(m["id"]), m["name"], m["catchphrase"])
  }

  function ParseProductCategory(m: map<string, Value>): ProductCategory
    requires {"id", "name", "description"} <= m.Keys
  {
    ProductCategory(ValueId(m["id"]), m["name"], m["description"])
  }

  function ParseCustomer(m: map<string, Value>): Customer
    requires {"id", "name", "email", "address"} <= m.Keys
  {
    Customer(ValueId(m["id"]), m["name"], m["email"], m["address"])
  }

  function ParseOrder(m: map<string, Value>): Order
    requires {"id", "customer", "items_json", "cost", "datetime", "status"} <= m.Keys
  {
    Order(ValueId(m["id"]), m["customer"], m["items_json"], m["cost"], m["datetime"], m["status"])
  }

  // Each `format` is a field-for-field copy: exactly the record's fields,
  // under their names, from which the record reads back unchanged.

  lemma BrandFormatRoundTrip(b: Brand)
    ensures FormatBrand(b).Keys == {"id", "name", "catchphrase"}
    ensures ParseBrand(FormatBrand(b)) == b
  {
    IdRoundTrip(b.id);
  }

  lemma ProductCategoryFormatRoundTrip(c: ProductCategory)
    ensures FormatProductCategory(c).Keys == {"id", "name", "description"}
    ensures ParseProductCategory(FormatProductCategory(c)) == c
  {
    IdRoundTrip(c.id);
  }

  lemma CustomerFormatRoundTrip(c: Customer)
    ensures FormatCustomer(c).Keys == {"id", "name", "email", "address"}
    ensures ParseCustomer(FormatCustomer(c)) == c
  {
    IdRoundTrip(c.id);
  }

  lemma OrderFormatRoundTrip(o: Order)
    ensures FormatOrder(o).Keys == {"id", "customer", "items_json", "cost", "datetime", "status"}
    ensures ParseOrder(FormatOrder(o)) == o
  {
    IdRoundTrip(o.id);
  }

  // pretty_print_items(): one "<name> x<quantity>" per item, joined by ", ".

  /** One line item of an order: its name and its quantity. */
  type Item = (string, int)

  function ItemText(item: Item): string
  {
    item.0 + " x" + IntToString(item.1)
  }

  /** The items' texts joined with `", "`, in list order. */
  function JoinItems(items: seq<Item>): string
    decreases |items|
  {
    if |items| == 0 then ""
    else if |items| == 1 then ItemText(items[0])
    else JoinItems(items[..|items| - 1]) + ", " + ItemText(items[|items| - 1])
  }

  /** Read from the front: the first item's text, then the rest after a separator. */
  lemma {:induction false} JoinItemsFront(items: seq<Item>)
    requires |items| >= 2
    ensures JoinItems(items) == ItemText(items[0]) + ", " + JoinItems(items[1..])
    decreases |items|
  {
    var n := |items|;
    if n > 2 {
      JoinItemsFront(items[..n - 1]);
      assert items[..n - 1][1..] == items[1..][..n - 2];
      assert items[..n - 1][0] == items[0];
    } else {
      assert items[..1] == [items[0]];
      assert items[1..] == [items[1]];
    }
  }

  /**
   * Nothing trails the last item: the text ends with the last quantity, a
   * digit, never with the separator.
   */
  lemma NoTrailingSeparator(items: seq<Item>)
    requires items != []
    ensures var s := JoinItems(items); |s| > 0 && IsDigit(s[|s| - 1])
  {
    var q := IntToString(items[|items| - 1].1);
    assert JoinItems(items)[|JoinItems(items)| - 1] == q[|q| - 1];
  }

  /**
   * `pretty_print_items` on the parsed item list: appends each item's text
   * followed by `", "`, then cuts the last two characters (`[:-2]`, which
   * yields `""` on a string shorter than two).
   */
  method PrettyPrintItems(items: seq<Item>) returns (s: string)
    ensures s == JoinItems(items)
  {
    var pretty := "";
    for i := 0 to |items|
      invariant pretty == if i == 0 then "" else JoinItems(items[..i]) + ", "
    {
      assert items[..i + 1][..i] == items[..i];
      pretty := pretty + ItemText(items[i]) + ", ";
    }
    s := if |pretty| >= 2 then pretty[..|pretty| - 2] else "";
    assert items[..|items|] == items;
  }
}
