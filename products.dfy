/** The product-management handler: create, read, list, update and delete
    product metadata items under `PRODUCT#<id>` / `METADATA`. */
module Products {
  import opened Wrappers
  import opened Js
  import opened Text
  import opened Store

  /** A stored item: attribute name to value. */
  type Item = map<string, JsValue>

  const Metadata: string := "METADATA"

  function ProductPk(id: string): string {
    "PRODUCT#" + id
  }

  function ProductKey(id: string): Key {
    (ProductPk(id), Metadata)
  }

  /** Every item carries its own key as its `PK` and `SK` attributes. */
  predicate KeysStored(items: map<Key, Item>) {
    forall k :: k in items ==>
      "PK" in items[k] && items[k]["PK"] == Str(k.0) && "SK" in items[k] && items[k]["SK"] == Str(k.1)
  }

  /** A parsed request body; properties absent from it are `Undefined`. */
  datatype ProductBody = ProductBody(product_id: JsValue, name: JsValue, category: JsValue, current_price: JsValue)

  datatype ProductReply =
    | Preflight
    | MethodNotAllowed
    | InternalError
    | MissingFields
    | Created(product: Item)
    | NotFound
    | Found(product: Item)
    | ProductList(products: seq<Item>)
    | Updated(product: Item)
    | Deleted
  {
    function StatusCode(): int {
      match this
      case Preflight => 200
      case MethodNotAllowed => 405
      case InternalError => 500
      case MissingFields => 400
      case Created(_) => 201
      case NotFound => 404
      case Found(_) => 200
      case ProductList(_) => 200
      case Updated(_) => 200
      case Deleted => 200
    }
  }

  // ---------------------------------------------------------------------
  // createProduct

  predicate HasRequiredFields(body: ProductBody) {
    Truthy(body.product_id) && Truthy(body.name) && Truthy(body.category) && Truthy(body.current_price)
  }

  /** The item `createProduct` writes. */
  function NewProduct(body: ProductBody, rt: Runtime, now: string): (item: Item)
    ensures item.Keys == {"PK", "SK", "product_id", "name", "category", "current_price", "created_at", "updated_at"}
    ensures item["PK"] == Str(ProductPk(ToText(body.product_id, rt))) && item["SK"] == Str(Metadata)
    ensures item["created_at"] == item["updated_at"] == Str(now)
    ensures item["product_id"] == body.product_id && item["name"] == body.name
    ensures item["category"] == body.category
    ensures item["current_price"] == ToNumber(body.current_price, rt)
  {
    map[
      "PK" := Str(ProductPk(ToText(body.product_id, rt))),
      "SK" := Str(Metadata),
      "product_id" := body.product_id,
      "name" := body.name,
      "category" := body.category,
      "current_price" := ToNumber(body.current_price, rt),
      "created_at" := Str(now),
      "updated_at" := Str(now)]
  }

  /** Whether `marshall` accepts the body's values as `createProduct` stores
      them: the id, name and category as given, the price through `Number()`. */
  predicate CreateStorable(body: ProductBody, rt: Runtime) {
    && Marshallable(body.product_id) && Marshallable(body.name) && Marshallable(body.category)
    && Marshallable(ToNumber(body.current_price, rt))
  }

  /** `marshall` accepts the new item exactly when it accepts the body's
      values: the key and timestamps are strings. */
  lemma NewProductStorable(body: ProductBody, rt: Runtime, now: string)
    ensures AllMarshallable(NewProduct(body, rt, now)) <==> CreateStorable(body, rt)
  {
  }

  /** createProduct: all four fields must be truthy (a price of 0 is refused);
      the item then replaces whatever was stored under the id.  A value
      `marshall` refuses (a price `Number()` turns into NaN, or a number
      beyond the safe-integer range) makes it throw: a 500, nothing written. */
  method CreateProduct(products: Table<Item>, body: ProductBody, rt: Runtime, now: string)
    returns (reply: ProductReply)
    modifies products
    ensures !HasRequiredFields(body) ==> reply == MissingFields && products.items == old(products.items)
    ensures HasRequiredFields(body) && ToNumber(body.current_price, rt).NaN? ==>
      reply == InternalError && products.items == old(products.items)
    ensures HasRequiredFields(body) && !CreateStorable(body, rt) ==>
      reply == InternalError && products.items == old(products.items)
    ensures HasRequiredFields(body) && CreateStorable(body, rt) ==>
      && reply == Created(NewProduct(body, rt, now))
      && products.items == old(products.items)[ProductKey(ToText(body.product_id, rt)) := NewProduct(body, rt, now)]
  {
    if !HasRequiredFields(body) {
      return MissingFields;
    }
    var item := NewProduct(body, rt, now);
    NewProductStorable(body, rt, now);
    if !AllMarshallable(item) {
      return InternalError;
    }
    products.Put(ProductKey(ToText(body.product_id, rt)), item);
    reply := Created(item);
  }

  /** Creating keeps every item carrying its own key. */
  lemma CreateKeepsKeysStored(items: map<Key, Item>, body: ProductBody, rt: Runtime, now: string)
    requires KeysStored(items)
    ensures KeysStored(items[ProductKey(ToText(body.product_id, rt)) := NewProduct(body, rt, now)])
  {
  }

  // ---------------------------------------------------------------------
  // getProduct, getAllProducts, deleteProduct

  /** getProduct: 404 exactly when no item is stored under the id. */
  method GetProduct(products: Table<Item>, id: string) returns (reply: ProductReply)
    ensures reply == NotFound <==> ProductKey(id) !in products.items
    ensures ProductKey(id) in products.items ==> reply == Found(products.items[ProductKey(id)])
  {
    var r := products.Get(ProductKey(id));
    match r
    case None => reply := NotFound;
    case Some(item) => reply := Found(item);
  }

  /** `rows` lists every product item once, each under its key in `keys`. */
  ghost predicate Listing(items: map<Key, Item>, keys: seq<Key>, rows: seq<Item>) {
    && |rows| == |keys|
    && (forall k :: k in keys <==> k in items && k.1 == Metadata)
    && (forall i, j :: 0 <= i < j < |keys| ==> keys[i] != keys[j])
    && (forall i :: 0 <= i < |keys| ==> keys[i] in items && rows[i] == items[keys[i]])
  }

  /** getAllProducts: a Scan filtered on `SK = METADATA`; the items come in
      an order the model leaves open. */
  method GetAllProducts(products: Table<Item>) returns (reply: ProductReply, ghost keys: seq<Key>)
    ensures reply.ProductList? && |reply.products| == |keys|
    ensures forall k :: k in keys <==> k in products.items && k.1 == Metadata
    ensures forall i, j :: 0 <= i < j < |keys| ==> keys[i] != keys[j]
    ensures forall i :: 0 <= i < |keys| ==> keys[i] in products.items && reply.products[i] == products.items[keys[i]]
    ensures Listing(products.items, keys, reply.products)
  {
    var rows;
    keys, rows := products.ScanSortKey(Metadata);
    reply := ProductList(rows);
  }

  /** deleteProduct: removes only the product's key and answers 200 whether
      or not it was there. */
  method DeleteProduct(products: Table<Item>, id: string) returns (reply: ProductReply)
    modifies products
    ensures reply == Deleted && reply.StatusCode() == 200
    ensures products.items == old(products.items) - {ProductKey(id)}
    ensures forall k :: k in old(products.items) && k != ProductKey(id) ==>
      k in products.items && products.items[k] == old(products.items)[k]
  {
    products.Delete(ProductKey(id));
    reply := Deleted;
  }

  // ---------------------------------------------------------------------
  // updateProduct

  /** One `attribute = :placeholder` element of the SET list. */
  datatype Clause = Clause(attr: string, placeholder: string)

  function ClauseText(c: Clause): string {
    c.attr + " = " + c.placeholder
  }

  const NameClause := Clause("#name", ":name")
  const CategoryClause := Clause("category", ":category")
  const PriceClause := Clause("current_price", ":price")
  const UpdatedAtClause := Clause("updated_at", ":updated_at")

  /** The pieces of the UpdateItem request. */
  datatype UpdateParams = UpdateParams(clauses: seq<Clause>, names: map<string, string>, values: map<string, JsValue>)

  /** The position of a clause in the order `updateProduct` pushes them. */
  function ClauseRank(c: Clause): nat {
    if c == NameClause then 0 else if c == CategoryClause then 1 else if c == PriceClause then 2 else 3
  }

  /** The SET clauses, in push order and each at most once: the name clause
      iff the name is truthy, the category clause iff the category is
      truthy, the price clause iff a price is given at all (so 0 and null
      are written), and always `updated_at` last, so the list is never
      empty. */
  function PlanClauses(body: ProductBody): (cs: seq<Clause>)
    ensures forall i, j :: 0 <= i < j < |cs| ==> ClauseRank(cs[i]) < ClauseRank(cs[j])
    ensures |cs| >= 1 && cs[|cs| - 1] == UpdatedAtClause
    ensures NameClause in cs <==> Truthy(body.name)
    ensures CategoryClause in cs <==> Truthy(body.category)
    ensures PriceClause in cs <==> !body.current_price.Undefined?
    ensures forall c :: c in cs ==> c in {NameClause, CategoryClause, PriceClause, UpdatedAtClause}
  {
    (if Truthy(body.name) then [NameClause] else []) +
    (if Truthy(body.category) then [CategoryClause] else []) +
    (if !body.current_price.Undefined? then [PriceClause] else []) +
    [UpdatedAtClause]
  }

  /** `ExpressionAttributeNames`: only the `#name` alias, and only with the
      name clause; otherwise the request carries none. */
  function PlanNames(body: ProductBody): (names: map<string, string>)
    ensures names.Keys <= {"#name"}
    ensures names != map[] <==> Truthy(body.name)
    ensures Truthy(body.name) ==> "#name" in names && names["#name"] == "name"
  {
    if Truthy(body.name) then
      var names := map["#name" := "name"];
      assert "#name" in names;
      names
    else map[]
  }

  /** `ExpressionAttributeValues`: a value for each placeholder of a present
      clause and no other, the timestamp always. */
  function PlanValues(body: ProductBody, rt: Runtime, now: string): (values: map<string, JsValue>)
    ensures values.Keys <= {":name", ":category", ":price", ":updated_at"}
    ensures ":name" in values <==> Truthy(body.name)
    ensures ":category" in values <==> Truthy(body.category)
    ensures ":price" in values <==> !body.current_price.Undefined?
    ensures ":updated_at" in values && values[":updated_at"] == Str(now)
    ensures ":name" in values ==> values[":name"] == body.name
    ensures ":category" in values ==> values[":category"] == body.category
    ensures ":price" in values ==> values[":price"] == ToNumber(body.current_price, rt)
  {
    var v0: map<string, JsValue> := if Truthy(body.name) then map[":name" := body.name] else map[];
    var v1 := if Truthy(body.category) then v0[":category" := body.category] else v0;
    var v2 := if !body.current_price.Undefined? then v1[":price" := ToNumber(body.current_price, rt)] else v1;
    v2[":updated_at" := Str(now)]
  }

  /** The request `updateProduct` builds: every placeholder a clause uses is
      bound, and every `#` alias a clause uses is defined. */
  function PlanUpdate(body: ProductBody, rt: Runtime, now: string): (p: UpdateParams)
    ensures p.clauses == PlanClauses(body) && p.names == PlanNames(body) && p.values == PlanValues(body, rt, now)
    ensures forall c :: c in p.clauses ==> c.placeholder in p.values
    ensures forall c :: c in p.clauses && |c.attr| > 0 && c.attr[0] == '#' ==> c.attr in p.names
  {
    UpdateParams(PlanClauses(body), PlanNames(body), PlanValues(body, rt, now))
  }

  function RenderClauses(cs: seq<Clause>): (texts: seq<string>)
    ensures |texts| == |cs|
    ensures forall i :: 0 <= i < |cs| ==> texts[i] == ClauseText(cs[i])
  {
    seq(|cs|, i requires 0 <= i < |cs| => ClauseText(cs[i]))
  }

  lemma RenderSnoc(cs: seq<Clause>, c: Clause)
    ensures RenderClauses(cs + [c]) == RenderClauses(cs) + [ClauseText(c)]
  {
  }

  /** The successive pushes and assignments of `updateProduct`. */
  method BuildUpdate(body: ProductBody, rt: Runtime, now: string)
    returns (clauses: seq<string>, names: map<string, string>, values: map<string, JsValue>)
    ensures clauses == RenderClauses(PlanClauses(body))
    ensures names == PlanNames(body)
    ensures values == PlanValues(body, rt, now)
  {
    ghost var cs: seq<Clause> := [];
    clauses, names, values := [], map[], map[];
    if Truthy(body.name) {
      RenderSnoc(cs, NameClause);
      clauses, cs := clauses + [ClauseText(NameClause)], cs + [NameClause];
      names := names["#name" := "name"];
      values := values[":name" := body.name];
    }
    if Truthy(body.category) {
      RenderSnoc(cs, CategoryClause);
      clauses, cs := clauses + [ClauseText(CategoryClause)], cs + [CategoryClause];
      values := values[":category" := body.category];
    }
    if !body.current_price.Undefined? {
      RenderSnoc(cs, PriceClause);
      clauses, cs := clauses + [ClauseText(PriceClause)], cs + [PriceClause];
      values := values[":price" := ToNumber(body.current_price, rt)];
    }
    RenderSnoc(cs, UpdatedAtClause);
    clauses, cs := clauses + [ClauseText(UpdatedAtClause)], cs + [UpdatedAtClause];
    values := values[":updated_at" := Str(now)];
    assert cs == PlanClauses(body);
    assert names == PlanNames(body);
  }

  /** The attribute a clause writes, with `#` aliases resolved. */
  function ResolvedAttr(c: Clause, names: map<string, string>): string {
    if c.attr in names then names[c.attr] else c.attr
  }

  /** The attributes the SET clauses assign, in clause order. */
  function Assignments(cs: seq<Clause>, p: UpdateParams): (m: map<string, JsValue>)
    requires forall c :: c in cs ==> c.placeholder in p.values
    ensures forall c :: c in cs ==> ResolvedAttr(c, p.names) in m
  {
    if cs == [] then map[]
    else
      var last := cs[|cs| - 1];
      var init := cs[..|cs| - 1];
      assert forall c :: c in init ==> c in cs;
      Assignments(init, p)[ResolvedAttr(last, p.names) := p.values[last.placeholder]]
  }

  /** The item after UpdateItem: the stored item, or a fresh item holding
      only its key when none is stored (UpdateItem creates it), with the
      assignments applied over it. */
  function UpdatedItem(stored: Option<Item>, k: Key, p: UpdateParams): Item
    requires forall c :: c in p.clauses ==> c.placeholder in p.values
  {
    BaseItem(stored, k) + Assignments(p.clauses, p)
  }

  /** The item an update starts from. */
  function BaseItem(stored: Option<Item>, k: Key): (base: Item)
    ensures stored.None? ==> base.Keys == {"PK", "SK"} && base["PK"] == Str(k.0) && base["SK"] == Str(k.1)
  {
    match stored
    case Some(item) => item
    case None => map["PK" := Str(k.0), "SK" := Str(k.1)]
  }

  /** Whether the update of `body` writes attribute `a`. */
  predicate Writes(body: ProductBody, a: string) {
    || (a == "name" && Truthy(body.name))
    || (a == "category" && Truthy(body.category))
    || (a == "current_price" && !body.current_price.Undefined?)
    || a == "updated_at"
  }

  /** An attribute the update does not write keeps its value: `created_at`,
      the key, and a name or category given falsy. */
  lemma UpdateKeepsAttr(stored: Option<Item>, k: Key, body: ProductBody, rt: Runtime, now: string, a: string)
    requires !Writes(body, a)
    requires a in BaseItem(stored, k)
    ensures var item := UpdatedItem(stored, k, PlanUpdate(body, rt, now));
      a in item && item[a] == BaseItem(stored, k)[a]
  {
    var p := PlanUpdate(body, rt, now);
    PlanResolves(body, rt, now);
    AssignmentsUntouched(p.clauses, p, a);
  }

  /** An attribute no clause resolves to is not assigned. */
  lemma {:induction false} AssignmentsUntouched(cs: seq<Clause>, p: UpdateParams, a: string)
    requires forall c :: c in cs ==> c.placeholder in p.values
    requires forall c :: c in cs ==> ResolvedAttr(c, p.names) != a
    ensures a !in Assignments(cs, p)
  {
    if cs != [] {
      var init := cs[..|cs| - 1];
      assert forall c :: c in init ==> c in cs;
      AssignmentsUntouched(init, p, a);
    }
  }

  /** The only clause resolving to an attribute assigns it its placeholder's value. */
  lemma {:induction false} AssignmentsSole(cs: seq<Clause>, p: UpdateParams, c: Clause)
    requires forall d :: d in cs ==> d.placeholder in p.values
    requires c in cs
    requires forall d :: d in cs && ResolvedAttr(d, p.names) == ResolvedAttr(c, p.names) ==> d == c
    ensures ResolvedAttr(c, p.names) in Assignments(cs, p)
    ensures Assignments(cs, p)[ResolvedAttr(c, p.names)] == p.values[c.placeholder]
  {
    var init := cs[..|cs| - 1];
    var last := cs[|cs| - 1];
    assert cs == init + [last];
    assert forall d :: d in init ==> d in cs;
    if last != c {
      AssignmentsSole(init, p, c);
    }
  }

  /** The attribute each planned clause writes. */
  lemma PlanResolves(body: ProductBody, rt: Runtime, now: string)
    ensures var p := PlanUpdate(body, rt, now);
      && (Truthy(body.name) ==> ResolvedAttr(NameClause, p.names) == "name")
      && ResolvedAttr(CategoryClause, p.names) == "category"
      && ResolvedAttr(PriceClause, p.names) == "current_price"
      && ResolvedAttr(UpdatedAtClause, p.names) == "updated_at"
      && forall c :: c in p.clauses ==> c in {NameClause, CategoryClause, PriceClause, UpdatedAtClause}
  {
  }

  /** No two planned clauses write the same attribute. */
  lemma PlanClausesDistinct(body: ProductBody, c: Clause)
    requires c in PlanClauses(body)
    ensures forall d :: d in PlanClauses(body) && ResolvedAttr(d, PlanNames(body)) == ResolvedAttr(c, PlanNames(body)) ==> d == c
  {
    var names := PlanNames(body);
    assert ResolvedAttr(CategoryClause, names) == "category";
    assert ResolvedAttr(PriceClause, names) == "current_price";
    assert ResolvedAttr(UpdatedAtClause, names) == "updated_at";
    assert NameClause in PlanClauses(body) ==> ResolvedAttr(NameClause, names) == "name";
  }

  /** Each attribute is written by one clause only: along the clause list,
      the attributes written are pairwise different. */
  lemma PlanAttrsDistinct(body: ProductBody)
    ensures forall i, j :: 0 <= i < j < |PlanClauses(body)| ==>
      ResolvedAttr(PlanClauses(body)[i], PlanNames(body)) != ResolvedAttr(PlanClauses(body)[j], PlanNames(body))
  {
    var cs := PlanClauses(body);
    forall i, j | 0 <= i < j < |cs| ensures ResolvedAttr(cs[i], PlanNames(body)) != ResolvedAttr(cs[j], PlanNames(body)) {
      assert ClauseRank(cs[i]) < ClauseRank(cs[j]);
      PlanClausesDistinct(body, cs[j]);
    }
  }

  /** Each planned clause leaves its placeholder's value in the item. */
  lemma UpdateWritesClause(stored: Option<Item>, k: Key, body: ProductBody, rt: Runtime, now: string, c: Clause)
    requires c in PlanUpdate(body, rt, now).clauses
    ensures var p := PlanUpdate(body, rt, now);
      var item := UpdatedItem(stored, k, p);
      ResolvedAttr(c, p.names) in item && item[ResolvedAttr(c, p.names)] == p.values[c.placeholder]
  {
    var p := PlanUpdate(body, rt, now);
    PlanClausesDistinct(body, c);
    AssignmentsSole(p.clauses, p, c);
  }

  /** What an update writes: `updated_at` is the new timestamp, name and
      category when truthy, the price (through `Number()`) whenever given. */
  lemma UpdateWrites(stored: Option<Item>, k: Key, body: ProductBody, rt: Runtime, now: string)
    ensures var item := UpdatedItem(stored, k, PlanUpdate(body, rt, now));
      && "updated_at" in item && item["updated_at"] == Str(now)
      && (Truthy(body.name) ==> "name" in item && item["name"] == body.name)
      && (Truthy(body.category) ==> "category" in item && item["category"] == body.category)
      && (!body.current_price.Undefined? ==>
            "current_price" in item && item["current_price"] == ToNumber(body.current_price, rt))
  {
    PlanResolves(body, rt, now);
    UpdateWritesClause(stored, k, body, rt, now, UpdatedAtClause);
    if Truthy(body.name) {
      UpdateWritesClause(stored, k, body, rt, now, NameClause);
    }
    if Truthy(body.category) {
      UpdateWritesClause(stored, k, body, rt, now, CategoryClause);
    }
    if !body.current_price.Undefined? {
      UpdateWritesClause(stored, k, body, rt, now, PriceClause);
    }
  }

  /** Storing an item that carries its key keeps every item carrying its own key. */
  lemma KeysStoredPut(items: map<Key, Item>, k: Key, item: Item)
    requires KeysStored(items)
    requires "PK" in item && item["PK"] == Str(k.0) && "SK" in item && item["SK"] == Str(k.1)
    ensures KeysStored(items[k := item])
  {
  }

  /** An updated item carries the key of the item it updates, or the key it
      was created under. */
  lemma UpdatedItemKeepsKey(stored: Option<Item>, k: Key, body: ProductBody, rt: Runtime, now: string)
    requires stored.Some? ==> "PK" in stored.value && stored.value["PK"] == Str(k.0)
    requires stored.Some? ==> "SK" in stored.value && stored.value["SK"] == Str(k.1)
    ensures var item := UpdatedItem(stored, k, PlanUpdate(body, rt, now));
      "PK" in item && item["PK"] == Str(k.0) && "SK" in item && item["SK"] == Str(k.1)
  {
    UpdateKeepsAttr(stored, k, body, rt, now, "PK");
    UpdateKeepsAttr(stored, k, body, rt, now, "SK");
  }

  /** Updating keeps every item carrying its own key. */
  lemma UpdateKeepsKeysStored(items: map<Key, Item>, id: string, body: ProductBody, rt: Runtime, now: string)
    requires KeysStored(items)
    ensures var k := ProductKey(id);
      var stored := if k in items then Some(items[k]) else None;
      KeysStored(items[k := UpdatedItem(stored, k, PlanUpdate(body, rt, now))])
  {
    var k := ProductKey(id);
    var stored := if k in items then Some(items[k]) else None;
    UpdatedItemKeepsKey(stored, k, body, rt, now);
    KeysStoredPut(items, k, UpdatedItem(stored, k, PlanUpdate(body, rt, now)));
  }

  /** Whether `marshall` accepts the update's values: the name and category
      when truthy, the price through `Number()` when given. */
  predicate UpdateStorable(body: ProductBody, rt: Runtime) {
    && (Truthy(body.name) ==> Marshallable(body.name))
    && (Truthy(body.category) ==> Marshallable(body.category))
    && (!body.current_price.Undefined? ==> Marshallable(ToNumber(body.current_price, rt)))
  }

  /** `marshall` accepts the planned values exactly when it accepts the
      body's values the update writes: the timestamp is a string. */
  lemma PlanValuesStorable(body: ProductBody, rt: Runtime, now: string)
    ensures AllMarshallable(PlanValues(body, rt, now)) <==> UpdateStorable(body, rt)
  {
  }

  /** updateProduct: an upsert of the planned SET clauses under the id.  A
      value `marshall` refuses (a price `Number()` turns into NaN, or a
      number beyond the safe-integer range) makes it throw: a 500 with
      nothing written. */
  method UpdateProduct(products: Table<Item>, id: string, body: ProductBody, rt: Runtime, now: string)
    returns (reply: ProductReply)
    modifies products
    ensures !body.current_price.Undefined? && ToNumber(body.current_price, rt).NaN? ==>
      reply == InternalError && products.items == old(products.items)
    ensures !UpdateStorable(body, rt) ==> reply == InternalError && products.items == old(products.items)
    ensures UpdateStorable(body, rt) ==>
      var k := ProductKey(id);
      var stored := if k in old(products.items) then Some(old(products.items)[k]) else None;
      var item := UpdatedItem(stored, k, PlanUpdate(body, rt, now));
      && reply == Updated(item)
      && products.items == old(products.items)[k := item]
  {
    var clauses, names, values := BuildUpdate(body, rt, now);
    PlanValuesStorable(body, rt, now);
    if !AllMarshallable(values) {
      return InternalError;
    }
    var k := ProductKey(id);
    var stored := products.Get(k);
    var item := UpdatedItem(stored, k, UpdateParams(PlanUpdate(body, rt, now).clauses, names, values));
    products.Put(k, item);
    reply := Updated(item);
  }

  // ---------------------------------------------------------------------
  // handler

  /** `httpMethod`, `pathParameters.id` ("" when absent) and the body,
      `None` when `JSON.parse` throws or gives null. */
  datatype ProductEvent = ProductEvent(httpMethod: string, idParam: string, body: Option<ProductBody>)

  /** The Lambda entry point.  `None` is the `break` taken by PUT or DELETE
      without an id: the handler then returns no response at all. */
  method Handle(products: Table<Item>, event: ProductEvent, rt: Runtime, now: string)
    returns (reply: Option<ProductReply>)
    modifies products
    ensures event.httpMethod !in {"OPTIONS", "GET", "POST", "PUT", "DELETE"} ==>
      reply == Some(MethodNotAllowed) && products.items == old(products.items)
    ensures event.httpMethod == "OPTIONS" ==> reply == Some(Preflight)
    ensures reply.None? <==> event.httpMethod in {"PUT", "DELETE"} && event.idParam == ""
    ensures reply.None? ==> products.items == old(products.items)
    ensures event.httpMethod in {"OPTIONS", "GET"} ==> products.items == old(products.items)
    ensures event.httpMethod == "GET" && event.idParam == "" ==> reply.Some? && reply.value.ProductList?
    ensures event.httpMethod == "POST" && event.body.None? ==>
      reply == Some(InternalError) && products.items == old(products.items)
    ensures event.httpMethod == "GET" && event.idParam != "" ==>
      var k := ProductKey(event.idParam);
      reply == Some(if k in old(products.items) then Found(old(products.items)[k]) else NotFound)
    ensures event.httpMethod == "GET" && event.idParam == "" ==>
      reply.Some? && reply.value.ProductList? && exists keys :: Listing(old(products.items), keys, reply.value.products)
    ensures event.httpMethod == "POST" && event.body.Some? ==>
      var body := event.body.value;
      && (!HasRequiredFields(body) ==> reply == Some(MissingFields) && products.items == old(products.items))
      && (HasRequiredFields(body) && !CreateStorable(body, rt) ==>
            reply == Some(InternalError) && products.items == old(products.items))
      && (HasRequiredFields(body) && CreateStorable(body, rt) ==>
            && reply == Some(Created(NewProduct(body, rt, now)))
            && products.items == old(products.items)[ProductKey(ToText(body.product_id, rt)) := NewProduct(body, rt, now)])
    ensures event.httpMethod == "PUT" && event.idParam != "" && event.body.None? ==>
      reply == Some(InternalError) && products.items == old(products.items)
    ensures event.httpMethod == "PUT" && event.idParam != "" && event.body.Some? ==>
      var body := event.body.value;
      var k := ProductKey(event.idParam);
      var stored := if k in old(products.items) then Some(old(products.items)[k]) else None;
      var item := UpdatedItem(stored, k, PlanUpdate(body, rt, now));
      && (!UpdateStorable(body, rt) ==>
            reply == Some(InternalError) && products.items == old(products.items))
      && (UpdateStorable(body, rt) ==>
            reply == Some(Updated(item)) && products.items == old(products.items)[k := item])
    ensures event.httpMethod == "DELETE" && event.idParam != "" ==>
      reply == Some(Deleted) && products.items == old(products.items) - {ProductKey(event.idParam)}
  {
    var r: ProductReply;
    match event.httpMethod {
      case "OPTIONS" =>
        r := Preflight;
      case "GET" =>
        if event.idParam != "" {
          r := GetProduct(products, event.idParam);
        } else {
          ghost var keys;
          r, keys := GetAllProducts(products);
        }
      case "POST" =>
        if event.body.None? {
          return Some(InternalError);
        }
        r := CreateProduct(products, event.body.value, rt, now);
      case "PUT" =>
        if event.idParam == "" {
          return None;
        }
        if event.body.None? {
          return Some(InternalError);
        }
        r := UpdateProduct(products, event.idParam, event.body.value, rt, now);
      case "DELETE" =>
        if event.idParam == "" {
          return None;
        }
        r := DeleteProduct(products, event.idParam);
      case _ =>
        r := MethodNotAllowed;
    }
    reply := Some(r);
  }
}
