/** The product service: an in-memory list of products and the `nextId`
    counter, with the list (optionally filtered by category), get, create,
    update and delete handlers as transitions from one store state to the next. */
module ProductStore {
  import opened Common
  import opened Numbers

  /** Prices are exact reals rather than IEEE doubles. */
  datatype Product = Product(id: int, name: string, price: real, category: string, stock: int, ownerId: int)

  datatype Store = Store(products: seq<Product>, nextId: int)

  /** The JSON body of a create or update request; every field is optional. */
  datatype ProductInput = ProductInput(
    name: Option<string>,
    price: Option<real>,
    category: Option<string>,
    stock: Option<int>,
    ownerId: Option<int>)

  type Reply = Outcome<Store, Product>

  /** The store the service starts with. */
  function Initial(): Store {
    Store([Product(1, "Laptop", 999.99, "Electronics", 50, 1),
           Product(2, "Smartphone", 699.99, "Electronics", 100, 2),
           Product(3, "Coffee Maker", 89.99, "Home", 30, 1),
           Product(4, "Desk Chair", 249.99, "Furniture", 20, 3)],
          5)
  }

  /** Ids are pairwise distinct and all below `nextId`. */
  predicate Valid(s: Store) {
    && (forall i, j :: 0 <= i < j < |s.products| ==> s.products[i].id != s.products[j].id)
    && (forall i :: 0 <= i < |s.products| ==> s.products[i].id < s.nextId)
  }

  function HasId(id: ParsedInt): Product -> bool {
    (p: Product) => id.Int? && p.id == id.value
  }

  function InCategory(category: string): Product -> bool {
    (p: Product) => SameIgnoringCase(p.category, category)
  }

  predicate Present(s: Store, id: ParsedInt) {
    exists i :: 0 <= i < |s.products| && HasId(id)(s.products[i])
  }

  function NotFound(id: ParsedInt): string {
    "Product with ID " + Show(id) + " not found"
  }

  /** Truthiness of the price field: absent and 0 are falsy. */
  predicate PriceGiven(price: Option<real>) {
    price.Some? && price.value != 0.0
  }

  /** GET /api/products?category=c: all products, or when a non-empty
      category is given exactly those whose category equals it ignoring
      case, in store order; `count` is the number returned. */
  function List(s: Store, category: Option<string>): (r: Reply)
    ensures r.status == 200 && r.state == s && r.body.Listing?
    ensures r.body.count == |r.body.items|
    ensures !Filled(category) ==> r.body.items == s.products
    ensures Filled(category) ==> r.body.items == Filter(s.products, InCategory(category.value))
    ensures Filled(category) ==>
              && (forall i :: 0 <= i < |r.body.items| ==>
                    r.body.items[i] in s.products && SameIgnoringCase(r.body.items[i].category, category.value))
              && (forall i :: 0 <= i < |s.products| && SameIgnoringCase(s.products[i].category, category.value) ==>
                    s.products[i] in r.body.items)
  {
    var items := if Filled(category) then Filter(s.products, InCategory(category.value)) else s.products;
    Outcome(200, Listing(|items|, items), s)
  }

  /** GET /api/products/:id: the first product whose id matches, else 404. */
  function Get(s: Store, id: ParsedInt): (r: Reply)
    ensures r.state == s
    ensures r.status == 200 || r.status == 404
    ensures r.status == 200 <==> Present(s, id)
    ensures r.status == 200 ==> r.body.Found? && r.body.record in s.products && id == Int(r.body.record.id)
    ensures r.status == 404 ==> r.body == Error(NotFound(id))
  {
    match FindIndex(s.products, HasId(id))
    case None => Outcome(404, Error(NotFound(id)), s)
    case Some(i) => Outcome(200, Found(s.products[i]), s)
  }

  /** POST /api/products: a name and a non-zero, non-negative price are
      required; category, stock and owner default to "General", 0 and 1. */
  function Create(s: Store, input: ProductInput): (r: Reply)
    ensures r.status in {201, 400}
    ensures r.status == 400 <==> !Filled(input.name) || !PriceGiven(input.price) || input.price.value < 0.0
    ensures r.status == 400 && (!Filled(input.name) || !PriceGiven(input.price)) ==>
              r.body == Error("Name and price are required")
    ensures r.status == 400 && Filled(input.name) && PriceGiven(input.price) ==>
              r.body == Error("Price cannot be negative")
    ensures r.status != 201 ==> r.state == s && r.body.Error?
    ensures r.status == 201 ==>
              && r.body.Changed?
              && r.body.message == "Product created successfully"
              && r.state.products == s.products + [r.body.record]
              && r.state.nextId == s.nextId + 1
              && r.body.record.id == s.nextId
              && r.body.record.name == input.name.value
              && r.body.record.price == input.price.value
              && r.body.record.price > 0.0
              && r.body.record.category == (if Filled(input.category) then input.category.value else "General")
              && r.body.record.stock == (if input.stock.Some? then input.stock.value else 0)
              && r.body.record.ownerId == (if input.ownerId.Some? && input.ownerId.value != 0 then input.ownerId.value else 1)
  {
    if !Filled(input.name) || !PriceGiven(input.price) then
      Outcome(400, Error("Name and price are required"), s)
    else if input.price.value < 0.0 then
      Outcome(400, Error("Price cannot be negative"), s)
    else
      var product := Product(s.nextId, input.name.value, input.price.value,
                             StrOr(input.category, "General"), IntOr(input.stock, 0), IntOr(input.ownerId, 1));
      Outcome(201, Changed("Product created successfully", product),
              Store(s.products + [product], s.nextId + 1))
  }

  /** PUT /api/products/:id: the id is looked up first, then price and stock
      are checked, then the supplied fields are merged in. */
  function Update(s: Store, id: ParsedInt, input: ProductInput): (r: Reply)
    ensures r.status in {200, 400, 404}
    ensures r.status == 404 <==> !Present(s, id)
    ensures r.status == 404 ==> r.body == Error(NotFound(id))
    ensures r.status == 400 <==>
              Present(s, id) && ((input.price.Some? && input.price.value < 0.0) || (input.stock.Some? && input.stock.value < 0))
    ensures r.status == 400 ==>
              r.body == Error(if input.price.Some? && input.price.value < 0.0 then "Price cannot be negative"
                              else "Stock cannot be negative")
    ensures r.status != 200 ==> r.state == s && r.body.Error?
    ensures r.status == 200 ==>
              exists i :: (0 <= i < |s.products| && HasId(id)(s.products[i]) && UpdatedAt(s, r.state, i, input)
                           && r.body == Changed("Product updated successfully", r.state.products[i]))
  {
    match FindIndex(s.products, HasId(id))
    case None => Outcome(404, Error(NotFound(id)), s)
    case Some(i) =>
      if input.price.Some? && input.price.value < 0.0 then
        Outcome(400, Error("Price cannot be negative"), s)
      else if input.stock.Some? && input.stock.value < 0 then
        Outcome(400, Error("Stock cannot be negative"), s)
      else
        var cur := s.products[i];
        var updated := Product(
          cur.id,
          StrOr(input.name, cur.name),
          if input.price.Some? then input.price.value else cur.price,
          StrOr(input.category, cur.category),
          if input.stock.Some? then input.stock.value else cur.stock,
          IntOr(input.ownerId, cur.ownerId));
        Outcome(200, Changed("Product updated successfully", updated),
                Store(s.products[i := updated], s.nextId))
  }

  /** `t` is `s` with product `i` merged with `input`: same id, each field
      replaced when supplied, and every other product and the counter unchanged. */
  predicate UpdatedAt(s: Store, t: Store, i: int, input: ProductInput)
    requires 0 <= i < |s.products|
  {
    && |t.products| == |s.products|
    && t.nextId == s.nextId
    && (forall j :: 0 <= j < |s.products| && j != i ==> t.products[j] == s.products[j])
    && var p, q := s.products[i], t.products[i];
    && q.id == p.id
    && q.name == (if Filled(input.name) then input.name.value else p.name)
    && q.price == (if input.price.Some? then input.price.value else p.price)
    && q.category == (if Filled(input.category) then input.category.value else p.category)
    && q.stock == (if input.stock.Some? then input.stock.value else p.stock)
    && q.ownerId == (if input.ownerId.Some? && input.ownerId.value != 0 then input.ownerId.value else p.ownerId)
  }

  /** DELETE /api/products/:id: splice the matching product out of the list. */
  function Delete(s: Store, id: ParsedInt): (r: Reply)
    ensures r.status in {200, 404}
    ensures r.status == 404 <==> !Present(s, id)
    ensures r.status == 404 ==> r.state == s && r.body == Error(NotFound(id))
    ensures r.status == 200 ==>
              exists i :: (0 <= i < |s.products| && HasId(id)(s.products[i])
                           && r.state == Store(RemoveAt(s.products, i), s.nextId)
                           && r.body == Changed("Product deleted successfully", s.products[i]))
  {
    match FindIndex(s.products, HasId(id))
    case None => Outcome(404, Error(NotFound(id)), s)
    case Some(i) =>
      Outcome(200, Changed("Product deleted successfully", s.products[i]),
              Store(RemoveAt(s.products, i), s.nextId))
  }

  lemma InitialValid()
    ensures Valid(Initial())
  {
  }

  lemma CreatePreservesValid(s: Store, input: ProductInput)
    requires Valid(s)
    ensures Valid(Create(s, input).state)
  {
    var r := Create(s, input);
    if r.status == 201 {
      assert forall i :: 0 <= i < |s.products| ==> r.state.products[i] == s.products[i];
    }
  }

  lemma UpdatePreservesValid(s: Store, id: ParsedInt, input: ProductInput)
    requires Valid(s)
    ensures Valid(Update(s, id, input).state)
  {
    var r := Update(s, id, input);
    if r.status == 200 {
      var i := FindIndex(s.products, HasId(id)).value;
      assert UpdatedAt(s, r.state, i, input);
    }
  }

  lemma DeletePreservesValid(s: Store, id: ParsedInt)
    requires Valid(s)
    ensures Valid(Delete(s, id).state)
  {
    var r := Delete(s, id);
    if r.status == 200 {
      var i := FindIndex(s.products, HasId(id)).value;
      Splice(s.products, i);
    }
  }

  /** After a delete in a valid store no product carries the deleted id,
      and every other product is still there. */
  lemma DeleteRemovesExactly(s: Store, k: int)
    requires Valid(s)
    ensures forall p :: p in Delete(s, Int(k)).state.products ==> p.id != k
    ensures forall p :: p in s.products && p.id != k ==> p in Delete(s, Int(k)).state.products
  {
    var r := Delete(s, Int(k));
    var t := r.state.products;
    match FindIndex(s.products, HasId(Int(k)))
    case None =>
      assert t == s.products;
    case Some(i) =>
      assert t == RemoveAt(s.products, i);
      Splice(s.products, i);
      forall p | p in t ensures p.id != k {
        var j :| 0 <= j < |t| && t[j] == p;
        var m := if j < i then j else j + 1;
        assert p == s.products[m] && m != i;
        assert s.products[i].id == k;
        assert s.products[m].id != s.products[i].id;
      }
      forall p | p in s.products && p.id != k ensures p in t {
        var j :| 0 <= j < |s.products| && s.products[j] == p;
        var m := if j < i then j else j - 1;
        assert t[m] == p;
      }
  }

  /** The category filter ignores the case of the requested category. */
  lemma ListIgnoresCase(s: Store, c: string)
    requires c != ""
    ensures List(s, Some(c)) == List(s, Some(Lower(c)))
  {
    LowerIdempotent(c);
    assert Lower(c) != "" by { assert |Lower(c)| == |c|; }
    FilterAgrees(s.products, InCategory(c), InCategory(Lower(c)));
  }

  /** A product created successfully shows up at the end of every category
      listing it belongs to, and the listings it does not belong to are
      unchanged. */
  lemma CreateThenList(s: Store, input: ProductInput, c: string)
    requires c != ""
    requires Create(s, input).status == 201
    ensures var p := Create(s, input).body.record;
            List(Create(s, input).state, Some(c)).body.items
            == List(s, Some(c)).body.items + (if SameIgnoringCase(p.category, c) then [p] else [])
  {
    var r := Create(s, input);
    FilterConcat(s.products, [r.body.record], InCategory(c));
  }

  /** Update refuses a negative stock, but create stores whatever stock it
      is given: a product created with stock -5 is accepted, while the same
      stock sent as an update of that very product is refused with 400. */
  lemma CreateAdmitsNegativeStock(s: Store)
    ensures var r := Create(s, ProductInput(Some("Lamp"), Some(10.0), None, Some(-5), None));
            && r.status == 201 && r.body.record.stock == -5
            && var u := Update(r.state, Int(s.nextId), ProductInput(None, None, None, Some(-5), None));
            && u.status == 400 && u.body == Error("Stock cannot be negative") && u.state == r.state
  {
    var r := Create(s, ProductInput(Some("Lamp"), Some(10.0), None, Some(-5), None));
    assert r.state.products[|s.products|] == r.body.record;
    assert HasId(Int(s.nextId))(r.state.products[|s.products|]);
  }
}
