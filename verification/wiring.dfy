/** The gateway composed with the two store models as its backends: a call
    is answered by the corresponding store handler, with the id parsed back
    from the URL segment and a non-2xx reply turned into an axios failure.
    These lemmas state what the joins deliver end to end. */
module Wiring {
  import opened Common
  import opened Numbers
  import opened Gateway
  import UserStore
  import ProductStore

  /** axios' message for a reply outside 2xx. */
  function AxiosMessage(status: int): string {
    "Request failed with status code " + Show(Int(status))
  }

  /** GET /api/users/<segment> answered by the user store `s`. */
  function UserCall(s: UserStore.Store, segment: string): (c: CallResult<UserStore.User>)
    ensures WellFormed(c)
    ensures c.Ok? <==> UserStore.Present(s, ParseInt(segment))
    ensures c.Ok? ==> c.body in s.users && ParseInt(segment) == Int(c.body.id)
    ensures c.Err? ==> && c.status == Some(404)
                       && c.bodyMessage == Some(UserStore.NotFound(ParseInt(segment)))
                       && c.errorMessage == AxiosMessage(404)
  {
    var o := UserStore.Get(s, ParseInt(segment));
    if o.status == 200 then Ok(o.body.record)
    else Err(Some(o.status), Some(o.body.message), AxiosMessage(o.status))
  }

  /** GET /api/products/<segment> answered by the product store `s`. */
  function ProductCall(s: ProductStore.Store, segment: string): (c: CallResult<ProductStore.Product>)
    ensures WellFormed(c)
    ensures c.Ok? <==> ProductStore.Present(s, ParseInt(segment))
    ensures c.Ok? ==> c.body in s.products && ParseInt(segment) == Int(c.body.id)
    ensures c.Err? ==> && c.status == Some(404)
                       && c.bodyMessage == Some(ProductStore.NotFound(ParseInt(segment)))
                       && c.errorMessage == AxiosMessage(404)
  {
    var o := ProductStore.Get(s, ParseInt(segment));
    if o.status == 200 then Ok(o.body.record)
    else Err(Some(o.status), Some(o.body.message), AxiosMessage(o.status))
  }

  function UserById(s: UserStore.Store): string -> CallResult<UserStore.User> {
    (segment: string) => UserCall(s, segment)
  }

  function ProductById(s: ProductStore.Store): string -> CallResult<ProductStore.Product> {
    (segment: string) => ProductCall(s, segment)
  }

  /** GET /api/users answered by the user store. */
  function AllUsers(s: UserStore.Store): CallResult<Page<UserStore.User>> {
    var o := UserStore.List(s);
    Ok(Page(o.body.count, o.body.items))
  }

  /** GET /api/products (no category) answered by the product store. */
  function AllProducts(s: ProductStore.Store): CallResult<Page<ProductStore.Product>> {
    var o := ProductStore.List(s, None);
    Ok(Page(o.body.count, o.body.items))
  }

  function OwnerOf(p: ProductStore.Product): Option<int> {
    Some(p.ownerId)
  }

  /** A successful product-with-owner reply pairs a stored product having
      the requested id with the stored user whose id is that product's
      `ownerId`. */
  lemma WithOwnerMatchesOwner(us: UserStore.Store, ps: ProductStore.Store, idParam: string)
    ensures var r := ProductWithOwner(idParam, ProductById(ps), UserById(us), OwnerOf);
            r.response.status == 200 ==>
              && r.response.body.Composed?
              && var d := r.response.body.data;
              && d.owner.id == d.product.ownerId
              && d.product in ps.products
              && d.owner in us.users
              && ParseInt(idParam) == Int(d.product.id)
  {
    var seg := Show(ParseInt(idParam));
    ParseShow(ParseInt(idParam));
    var pc := ProductById(ps)(seg);
    if pc.Ok? {
      ParseShow(Int(pc.body.ownerId));
    }
  }

  /** A product id the store does not hold yields the product service's 404
      and its message, and the user service is never called. */
  lemma WithOwnerMissingProduct(us: UserStore.Store, ps: ProductStore.Store, k: int)
    requires !ProductStore.Present(ps, Int(k))
    ensures var r := ProductWithOwner(Show(Int(k)), ProductById(ps), UserById(us), OwnerOf);
            && r.response.status == 404
            && r.response.body == Failed(WithOwnerFailure, ProductStore.NotFound(Int(k)))
            && r.calls == [GetProduct(Show(Int(k)))]
  {
    ParseShow(Int(k));
    ParseShow(ParseInt(Show(Int(k))));
  }

  /** The same for product 999 against the initial product store. */
  lemma WithOwner999(us: UserStore.Store)
    ensures var r := ProductWithOwner("999", ProductById(ProductStore.Initial()), UserById(us), OwnerOf);
            && r.response.status == 404
            && r.response.body == Failed(WithOwnerFailure, "Product with ID 999 not found")
            && |r.calls| == 1
  {
    ShowNineNineNine();
    InitialLacks999();
    WithOwnerMissingProduct(us, ProductStore.Initial(), 999);
    assert ProductStore.NotFound(Int(999)) == "Product with ID 999 not found";
  }

  lemma ShowNineNineNine()
    ensures Show(Int(999)) == "999"
    ensures ProductStore.NotFound(Int(999)) == "Product with ID 999 not found"
  {
    assert NatToString(9) == "9";
    assert NatToString(99) == "99";
  }

  lemma InitialLacks999()
    ensures !ProductStore.Present(ProductStore.Initial(), Int(999))
  {
    var ps := ProductStore.Initial().products;
    assert forall i :: 0 <= i < |ps| ==> ps[i].id <= 4;
  }

  /** Against the stores, a user's products are exactly the stored products
      whose `ownerId` is the requested id, in store order, and
      `productCount` is their number. */
  lemma UserProductsFromStores(us: UserStore.Store, ps: ProductStore.Store, k: int)
    requires UserStore.Present(us, Int(k))
    ensures var r := UserWithProducts(Show(Int(k)), UserById(us), AllProducts(ps), OwnerOf);
            && r.response.status == 200
            && r.response.body.Composed?
            && r.response.body.data.user.id == k
            && r.response.body.data.products == Filter(ps.products, (p: ProductStore.Product) => p.ownerId == k)
            && r.response.body.data.productCount == |r.response.body.data.products|
  {
    ParseShow(Int(k));
    ParseShow(ParseInt(Show(Int(k))));
    var keep := (p: ProductStore.Product) => p.ownerId == k;
    forall i | 0 <= i < |ps.products|
      ensures OwnedBy(Int(k), OwnerOf)(ps.products[i]) == keep(ps.products[i])
    {
      var p := ps.products[i];
      assert OwnerOf(p) == Some(p.ownerId);
      assert OwnedBy(Int(k), OwnerOf)(p) == (OwnerOf(p) == Some(k));
    }
    FilterAgrees(ps.products, OwnedBy(Int(k), OwnerOf), keep);
  }

  /** Two products owned by users 1 and 2: user 1's products are exactly the first. */
  lemma UserProductsExample(us: UserStore.Store)
    requires UserStore.Present(us, Int(1))
    ensures var p1 := ProductStore.Product(1, "Laptop", 999.99, "Electronics", 50, 1);
            var p2 := ProductStore.Product(2, "Smartphone", 699.99, "Electronics", 100, 2);
            var ps := ProductStore.Store([p1, p2], 3);
            var r := UserWithProducts(Show(Int(1)), UserById(us), AllProducts(ps), OwnerOf);
            r.response.body.data.products == [p1] && r.response.body.data.productCount == 1
  {
    var p1 := ProductStore.Product(1, "Laptop", 999.99, "Electronics", 50, 1);
    var p2 := ProductStore.Product(2, "Smartphone", 699.99, "Electronics", 100, 2);
    var ps := ProductStore.Store([p1, p2], 3);
    UserProductsFromStores(us, ps, 1);
    var keep := (p: ProductStore.Product) => p.ownerId == 1;
    FilterConcat([p1], [p2], keep);
    assert [p1, p2] == [p1] + [p2];
  }

  /** Against the stores, a missing user yields the user service's 404 and
      its message, and the product service is never called. */
  lemma UserProductsMissingUser(us: UserStore.Store, ps: ProductStore.Store, k: int)
    requires !UserStore.Present(us, Int(k))
    ensures var r := UserWithProducts(Show(Int(k)), UserById(us), AllProducts(ps), OwnerOf);
            && r.response.status == 404
            && r.response.body == Failed(UserProductsFailure, UserStore.NotFound(Int(k)))
            && r.calls == [GetUser(Show(Int(k)))]
  {
    ParseShow(Int(k));
    ParseShow(ParseInt(Show(Int(k))));
  }

  /** Against the stores, the dashboard succeeds and its totals are the
      numbers of stored users and products. */
  lemma DashboardFromStores(us: UserStore.Store, ps: ProductStore.Store, first: Settle)
    ensures var r := Dashboard(AllUsers(us), AllProducts(ps), first);
            && r.response.status == 200
            && r.response.body.Composed?
            && r.response.body.data.summary.totalUsers == |us.users|
            && r.response.body.data.summary.totalProducts == |ps.products|
            && r.response.body.data.users.data == us.users
            && r.response.body.data.products.data == ps.products
  {
  }
}
