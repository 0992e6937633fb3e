/** The gateway's request handling, as pure functions over the outcomes of
    its backend calls: the single-call proxies, the two dependent joins
    (product with owner, user with products) and the dashboard. A backend
    is a function from the id segment of the URL to the outcome of the
    call; each join reports the calls it issued, in order. */
module Gateway {
  import opened Common
  import opened Numbers

  /** Outcome of one backend call through axios. `Ok` carries the part of a
      2xx reply the handler reads. `Err` carries the backend's HTTP status
      when it answered (none on a transport failure), the `message` field of
      its error body if any, and axios' own error message. */
  datatype CallResult<T> =
    | Ok(body: T)
    | Err(status: Option<int>, bodyMessage: Option<string>, errorMessage: string)

  /** axios rejects exactly the non-2xx replies, so a failure never carries
      a success status. */
  predicate WellFormed<T>(c: CallResult<T>) {
    c.Err? && c.status.Some? ==> !IsSuccess(c.status.value)
  }

  predicate IsSuccess(status: int) {
    200 <= status < 300
  }

  /** `error.response?.status || 500`. */
  function FailureStatus<T>(c: CallResult<T>): int
    requires c.Err?
  {
    if c.status.Some? && c.status.value != 0 then c.status.value else 500
  }

  /** `error.response?.data?.message || error.message`. */
  function FailureDetail<T>(c: CallResult<T>): string
    requires c.Err?
  {
    StrOr(c.bodyMessage, c.errorMessage)
  }

  /** The gateway's reply body: a backend body relayed verbatim, a composed
      `{success:true, message, data}`, or `{success:false, message, error}`. */
  datatype Reply<T> =
    | Relayed(payload: T)
    | Composed(message: string, data: T)
    | Failed(message: string, error: string)

  datatype Response<T> = Response(status: int, body: Reply<T>)

  // ---------------------------------------------------------------------
  // Single-resource proxies
  // ---------------------------------------------------------------------

  datatype Service = UserService | ProductService

  datatype Action = ListAll | GetOne | CreateOne | UpdateOne | DeleteOne

  function ServiceError(svc: Service): string {
    match svc
    case UserService => "Error communicating with User Service"
    case ProductService => "Error communicating with Product Service"
  }

  /** One proxy handler: relay the backend body with 200 (201 for a create);
      on failure answer with the backend's status, or 500 when it did not
      answer. The list handlers report axios' message, the others prefer
      the backend's own message. */
  function Proxy<T>(svc: Service, action: Action, call: CallResult<T>): (r: Response<T>)
    ensures call.Ok? ==> r.body == Relayed(call.body)
    ensures call.Ok? ==> r.status == (if action == CreateOne then 201 else 200)
    ensures call.Err? && call.status.Some? && call.status.value != 0 ==> r.status == call.status.value
    ensures call.Err? && (call.status.None? || call.status.value == 0) ==> r.status == 500
    ensures call.Err? ==> r.body.Failed? && r.body.message == ServiceError(svc)
    ensures call.Err? && action != ListAll && Filled(call.bodyMessage) ==> r.body.error == call.bodyMessage.value
    ensures call.Err? && (action == ListAll || !Filled(call.bodyMessage)) ==> r.body.error == call.errorMessage
  {
    match call
    case Ok(body) => Response(if action == CreateOne then 201 else 200, Relayed(body))
    case Err(_, _, _) =>
      var detail := if action == ListAll then call.errorMessage else FailureDetail(call);
      Response(FailureStatus(call), Failed(ServiceError(svc), detail))
  }

  /** A proxy answers with a success status exactly when the backend call
      succeeded: it never turns a backend failure into a success. */
  lemma ProxySuccessIffOk<T>(svc: Service, action: Action, call: CallResult<T>)
    requires WellFormed(call)
    ensures IsSuccess(Proxy(svc, action, call).status) <==> call.Ok?
  {
  }

  // ---------------------------------------------------------------------
  // Joins
  // ---------------------------------------------------------------------

  /** A backend call the gateway issued; the id calls carry the URL segment. */
  datatype Call =
    | GetUser(segment: string)
    | ListUsers
    | GetProduct(segment: string)
    | ListProducts

  /** A response together with the backend calls made to produce it. */
  datatype Traced<T> = Traced(response: Response<T>, calls: seq<Call>)

  /** The `{success, count, data}` body of a backend list reply. */
  datatype Page<T> = Page(count: int, items: seq<T>)

  /** `{...product, owner}`: every field of the product plus its owner. */
  datatype WithOwner<P, U> = WithOwner(product: P, owner: U)

  datatype UserProducts<U, P> = UserProducts(user: U, products: seq<P>, productCount: int)

  /** The failure reply of a join whose call `c` failed. */
  function Propagate<T, X>(message: string, c: CallResult<X>): Response<T>
    requires c.Err?
  {
    Response(FailureStatus(c), Failed(message, FailureDetail(c)))
  }

  /** URL segment of `${product.ownerId}`: an absent owner prints as "undefined". */
  function OwnerSegment(owner: Option<int>): string {
    match owner
    case None => "undefined"
    case Some(k) => Show(Int(k))
  }

  const WithOwnerFailure := "Error aggregating product with owner information"

  /** GET /api/products/:id/with-owner. The product is fetched first; only
      if that succeeds is its owner fetched, by the product's `ownerId`. */
  function ProductWithOwner<P, U>(
    idParam: string,
    productById: string -> CallResult<P>,
    userById: string -> CallResult<U>,
    ownerOf: P -> Option<int>
  ): (r: Traced<WithOwner<P, U>>)
    ensures var seg := Show(ParseInt(idParam));
            && 1 <= |r.calls| <= 2
            && r.calls[0] == GetProduct(seg)
            && (|r.calls| == 1 <==> productById(seg).Err?)
            && (productById(seg).Err? ==>
                  r.response.status == FailureStatus(productById(seg))
                  && r.response.body == Failed(WithOwnerFailure, FailureDetail(productById(seg))))
    ensures var seg := Show(ParseInt(idParam));
            productById(seg).Ok? ==>
              var product := productById(seg).body;
              var ownerCall := userById(OwnerSegment(ownerOf(product)));
              && r.calls[1] == GetUser(OwnerSegment(ownerOf(product)))
              && (ownerCall.Err? ==>
                    r.response.status == FailureStatus(ownerCall)
                    && r.response.body == Failed(WithOwnerFailure, FailureDetail(ownerCall)))
              && (ownerCall.Ok? ==>
                    r.response.status == 200
                    && r.response.body.Composed?
                    && r.response.body.data == WithOwner(product, ownerCall.body))
  {
    var seg := Show(ParseInt(idParam));
    var productCall := productById(seg);
    match productCall
    case Err(_, _, _) => Traced(Propagate(WithOwnerFailure, productCall), [GetProduct(seg)])
    case Ok(product) =>
      var ownerSeg := OwnerSegment(ownerOf(product));
      var ownerCall := userById(ownerSeg);
      var calls := [GetProduct(seg), GetUser(ownerSeg)];
      match ownerCall
      case Err(_, _, _) => Traced(Propagate(WithOwnerFailure, ownerCall), calls)
      case Ok(owner) =>
        Traced(Response(200, Composed("Product with owner information aggregated at gateway",
                                      WithOwner(product, owner))), calls)
  }

  /** Product `p` belongs to the user with the requested id: `p.ownerId === userId`.
      A missing owner, or a NaN id, matches nothing. */
  function OwnedBy<P>(userId: ParsedInt, ownerOf: P -> Option<int>): P -> bool {
    (p: P) => userId.Int? && ownerOf(p) == Some(userId.value)
  }

  const UserProductsFailure := "Error aggregating user products"

  /** GET /api/users/:id/products. The user is fetched first; only if that
      succeeds is the full product list fetched and filtered locally. */
  function UserWithProducts<U, P>(
    idParam: string,
    userById: string -> CallResult<U>,
    allProducts: CallResult<Page<P>>,
    ownerOf: P -> Option<int>
  ): (r: Traced<UserProducts<U, P>>)
    ensures var seg := Show(ParseInt(idParam));
            && (userById(seg).Err? ==>
                  && r.calls == [GetUser(seg)]
                  && r.response.status == FailureStatus(userById(seg))
                  && r.response.body == Failed(UserProductsFailure, FailureDetail(userById(seg))))
            && (userById(seg).Ok? ==> r.calls == [GetUser(seg), ListProducts])
            && (userById(seg).Ok? && allProducts.Err? ==>
                  && r.response.status == FailureStatus(allProducts)
                  && r.response.body == Failed(UserProductsFailure, FailureDetail(allProducts)))
    ensures r.response.body.Composed? ==>
              && userById(Show(ParseInt(idParam))).Ok?
              && allProducts.Ok?
              && r.response.status == 200
              && r.response.body.data.user == userById(Show(ParseInt(idParam))).body
              && r.response.body.data.productCount == |r.response.body.data.products|
    ensures userById(Show(ParseInt(idParam))).Ok? && allProducts.Ok? ==>
              && r.response.body.Composed?
              && var owned := r.response.body.data.products;
              && var page := allProducts.body.items;
              && (forall i :: 0 <= i < |owned| ==> owned[i] in page && OwnedBy(ParseInt(idParam), ownerOf)(owned[i]))
              && (forall i :: 0 <= i < |page| && OwnedBy(ParseInt(idParam), ownerOf)(page[i]) ==> page[i] in owned)
  {
    var userId := ParseInt(idParam);
    var seg := Show(userId);
    var userCall := userById(seg);
    match userCall
    case Err(_, _, _) => Traced(Propagate(UserProductsFailure, userCall), [GetUser(seg)])
    case Ok(user) =>
      var calls := [GetUser(seg), ListProducts];
      match allProducts
      case Err(_, _, _) => Traced(Propagate(UserProductsFailure, allProducts), calls)
      case Ok(page) =>
        var owned := Filter(page.items, OwnedBy(userId, ownerOf));
        Traced(Response(200, Composed("User data aggregated with their products",
                                      UserProducts(user, owned, |owned|))), calls)
  }

  /** The products a successful user-with-products reply lists are exactly
      the owned ones of the product list, in list order: filtering the list
      piecewise and concatenating gives the same answer. */
  lemma UserProductsIsOrderedFilter<U, P>(
    idParam: string,
    userById: string -> CallResult<U>,
    front: seq<P>, back: seq<P>, count: int,
    ownerOf: P -> Option<int>)
    requires userById(Show(ParseInt(idParam))).Ok?
    ensures var r := UserWithProducts(idParam, userById, Ok(Page(count, front + back)), ownerOf);
            var owned := OwnedBy(ParseInt(idParam), ownerOf);
            r.response.body.data.products == Filter(front, owned) + Filter(back, owned)
  {
    FilterConcat(front, back, OwnedBy(ParseInt(idParam), ownerOf));
  }

  // ---------------------------------------------------------------------
  // Dashboard
  // ---------------------------------------------------------------------

  /** Which of two concurrent calls was rejected first when both fail:
      `Promise.all` reports the earliest rejection. */
  datatype Settle = UsersFirst | ProductsFirst

  datatype Section<T> = Section(total: int, data: seq<T>)

  datatype Summary = Summary(totalUsers: int, totalProducts: int)

  datatype DashboardData<U, P> = DashboardData(users: Section<U>, products: Section<P>, summary: Summary)

  const DashboardFailure := "Error aggregating data from services"

  /** GET /api/dashboard: both lists are always requested; if either call
      fails the whole request fails with 500, whatever the backend said. */
  function Dashboard<U, P>(users: CallResult<Page<U>>, products: CallResult<Page<P>>, first: Settle)
    : (r: Traced<DashboardData<U, P>>)
    ensures r.calls == [ListUsers, ListProducts]
    ensures r.response.status == 200 <==> users.Ok? && products.Ok?
    ensures r.response.status != 200 ==>
              && r.response.status == 500
              && r.response.body.Failed?
              && r.response.body.message == DashboardFailure
    ensures users.Err? && (products.Ok? || first == UsersFirst) ==> r.response.body.error == users.errorMessage
    ensures products.Err? && (users.Ok? || first == ProductsFirst) ==> r.response.body.error == products.errorMessage
    ensures r.response.status == 200 ==>
              && r.response.body.Composed?
              && var d := r.response.body.data;
              && d.users == Section(users.body.count, users.body.items)
              && d.products == Section(products.body.count, products.body.items)
              && d.summary.totalUsers == users.body.count
              && d.summary.totalProducts == products.body.count
  {
    var calls := [ListUsers, ListProducts];
    if users.Ok? && products.Ok? then
      var u, p := users.body, products.body;
      Traced(Response(200, Composed("Dashboard data aggregated from User and Product services",
                                    DashboardData(Section(u.count, u.items), Section(p.count, p.items),
                                                  Summary(u.count, p.count)))), calls)
    else
      var error := if users.Err? && (products.Ok? || first == UsersFirst) then users.errorMessage
                   else products.errorMessage;
      Traced(Response(500, Failed(DashboardFailure, error)), calls)
  }

  // ---------------------------------------------------------------------
  // Failure propagation across every join
  // ---------------------------------------------------------------------

  /** No join hides a failed call behind a success: whenever a call a join
      made failed, the join answers with a non-2xx status. */
  lemma JoinsNeverSuppressFailure<U, P>(
    idParam: string,
    productById: string -> CallResult<P>,
    userById: string -> CallResult<U>,
    allProducts: CallResult<Page<P>>,
    allUsers: CallResult<Page<U>>,
    ownerOf: P -> Option<int>,
    first: Settle)
    requires forall seg :: WellFormed(productById(seg)) && WellFormed(userById(seg))
    requires WellFormed(allProducts) && WellFormed(allUsers)
    ensures var r := ProductWithOwner(idParam, productById, userById, ownerOf);
            IsSuccess(r.response.status) <==> r.response.body.Composed?
    ensures var r := UserWithProducts(idParam, userById, allProducts, ownerOf);
            IsSuccess(r.response.status) <==> r.response.body.Composed?
    ensures var r := Dashboard(allUsers, allProducts, first);
            IsSuccess(r.response.status) <==> allUsers.Ok? && allProducts.Ok?
  {
    var seg := Show(ParseInt(idParam));
    assert WellFormed(productById(seg)) && WellFormed(userById(seg));
    if productById(seg).Ok? {
      assert WellFormed(userById(OwnerSegment(ownerOf(productById(seg).body))));
    }
  }
}
