/** The user service: an in-memory list of users and the `nextId` counter,
    with the list, get, create, update and delete handlers as transitions
    from one store state to the next. */
module UserStore {
  import opened Common
  import opened Numbers

  datatype User = User(id: int, name: string, email: string, role: string)

  datatype Store = Store(users: seq<User>, nextId: int)

  /** The JSON body of a create or update request; every field is optional. */
  datatype UserInput = UserInput(name: Option<string>, email: Option<string>, role: Option<string>)

  type Reply = Outcome<Store, User>

  /** The store the service starts with. */
  function Initial(): Store {
    Store([User(1, "Alice Johnson", "alice@example.com", "Admin"),
           User(2, "Bob Smith", "bob@example.com", "User"),
           User(3, "Charlie Brown", "charlie@example.com", "User")],
          4)
  }

  /** Ids are pairwise distinct and all below `nextId`; emails are pairwise distinct. */
  predicate Valid(s: Store) {
    && (forall i, j :: 0 <= i < j < |s.users| ==> s.users[i].id != s.users[j].id)
    && (forall i :: 0 <= i < |s.users| ==> s.users[i].id < s.nextId)
    && (forall i, j :: 0 <= i < j < |s.users| ==> s.users[i].email != s.users[j].email)
  }

  function HasId(id: ParsedInt): User -> bool {
    (u: User) => id.Int? && u.id == id.value
  }

  function HasEmail(email: string): User -> bool {
    (u: User) => u.email == email
  }

  predicate EmailTaken(s: Store, email: string) {
    exists i :: 0 <= i < |s.users| && s.users[i].email == email
  }

  predicate Present(s: Store, id: ParsedInt) {
    exists i :: 0 <= i < |s.users| && HasId(id)(s.users[i])
  }

  function NotFound(id: ParsedInt): string {
    "User with ID " + Show(id) + " not found"
  }

  /** GET /api/users: every user, with `count` the number of users. */
  function List(s: Store): (r: Reply)
    ensures r.status == 200 && r.state == s
    ensures r.body.Listing? && r.body.items == s.users && r.body.count == |r.body.items|
  {
    Outcome(200, Listing(|s.users|, s.users), s)
  }

  /** GET /api/users/:id: the first user whose id matches, else 404. */
  function Get(s: Store, id: ParsedInt): (r: Reply)
    ensures r.state == s
    ensures r.status == 200 || r.status == 404
    ensures r.status == 200 <==> Present(s, id)
    ensures r.status == 200 ==> r.body.Found? && r.body.record in s.users && id == Int(r.body.record.id)
    ensures r.status == 404 ==> r.body == Error(NotFound(id))
  {
    match FindIndex(s.users, HasId(id))
    case None => Outcome(404, Error(NotFound(id)), s)
    case Some(i) => Outcome(200, Found(s.users[i]), s)
  }

  /** POST /api/users. */
  function Create(s: Store, input: UserInput): (r: Reply)
    ensures r.status in {201, 400, 409}
    ensures r.status == 400 <==> !Filled(input.name) || !Filled(input.email)
    ensures r.status == 409 <==> Filled(input.name) && Filled(input.email) && EmailTaken(s, input.email.value)
    ensures r.status != 201 ==> r.state == s && r.body.Error?
    ensures r.status == 400 ==> r.body == Error("Name and email are required")
    ensures r.status == 409 ==> r.body == Error("User with this email already exists")
    ensures r.status == 201 ==>
              && r.body.Changed?
              && r.body.message == "User created successfully"
              && r.state.users == s.users + [r.body.record]
              && r.state.nextId == s.nextId + 1
              && r.body.record.id == s.nextId
              && r.body.record.name == input.name.value
              && r.body.record.email == input.email.value
              && r.body.record.role == (if Filled(input.role) then input.role.value else "User")
  {
    if !Filled(input.name) || !Filled(input.email) then
      Outcome(400, Error("Name and email are required"), s)
    else if FindIndex(s.users, HasEmail(input.email.value)).Some? then
      Outcome(409, Error("User with this email already exists"), s)
    else
      var user := User(s.nextId, input.name.value, input.email.value, StrOr(input.role, "User"));
      Outcome(201, Changed("User created successfully", user), Store(s.users + [user], s.nextId + 1))
  }

  /** PUT /api/users/:id: merge the supplied (non-empty) fields into the user. */
  function Update(s: Store, id: ParsedInt, input: UserInput): (r: Reply)
    ensures r.status in {200, 404, 409}
    ensures r.status == 404 <==> !Present(s, id)
    ensures r.status != 200 ==> r.state == s && r.body.Error?
    ensures r.status == 404 ==> r.body == Error(NotFound(id))
    ensures r.status == 409 ==>
              && Filled(input.email)
              && EmailTaken(s, input.email.value)
              && Get(s, id).body.record.email != input.email.value
              && r.body == Error("Email already in use")
    ensures r.status == 200 ==>
              exists i :: (0 <= i < |s.users| && HasId(id)(s.users[i]) && UpdatedAt(s, r.state, i, input)
                           && r.body == Changed("User updated successfully", r.state.users[i]))
  {
    match FindIndex(s.users, HasId(id))
    case None => Outcome(404, Error(NotFound(id)), s)
    case Some(i) =>
      var cur := s.users[i];
      if Filled(input.email) && input.email.value != cur.email
         && FindIndex(s.users, HasEmail(input.email.value)).Some? then
        Outcome(409, Error("Email already in use"), s)
      else
        var updated := User(cur.id, StrOr(input.name, cur.name), StrOr(input.email, cur.email),
                            StrOr(input.role, cur.role));
        var t := Store(s.users[i := updated], s.nextId);
        Outcome(200, Changed("User updated successfully", updated), t)
  }

  /** `t` is `s` with user `i` merged with `input`: same id, each field
      replaced when supplied, and every other user and the counter unchanged. */
  predicate UpdatedAt(s: Store, t: Store, i: int, input: UserInput)
    requires 0 <= i < |s.users|
  {
    && |t.users| == |s.users|
    && t.nextId == s.nextId
    && (forall j :: 0 <= j < |s.users| && j != i ==> t.users[j] == s.users[j])
    && t.users[i].id == s.users[i].id
    && t.users[i].name == (if Filled(input.name) then input.name.value else s.users[i].name)
    && t.users[i].email == (if Filled(input.email) then input.email.value else s.users[i].email)
    && t.users[i].role == (if Filled(input.role) then input.role.value else s.users[i].role)
  }

  /** DELETE /api/users/:id: splice the matching user out of the list. */
  function Delete(s: Store, id: ParsedInt): (r: Reply)
    ensures r.status in {200, 404}
    ensures r.status == 404 <==> !Present(s, id)
    ensures r.status == 404 ==> r.state == s && r.body == Error(NotFound(id))
    ensures r.status == 200 ==>
              exists i :: (0 <= i < |s.users| && HasId(id)(s.users[i])
                           && r.state == Store(RemoveAt(s.users, i), s.nextId)
                           && r.body == Changed("User deleted successfully", s.users[i]))
  {
    match FindIndex(s.users, HasId(id))
    case None => Outcome(404, Error(NotFound(id)), s)
    case Some(i) =>
      Outcome(200, Changed("User deleted successfully", s.users[i]),
              Store(RemoveAt(s.users, i), s.nextId))
  }

  lemma InitialValid()
    ensures Valid(Initial())
  {
  }

  /** A successful create appends a user whose id and email are both new,
      so the store stays valid. */
  lemma CreatePreservesValid(s: Store, input: UserInput)
    requires Valid(s)
    ensures Valid(Create(s, input).state)
  {
    var r := Create(s, input);
    if r.status == 201 {
      var t := r.state;
      var u := r.body.record;
      assert forall i :: 0 <= i < |s.users| ==> t.users[i] == s.users[i];
      assert t.users[|s.users|] == u;
      assert !EmailTaken(s, input.email.value);
    }
  }

  /** A successful update keeps every id, and takes only an email no other
      user holds, so the store stays valid. */
  lemma UpdatePreservesValid(s: Store, id: ParsedInt, input: UserInput)
    requires Valid(s)
    ensures Valid(Update(s, id, input).state)
  {
    var r := Update(s, id, input);
    if r.status == 200 {
      var i := FindIndex(s.users, HasId(id)).value;
      var t := r.state;
      assert UpdatedAt(s, t, i, input);
      forall j, k | 0 <= j < k < |t.users|
        ensures t.users[j].email != t.users[k].email
      {
        if j != i && k != i {
        } else if Filled(input.email) && input.email.value != s.users[i].email {
          assert FindIndex(s.users, HasEmail(input.email.value)).None?;
          assert !HasEmail(input.email.value)(s.users[if j == i then k else j]);
        }
      }
    }
  }

  /** In a valid store an update asking for an email that another user
      holds is refused with 409, whatever else it asks for; keeping one's
      own email is never a conflict. */
  lemma UpdateEmailConflict(s: Store, k: int, input: UserInput)
    requires Valid(s)
    requires Present(s, Int(k)) && Filled(input.email)
    ensures (exists i :: 0 <= i < |s.users| && s.users[i].email == input.email.value && s.users[i].id != k)
            <==> Update(s, Int(k), input).status == 409
  {
    var t := FindIndex(s.users, HasId(Int(k))).value;
    var e := input.email.value;
    var r := Update(s, Int(k), input);
    assert s.users[t].id == k;
    if exists i :: 0 <= i < |s.users| && s.users[i].email == e && s.users[i].id != k {
      var i :| 0 <= i < |s.users| && s.users[i].email == e && s.users[i].id != k;
      assert s.users[t].email != e;
      assert HasEmail(e)(s.users[i]);
    }
    if r.status == 409 {
      var j := FindIndex(s.users, HasEmail(e)).value;
      assert j != t;
      assert s.users[j].id != k;
    }
  }

  /** Deleting keeps the remaining users in order, and a sub-list of a
      valid list is valid. */
  lemma DeletePreservesValid(s: Store, id: ParsedInt)
    requires Valid(s)
    ensures Valid(Delete(s, id).state)
  {
    var r := Delete(s, id);
    if r.status == 200 {
      var i := FindIndex(s.users, HasId(id)).value;
      Splice(s.users, i);
    }
  }

  /** After a delete in a valid store no user carries the deleted id, and
      every other user is still there. */
  lemma DeleteRemovesExactly(s: Store, k: int)
    requires Valid(s)
    ensures forall u :: u in Delete(s, Int(k)).state.users ==> u.id != k
    ensures forall u :: u in s.users && u.id != k ==> u in Delete(s, Int(k)).state.users
  {
    var r := Delete(s, Int(k));
    var t := r.state.users;
    match FindIndex(s.users, HasId(Int(k)))
    case None =>
      assert t == s.users;
    case Some(i) =>
      assert t == RemoveAt(s.users, i);
      Splice(s.users, i);
      forall u | u in t ensures u.id != k {
        var j :| 0 <= j < |t| && t[j] == u;
        var m := if j < i then j else j + 1;
        assert u == s.users[m] && m != i;
        assert s.users[i].id == k;
        assert s.users[m].id != s.users[i].id;
      }
      forall u | u in s.users && u.id != k ensures u in t {
        var j :| 0 <= j < |s.users| && s.users[j] == u;
        var m := if j < i then j else j - 1;
        assert t[m] == u;
      }
  }

  /** The requests a client can send to the user service. */
  datatype Request =
    | ListReq
    | GetReq(id: ParsedInt)
    | CreateReq(input: UserInput)
    | UpdateReq(id: ParsedInt, input: UserInput)
    | DeleteReq(id: ParsedInt)

  function Handle(s: Store, req: Request): Reply {
    match req
    case ListReq => List(s)
    case GetReq(id) => Get(s, id)
    case CreateReq(input) => Create(s, input)
    case UpdateReq(id, input) => Update(s, id, input)
    case DeleteReq(id) => Delete(s, id)
  }

  /** The store after serving `reqs` in order. */
  function Serve(s: Store, reqs: seq<Request>): Store
    decreases |reqs|
  {
    if |reqs| == 0 then s else Serve(Handle(s, reqs[0]).state, reqs[1..])
  }

  /** The ids handed out by successful creates while serving `reqs`. */
  function AssignedIds(s: Store, reqs: seq<Request>): seq<int>
    decreases |reqs|
  {
    if |reqs| == 0 then []
    else
      var r := Handle(s, reqs[0]);
      (if r.status == 201 then [r.body.record.id] else []) + AssignedIds(r.state, reqs[1..])
  }

  /** No request lowers the counter; only a successful create raises it. */
  lemma HandleCounter(s: Store, req: Request)
    ensures Handle(s, req).state.nextId == s.nextId + (if Handle(s, req).status == 201 then 1 else 0)
  {
    match req
    case ListReq =>
    case GetReq(id) =>
    case CreateReq(input) =>
    case UpdateReq(id, input) =>
    case DeleteReq(id) =>
  }

  lemma {:induction false} ServeCounter(s: Store, reqs: seq<Request>)
    ensures Serve(s, reqs).nextId == s.nextId + |AssignedIds(s, reqs)|
    decreases |reqs|
  {
    if |reqs| > 0 {
      HandleCounter(s, reqs[0]);
      ServeCounter(Handle(s, reqs[0]).state, reqs[1..]);
    }
  }

  /** Any request keeps the store valid. */
  lemma HandlePreservesValid(s: Store, req: Request)
    requires Valid(s)
    ensures Valid(Handle(s, req).state)
  {
    match req
    case ListReq =>
    case GetReq(id) =>
    case CreateReq(input) => CreatePreservesValid(s, input);
    case UpdateReq(id, input) => UpdatePreservesValid(s, id, input);
    case DeleteReq(id) => DeletePreservesValid(s, id);
  }

  /** Every request sequence keeps the store valid. */
  lemma {:induction false} ServePreservesValid(s: Store, reqs: seq<Request>)
    requires Valid(s)
    ensures Valid(Serve(s, reqs))
    decreases |reqs|
  {
    if |reqs| > 0 {
      HandlePreservesValid(s, reqs[0]);
      ServePreservesValid(Handle(s, reqs[0]).state, reqs[1..]);
    }
  }

  /** Ids are never reused: the ids handed out while serving any request
      sequence are strictly increasing and all at least the starting
      counter, so none equals the id of a user present (or deleted) before. */
  lemma {:induction false} IdsNeverReused(s: Store, reqs: seq<Request>)
    ensures forall i :: 0 <= i < |AssignedIds(s, reqs)| ==> s.nextId <= AssignedIds(s, reqs)[i] < Serve(s, reqs).nextId
    ensures forall i, j :: 0 <= i < j < |AssignedIds(s, reqs)| ==> AssignedIds(s, reqs)[i] < AssignedIds(s, reqs)[j]
    decreases |reqs|
  {
    if |reqs| > 0 {
      var r := Handle(s, reqs[0]);
      HandleCounter(s, reqs[0]);
      ServeCounter(r.state, reqs[1..]);
      IdsNeverReused(r.state, reqs[1..]);
      if r.status == 201 {
        assert r.body.record.id == s.nextId by {
          match reqs[0]
          case ListReq =>
          case GetReq(id) =>
          case CreateReq(input) =>
          case UpdateReq(id, input) =>
          case DeleteReq(id) =>
        }
      }
    }
  }
}
