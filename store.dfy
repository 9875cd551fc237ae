/** The in-memory store of backend-example.js: the four module-level lists
    `users`, `products`, `orders` and `reviews`, and one method per HTTP
    handler that reads or changes them. Handlers behind the auth gate take
    the caller's verified user id (`req.user.userId`) as a parameter. */
module Store {
  import opened Wrappers
  import opened Records
  import Seqs
  import Accounts
  import Farmer
  import Dashboard
  import Text

  class Marketplace {
    var users: seq<User>
    var products: seq<Product>
    var orders: seq<Order>
    var reviews: seq<Review>

    /** Signup is the only writer of `users`, and it keeps ids sequential
        and e-mails distinct. */
    ghost predicate Valid()
      reads this
    {
      Accounts.WellFormedUsers(users)
    }

    /** The process starts with four empty lists. */
    constructor ()
      ensures Valid()
      ensures users == [] && products == [] && orders == [] && reviews == []
    {
      users := [];
      products := [];
      orders := [];
      reviews := [];
    }

    /** POST /api/auth/signup (201 on success). `hashed` is what the
        password hasher returned for `req.password`; `now` is the creation
        time stamp. Every rejection leaves `users` as it was. */
    method Signup(req: Accounts.SignupRequest, hashed: string, now: string) returns (r: Result<Grant>)
      requires Valid()
      modifies this`users
      ensures Valid()
      ensures Accounts.CheckSignup(req).Some? ==>
        r == Err(Accounts.CheckSignup(req).value) && users == old(users)
      ensures (Accounts.CheckSignup(req).None? &&
               exists k :: 0 <= k < |old(users)| && old(users)[k].email == req.email) ==>
        r == Err(EmailTaken) && users == old(users)
      ensures (Accounts.CheckSignup(req).None? &&
               forall k :: 0 <= k < |old(users)| ==> old(users)[k].email != req.email) ==>
        users == old(users) + [Accounts.NewUser(old(users), req, hashed, now)] &&
        r == Ok(GrantFor(Accounts.NewUser(old(users), req, hashed, now)))
      ensures r.Ok? ==> r.value.user.id == |users| == |old(users)| + 1 && r.value.user.email == req.email
    {
      var rejection := Accounts.CheckSignup(req);
      if rejection.Some? {
        return Err(rejection.value);
      }
      Accounts.EmailIndexMisses(users, req.email);
      if Accounts.EmailIndex(users, req.email) != -1 {
        return Err(EmailTaken);
      }
      var user := Accounts.NewUser(users, req, hashed, now);
      Accounts.SignupKeepsWellFormed(users, req, hashed, now);
      users := users + [user];
      r := Ok(GrantFor(user));
    }

    /** POST /api/auth/login. `matches(password, hash)` stands for the
        password hasher's comparison. An unknown e-mail and a wrong password
        get the same reply, and login never changes the store. */
    method Login(email: string, password: string, matches: (string, string) -> bool)
      returns (r: Result<Grant>)
      requires Valid()
      ensures email == "" || password == "" ==> r == Err(CredentialsRequired)
      ensures email != "" && password != "" ==>
        (r.Ok? <==> exists k :: 0 <= k < |users| && users[k].email == email &&
                               matches(password, users[k].passwordHash))
      ensures email != "" && password != "" && r.Err? ==> r == Err(BadCredentials)
      ensures r.Ok? ==> exists k :: 0 <= k < |users| && users[k].email == email &&
                                   r.value == GrantFor(users[k])
    {
      if email == "" || password == "" {
        return Err(CredentialsRequired);
      }
      var i := Accounts.EmailIndex(users, email);
      Accounts.EmailIndexMisses(users, email);
      if i == -1 {
        return Err(BadCredentials);
      }
      Accounts.EmailIndexFindsOwner(users, i);
      var user := users[i];
      if !matches(password, user.passwordHash) {
        forall k | 0 <= k < |users| && users[k].email == email
          ensures !matches(password, users[k].passwordHash)
        {
          Accounts.EmailIndexFindsOwner(users, k);
        }
        return Err(BadCredentials);
      }
      r := Ok(GrantFor(user));
    }

    /** GET /api/user/profile: the caller's account without its password,
        or 404 when no account has that id. */
    method Profile(userId: int) returns (r: Result<PublicUser>)
      requires Valid()
      ensures 1 <= userId <= |users| ==> r == Ok(Sanitize(users[userId - 1]))
      ensures !(1 <= userId <= |users|) ==> r == Err(UserNotFound)
    {
      var i := Accounts.IdIndex(users, userId);
      Accounts.IdIndexIsPosition(users, userId);
      if i == -1 {
        return Err(UserNotFound);
      }
      r := Ok(Sanitize(users[i]));
    }

    /** GET /api/farmer/products */
    method ListProducts(farmerId: int) returns (r: seq<Product>)
      ensures r == Farmer.ProductsOf(products, farmerId)
      ensures forall k :: 0 <= k < |r| ==> r[k].farmerId == farmerId
      ensures forall k :: 0 <= k < |products| && products[k].farmerId == farmerId ==> products[k] in r
      ensures Seqs.IsSubsequence(r, products)
    {
      r := Farmer.ProductsOf(products, farmerId);
      Seqs.FilterKeepsPassing(products, Farmer.OwnsProduct(farmerId));
    }

    /** POST /api/farmer/products (201). `id` is the `Date.now()` value and
        `now` the creation time stamp. */
    method AddProduct(farmerId: int, details: ProductDetails, id: int, now: string)
      returns (p: Product)
      modifies this`products
      ensures p == Product(id, farmerId, details, now, None)
      ensures products == old(products) + [p]
    {
      p := Product(id, farmerId, details, now, None);
      products := products + [p];
    }

    /** PUT /api/farmer/products/:id. Only the caller's own product with
        that id is found; on a miss (including another farmer's product)
        the reply is 404 and nothing changes. On a hit exactly that one
        element is replaced. */
    method UpdateProduct(farmerId: int, productId: Option<int>, details: ProductDetails, now: string)
      returns (r: Result<Product>)
      modifies this`products
      ensures Farmer.ProductSlot(old(products), productId, farmerId) == -1 ==>
        r == Err(ProductNotFound) && products == old(products)
      ensures Farmer.ProductSlot(old(products), productId, farmerId) != -1 ==>
        var i := Farmer.ProductSlot(old(products), productId, farmerId);
        products == old(products)[i := Farmer.Revised(old(products)[i], details, now)] &&
        r == Ok(products[i])
      ensures Farmer.ProductSlot(old(products), productId, farmerId) != -1 ==>
        var i := Farmer.ProductSlot(old(products), productId, farmerId);
        r.Ok? && r.value.id == old(products)[i].id && Some(r.value.id) == productId &&
        r.value.farmerId == old(products)[i].farmerId == farmerId &&
        r.value.createdAt == old(products)[i].createdAt &&
        r.value.details == details && r.value.updatedAt == Some(now)
    {
      var i := Farmer.ProductSlot(products, productId, farmerId);
      Farmer.ProductSlotOwned(products, productId, farmerId);
      if i == -1 {
        return Err(ProductNotFound);
      }
      products := products[i := Farmer.Revised(products[i], details, now)];
      r := Ok(products[i]);
    }

    /** DELETE /api/farmer/products/:id: the same lookup, then the element
        is spliced out and the others keep their order. */
    method DeleteProduct(farmerId: int, productId: Option<int>) returns (r: Result<string>)
      modifies this`products
      ensures Farmer.ProductSlot(old(products), productId, farmerId) == -1 ==>
        r == Err(ProductNotFound) && products == old(products)
      ensures Farmer.ProductSlot(old(products), productId, farmerId) != -1 ==>
        products == Seqs.RemoveAt(old(products), Farmer.ProductSlot(old(products), productId, farmerId)) &&
        r == Ok("Product deleted successfully")
    {
      var i := Farmer.ProductSlot(products, productId, farmerId);
      if i == -1 {
        return Err(ProductNotFound);
      }
      products := Seqs.RemoveAt(products, i);
      r := Ok("Product deleted successfully");
    }

    /** GET /api/farmer/orders */
    method ListOrders(farmerId: int) returns (r: seq<Order>)
      ensures r == Farmer.OrdersOf(orders, farmerId)
      ensures forall k :: 0 <= k < |r| ==> r[k].farmerId == farmerId
      ensures forall k :: 0 <= k < |orders| && orders[k].farmerId == farmerId ==> orders[k] in r
      ensures Seqs.IsSubsequence(r, orders)
    {
      r := Farmer.OrdersOf(orders, farmerId);
      Seqs.FilterKeepsPassing(orders, Farmer.OwnsOrder(farmerId));
    }

    /** PUT /api/farmer/orders/:id/status: on the caller's own order with
        that id, `status` is overwritten with whatever string was sent and
        `updatedAt` stamped; every other field and every other order stays.
        A miss is 404 with no change. */
    method UpdateOrderStatus(farmerId: int, orderId: Option<int>, status: string, now: string)
      returns (r: Result<Order>)
      modifies this`orders
      ensures Farmer.OrderSlot(old(orders), orderId, farmerId) == -1 ==>
        r == Err(OrderNotFound) && orders == old(orders)
      ensures Farmer.OrderSlot(old(orders), orderId, farmerId) != -1 ==>
        var i := Farmer.OrderSlot(old(orders), orderId, farmerId);
        orders == old(orders)[i := Farmer.WithStatus(old(orders)[i], status, now)] &&
        r == Ok(orders[i])
      ensures r.Ok? ==>
        Some(r.value.id) == orderId && r.value.farmerId == farmerId &&
        r.value.status == status && r.value.updatedAt == Some(now)
    {
      var i := Farmer.OrderSlot(orders, orderId, farmerId);
      if i == -1 {
        return Err(OrderNotFound);
      }
      assert ((o: Order) => orderId == Some(o.id) && o.farmerId == farmerId)(orders[i]);
      orders := orders[i := Farmer.WithStatus(orders[i], status, now)];
      r := Ok(orders[i]);
    }

    /** GET /api/farmer/reviews */
    method ListReviews(farmerId: int) returns (r: seq<Review>)
      ensures r == Farmer.ReviewsOf(reviews, farmerId)
      ensures forall k :: 0 <= k < |r| ==> r[k].farmerId == farmerId
      ensures forall k :: 0 <= k < |reviews| && reviews[k].farmerId == farmerId ==> reviews[k] in r
      ensures Seqs.IsSubsequence(r, reviews)
    {
      r := Farmer.ReviewsOf(reviews, farmerId);
      Seqs.FilterKeepsPassing(reviews, Farmer.OwnsReview(farmerId));
    }

    /** GET /api/farmer/dashboard */
    method FarmerDashboard(farmerId: int) returns (s: Dashboard.Stats)
      ensures s == Dashboard.DashboardOf(products, orders, reviews, farmerId)
    {
      s := Dashboard.DashboardOf(products, orders, reviews, farmerId);
    }
  }

  /** A signup and login example, replayed against the
      contracts above: the first account gets id 1, a second signup with
      the same e-mail is refused with 409, and the stored account logs in
      with its password but not with another one. */
  method SignupAndLoginExample(hashed: string, matches: (string, string) -> bool)
    requires matches("secret1", hashed) && !matches("wrong-password", hashed)
  {
    var store := new Marketplace();
    var req := Accounts.SignupRequest("A", "a@b.com", "secret1", "farmer", "x");
    Text.EmailExamples();
    assert Accounts.CheckSignup(req).None?;
    var first := store.Signup(req, hashed, "t0");
    var account := Accounts.NewUser([], req, hashed, "t0");
    assert store.users == [account];
    assert first.Ok? && first.value.user.id == 1;
    var again := req.(name := "B");
    assert Accounts.CheckSignup(again).None?;
    assert store.users[0].email == again.email;
    var second := store.Signup(again, hashed, "t1");
    assert second == Err(EmailTaken) && store.users == [account];
    LoginExample(store, account, matches);
  }

  /** Continues the example above on the store it leaves behind. */
  method LoginExample(store: Marketplace, account: User, matches: (string, string) -> bool)
    requires store.Valid() && store.users == [account]
    requires account.id == 1 && account.email == "a@b.com"
    requires matches("secret1", account.passwordHash) && !matches("wrong-password", account.passwordHash)
  {
    var wrong := store.Login("a@b.com", "wrong-password", matches);
    assert wrong == Err(BadCredentials);
    var right := store.Login("a@b.com", "secret1", matches);
    assert store.users[0].email == "a@b.com" && matches("secret1", store.users[0].passwordHash);
    assert right.Ok? && right.value.user.id == 1;
  }
}
