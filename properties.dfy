/**
 * Properties that relate several handlers of the marketplace server, and
 * the end-to-end scenario of a farmer, a vendor and the administrator.
 */
module Properties {
  import opened Schema
  import opened Rows
  import opened Server

  /** Running `init_db` again never adds a second administrator. */
  lemma SeedAdminIdempotent(users: seq<User>, id: nat, id': nat, digest: Digest, digest': Digest,
                            now: Timestamp, now': Timestamp)
    ensures SeedAdmin(SeedAdmin(users, id, digest, now), id', digest', now') == SeedAdmin(users, id, digest, now)
  {
  }

  /**
   * The row a successful signup appends is the one a login with the same
   * email and password finds: the email was not taken, so no earlier row
   * can match first.
   */
  lemma {:induction false} LoginFindsSignedUpUser(users: seq<User>, u: User)
    requires !EmailTaken(users, u.email)
    ensures FindByCredentials(users + [u], u.email, u.password) == Some(|users|)
  {
    var all := users + [u];
    assert all[|users|] == u;
    forall j | 0 <= j < |users| ensures all[j].email != u.email {
      assert all[j] == users[j];
    }
  }

  /**
   * In a consistent store a signed-in session always resolves: `/api/auth/me`
   * never answers 404.
   */
  lemma MeResolves(s: Store)
    requires s.Valid() && s.session.SignedIn?
    ensures s.GetCurrentUser().Ok?
    ensures s.GetCurrentUser().value.id == s.session.userId
    ensures s.GetCurrentUser().value.role == s.session.role
  {
    FindUserHasRole(s.users, s.userSeq, s.session.userId, s.session.role);
  }

  /**
   * A consistent store holds only successful transactions, so the pending
   * and failed counts are zero and every transaction counts toward revenue.
   */
  lemma StatsOfConsistentStore(s: Store)
    requires s.Valid()
    ensures StatsOf(s.users, s.transactions).pendingTransactions == 0
    ensures StatsOf(s.users, s.transactions).failedTransactions == 0
    ensures StatsOf(s.users, s.transactions).totalTransactions == |s.transactions|
  {
  }

  /** Recording a successful payment adds one transaction and its amount to the revenue; nothing else moves. */
  lemma StatsAfterTransaction(users: seq<User>, transactions: seq<Transaction>, t: Transaction)
    requires t.status == Success
    ensures var before := StatsOf(users, transactions);
            StatsOf(users, transactions + [t]) ==
              before.(totalTransactions := before.totalTransactions + 1,
                      successfulTransactions := before.successfulTransactions + 1,
                      totalRevenue := before.totalRevenue + t.amount)
  {
    CountAppend(transactions, t, IsSuccess);
    SumAppend(transactions, t, IsSuccess, Amount);
    CountAppend(transactions, t, IsTxPending);
    CountAppend(transactions, t, IsFailed);
  }

  /** Stamping a login time changes no statistic. */
  lemma StatsIgnoreLastLogin(users: seq<User>, transactions: seq<Transaction>, i: nat, at: Timestamp)
    requires i < |users|
    ensures StatsOf(users[i := users[i].(lastLogin := Some(at))], transactions) == StatsOf(users, transactions)
  {
    var x := users[i].(lastLogin := Some(at));
    CountUpdate(users, i, x, IsActiveMember);
    CountUpdate(users, i, x, IsBlocked);
    CountUpdate(users, i, x, IsFarmer);
    CountUpdate(users, i, x, IsVendor);
  }

  /** Blocking an active farmer or vendor moves one user from the active count to the blocked count. */
  lemma StatsAfterBlocking(users: seq<User>, transactions: seq<Transaction>, i: nat)
    requires i < |users| && users[i].status == Some(Active) && users[i].role != Admin
    ensures var before := StatsOf(users, transactions);
            StatsOf(users[i := users[i].(status := Some(Blocked))], transactions) ==
              before.(activeUsers := before.activeUsers - 1, blockedUsers := before.blockedUsers + 1)
  {
    var x := users[i].(status := Some(Blocked));
    CountUpdate(users, i, x, IsActiveMember);
    CountUpdate(users, i, x, IsBlocked);
    CountUpdate(users, i, x, IsFarmer);
    CountUpdate(users, i, x, IsVendor);
  }

  /** Signing up and then logging in with the same plaintext password and type succeeds. */
  method SignupThenLogin(s: Store, name: string, email: string, password: string, role: Role,
                         t1: Timestamp, t2: Timestamp)
    returns (signedUp: Result<PublicUser, Error>, loggedIn: Result<PublicUser, Error>)
    requires s.Valid()
    requires name != "" && email != "" && password != ""
    requires !EmailTaken(s.users, email)
    modifies s
    ensures s.Valid()
    ensures signedUp.Ok? && loggedIn == signedUp
    ensures s.session == SignedIn(signedUp.value.id, role)
  {
    signedUp := s.Signup(Some(name), Some(email), Some(password), Some(role.Name()), t1);
    ghost var before := s.users;
    LoginFindsSignedUpUser(old(s.users), before[|before| - 1]);
    s.Logout();
    loggedIn := s.Login(Some(email), Some(password), Some(role.Name()), t2);
  }

  lemma CountThree<T>(x: T, y: T, z: T, p: T -> bool)
    ensures Count([x, y, z], p) == (if p(x) then 1 else 0) + (if p(y) then 1 else 0) + (if p(z) then 1 else 0)
  {
    assert [x, y, z][1..] == [y, z] && [y, z][1..] == [z] && [z][1..] == [];
  }

  /** The statistics over three active users (administrator, farmer, vendor) and one payment. */
  lemma ThreeUsersOnePayment(a: User, f: User, v: User, t: Transaction)
    requires a.role == Admin && f.role == Farmer && v.role == Vendor
    requires a.status == Some(Active) && f.status == Some(Active) && v.status == Some(Active)
    requires t.status == Success && t.amount == 2000
    ensures StatsOf([a, f, v], [t]) == Stats(2, 0, 1, 1, 1, 1, 2000, 0, 0)
  {
    CountThree(a, f, v, IsActiveMember);
    CountThree(a, f, v, IsBlocked);
    CountThree(a, f, v, IsFarmer);
    CountThree(a, f, v, IsVendor);
    assert [t][1..] == [];
  }

  /** `init_db` on an empty database seeds the administrator as user 1. */
  method FreshDatabase(hash: string -> Digest) returns (store: Store)
    ensures fresh(store) && store.Valid() && store.hash == hash
    ensures |store.users| == 1 && store.userSeq == 1 && store.session == Anonymous
    ensures store.users[0].id == 1 && store.users[0].email == AdminEmail
    ensures store.users[0].password == hash(AdminPassword)
    ensures store.users[0].role == Admin && store.users[0].status == Some(Active)
    ensures store.listings == [] && store.transactions == []
  {
    store := new Store(hash, true);
    store.InitDb(0);
  }

  /**
   * From an empty database: the administrator is seeded, a farmer signs up
   * and lists 100 kg of wheat at 20 per kg. Nobody may read the statistics
   * before signing in.
   */
  method FarmerListsWheat(hash: string -> Digest) returns (store: Store, anonymousStats: Result<Stats, Error>)
    ensures fresh(store) && store.Valid() && store.hash == hash
    ensures anonymousStats == Err(Unauthorized)
    ensures |store.users| == 2 && store.userSeq == 2
    ensures store.users[0].email == AdminEmail && store.users[0].password == hash(AdminPassword)
    ensures store.users[1].email == "f1@example.com"
    ensures store.users[0].role == Admin && store.users[1].role == Farmer
    ensures store.users[0].status == Some(Active) && store.users[1].status == Some(Active)
    ensures |store.listings| == 1 && store.listings[0].farmerName == "F1"
    ensures store.transactions == []
  {
    store := FreshDatabase(hash);
    ghost var admin := store.users[0];
    assert store.users == [admin];
    anonymousStats := store.GetStats();
    var farmer := store.Signup(Some("F1"), Some("f1@example.com"), Some("wheat-pw"), Some("Farmer"), 1);
    var listing := store.CreateListing(Some("Wheat"), Some(100), Some(20), 2);
    FindUserAt(store.users, store.userSeq, 1);
  }

  /**
   * Then a vendor signs up, is refused when listing a crop, accepts the
   * farmer's listing and pays 2000 for it.
   */
  method TradeWheat(hash: string -> Digest)
    returns (store: Store, vendorListing: Result<nat, Error>, anonymousStats: Result<Stats, Error>)
    ensures fresh(store) && store.Valid() && store.hash == hash
    ensures vendorListing == Err(Unauthorized)
    ensures anonymousStats == Err(Unauthorized)
    ensures |store.users| == 3
    ensures store.users[0].email == AdminEmail && store.users[0].password == hash(AdminPassword)
    ensures store.users[0].role == Admin && store.users[1].role == Farmer && store.users[2].role == Vendor
    ensures forall i :: 0 <= i < 3 ==> store.users[i].status == Some(Active)
    ensures |store.listings| == 1 && store.listings[0].status == Some(Accepted)
    ensures store.listings[0].acceptedBy == Some(3) && store.listings[0].farmerName == "F1"
    ensures |store.transactions| == 1 && store.transactions[0].amount == 2000
  {
    store, anonymousStats := FarmerListsWheat(hash);
    ghost var before := store.users;
    assert !EmailTaken(before, "v1@example.com");
    var vendor := store.Signup(Some("V1"), Some("v1@example.com"), Some("seed-pw"), Some("Vendor"), 3);
    assert HasRole(store.users, 3, Vendor) by {
      assert store.users[2].id == 3;
    }
    vendorListing := store.CreateListing(Some("Rice"), Some(5), Some(7), 4);
    var accepted := store.UpdateListing(1, Given("Accepted"), 5);
    var paid := store.CreateTransaction(Some(1), Some(2), Some("Wheat"), Some(100), Some(20), Some(2000), 6);
  }

  /** After that trade the administrator signs in with the seeded credentials. */
  method AdminSignsIn(hash: string -> Digest)
    returns (store: Store, vendorListing: Result<nat, Error>, anonymousStats: Result<Stats, Error>)
    ensures fresh(store) && store.Valid()
    ensures vendorListing == Err(Unauthorized)
    ensures anonymousStats == Err(Unauthorized)
    ensures store.session.SignedIn? && store.session.role == Admin
    ensures |store.users| == 3
    ensures store.users[0].role == Admin && store.users[1].role == Farmer && store.users[2].role == Vendor
    ensures forall i :: 0 <= i < 3 ==> store.users[i].status == Some(Active)
    ensures |store.transactions| == 1 && store.transactions[0].amount == 2000
  {
    store, vendorListing, anonymousStats := TradeWheat(hash);
    store.Logout();
    assert FindByCredentials(store.users, AdminEmail, hash(AdminPassword)) == Some(0);
    var signedIn := store.Login(Some(AdminEmail), Some(AdminPassword), Some("Admin"), 7);
    assert signedIn.Ok?;
  }

  /** The administrator then reads the statistics: one transaction, revenue 2000. */
  method MarketScenario(hash: string -> Digest)
    returns (vendorListing: Result<nat, Error>, anonymousStats: Result<Stats, Error>, stats: Result<Stats, Error>)
    ensures vendorListing == Err(Unauthorized)
    ensures anonymousStats == Err(Unauthorized)
    ensures stats == Ok(Stats(2, 0, 1, 1, 1, 1, 2000, 0, 0))
  {
    var store;
    store, vendorListing, anonymousStats := AdminSignsIn(hash);
    var users, transactions := store.users, store.transactions;
    assert users == [users[0], users[1], users[2]];
    assert transactions == [transactions[0]];
    ThreeUsersOnePayment(users[0], users[1], users[2], transactions[0]);
    stats := store.GetStats();
  }

  /**
   * A restart runs `init_db` again on the seeded database: nothing is added,
   * but the ignored seed still draws id 2.
   */
  method SeedTwice(hash: string -> Digest) returns (store: Store)
    ensures fresh(store) && store.Valid() && store.hash == hash
    ensures |store.users| == 1 && store.users[0].email == AdminEmail && store.users[0].id == 1
    ensures store.userSeq == 2 && store.session == Anonymous
  {
    store := FreshDatabase(hash);
    ghost var seeded := store.users;
    assert seeded == [seeded[0]];
    store.InitDb(1);
  }

  /** So the first signup after that restart gets id 3, not 2. */
  method RestartThenSignup(hash: string -> Digest) returns (signedUp: Result<PublicUser, Error>)
    ensures signedUp == Ok(PublicUser(3, "F1", "f1@example.com", Farmer))
  {
    var store := SeedTwice(hash);
    assert !EmailTaken(store.users, "f1@example.com");
    signedUp := store.Signup(Some("F1"), Some("f1@example.com"), Some("wheat-pw"), Some("Farmer"), 2);
  }
}
