/**
 * The request handlers of the marketplace server as operations on one
 * in-memory store: the four tables and the session of one browser.
 *
 * The handlers that write (signup, login, logout, the three create
 * handlers, the listing and user updates, database initialisation) are
 * methods of `Store`; the handlers that only read are functions of it.
 * The password hasher is the store's `hash` constant, of which nothing is
 * assumed; each write takes the current time as `now`.
 */
module Server {
  import opened Schema
  import opened Rows

  /** The seeded administrator's credentials. */
  const AdminEmail: string := "admin@aibs.com"
  const AdminPassword: string := "admin123"

  /** Python truthiness of an optional string: present and not empty. */
  predicate Present(o: Option<string>) {
    o.Some? && o.value != ""
  }

  /** Some row of `users` has this email. */
  predicate EmailTaken(users: seq<User>, email: string) {
    exists i :: 0 <= i < |users| && users[i].email == email
  }

  /** Some row of `users` has this id. */
  predicate IsUserId(users: seq<User>, id: int) {
    exists i :: 0 <= i < |users| && users[i].id == id
  }

  /** Some row of `users` has this id and holds `role`. */
  predicate HasRole(users: seq<User>, id: int, role: Role) {
    exists i :: 0 <= i < |users| && users[i].id == id && users[i].role == role
  }

  // ---------------------------------------------------------------------
  // The invariant of the store
  // ---------------------------------------------------------------------

  /**
   * AUTOINCREMENT ids: each is positive and at most `lastId`, the largest id
   * handed out so far, and they increase in insertion order (there are no
   * deletes). They need not be consecutive. Emails are unique.
   */
  ghost predicate UsersValid(users: seq<User>, lastId: nat) {
    && (forall i :: 0 <= i < |users| ==> 1 <= users[i].id <= lastId)
    && (forall i, j :: 0 <= i < j < |users| ==> users[i].id < users[j].id)
    && (forall i, j :: 0 <= i < j < |users| ==> users[i].email != users[j].email)
  }

  /** A session names an existing user together with that user's registered role. */
  ghost predicate SessionValid(session: Session, users: seq<User>) {
    session.SignedIn? ==> HasRole(users, session.userId, session.role)
  }

  /**
   * A listing belongs to a farmer; it carries an acceptor exactly when it
   * carries an acceptance time; an Accepted listing has both.
   */
  ghost predicate ListingValid(l: Listing, users: seq<User>) {
    && HasRole(users, l.farmerId, Farmer)
    && (l.acceptedBy.Some? <==> l.acceptedAt.Some?)
    && (l.status == Some(Accepted) ==> l.acceptedBy.Some?)
    && (l.acceptedBy.Some? ==> IsUserId(users, l.acceptedBy.value))
  }

  ghost predicate ListingsValid(listings: seq<Listing>, users: seq<User>) {
    forall i :: 0 <= i < |listings| ==> listings[i].id == i + 1 && ListingValid(listings[i], users)
  }

  ghost predicate SuppliesValid(supplies: seq<Supply>, users: seq<User>) {
    forall i :: 0 <= i < |supplies| ==> supplies[i].id == i + 1 && HasRole(users, supplies[i].vendorId, Vendor)
  }

  /** Every stored transaction was written by a vendor, as a successful online payment. */
  ghost predicate TransactionsValid(transactions: seq<Transaction>, users: seq<User>) {
    forall i :: 0 <= i < |transactions| ==>
      && transactions[i].id == i + 1
      && HasRole(users, transactions[i].vendorId, Vendor)
      && transactions[i].status == Success
      && transactions[i].payMethod == "Online"
  }

  /** `after` keeps every row of `before` at its place with its id and role (rows may be added at the end). */
  ghost predicate KeepsRoles(before: seq<User>, after: seq<User>) {
    && |before| <= |after|
    && forall i :: 0 <= i < |before| ==> after[i].id == before[i].id && after[i].role == before[i].role
  }

  lemma KeepsRolesHasRole(users: seq<User>, users': seq<User>, id: int, role: Role)
    requires KeepsRoles(users, users') && HasRole(users, id, role)
    ensures HasRole(users', id, role) && IsUserId(users', id)
  {
    var i :| 0 <= i < |users| && users[i].id == id && users[i].role == role;
    assert users'[i].id == id && users'[i].role == role;
  }

  lemma KeepsRolesIsUserId(users: seq<User>, users': seq<User>, id: int)
    requires KeepsRoles(users, users') && IsUserId(users, id)
    ensures IsUserId(users', id)
  {
    var i :| 0 <= i < |users| && users[i].id == id;
    assert users'[i].id == id;
  }

  /** Everything the store's invariant asks of the rows that refer to users. */
  ghost predicate RowsValid(users: seq<User>, session: Session, listings: seq<Listing>,
                            supplies: seq<Supply>, transactions: seq<Transaction>) {
    && SessionValid(session, users)
    && ListingsValid(listings, users)
    && SuppliesValid(supplies, users)
    && TransactionsValid(transactions, users)
  }

  lemma KeepsRolesPreservesRows(users: seq<User>, users': seq<User>, session: Session,
                                listings: seq<Listing>, supplies: seq<Supply>, transactions: seq<Transaction>)
    requires KeepsRoles(users, users')
    requires RowsValid(users, session, listings, supplies, transactions)
    ensures RowsValid(users', session, listings, supplies, transactions)
  {
    if session.SignedIn? {
      KeepsRolesHasRole(users, users', session.userId, session.role);
    }
    forall i | 0 <= i < |listings| ensures ListingValid(listings[i], users') {
      assert ListingValid(listings[i], users);
      KeepsRolesHasRole(users, users', listings[i].farmerId, Farmer);
      if listings[i].acceptedBy.Some? {
        KeepsRolesIsUserId(users, users', listings[i].acceptedBy.value);
      }
    }
    forall i | 0 <= i < |supplies| ensures HasRole(users', supplies[i].vendorId, Vendor) {
      KeepsRolesHasRole(users, users', supplies[i].vendorId, Vendor);
    }
    forall i | 0 <= i < |transactions| ensures HasRole(users', transactions[i].vendorId, Vendor) {
      KeepsRolesHasRole(users, users', transactions[i].vendorId, Vendor);
    }
  }

  // ---------------------------------------------------------------------
  // Lookups
  // ---------------------------------------------------------------------

  /** `SELECT * FROM users WHERE email = ? AND password = ?` then `fetchone()`: the first matching row. */
  function FindByCredentials(users: seq<User>, email: string, digest: Digest): (r: Option<nat>)
    ensures r.Some? ==> r.value < |users| && users[r.value].email == email && users[r.value].password == digest
    ensures r.Some? ==> forall j :: 0 <= j < r.value ==> !(users[j].email == email && users[j].password == digest)
    ensures r.None? ==> forall j :: 0 <= j < |users| ==> !(users[j].email == email && users[j].password == digest)
  {
    if users == [] then None
    else if users[0].email == email && users[0].password == digest then Some(0)
    else
      match FindByCredentials(users[1..], email, digest)
      case None => None
      case Some(k) => Some(k + 1)
  }

  /** `SELECT ... FROM users WHERE id = ?` then `fetchone()`: the position of the first row with that id. */
  function FindUser(users: seq<User>, id: int): (r: Option<nat>)
    ensures r.Some? ==> r.value < |users| && users[r.value].id == id
    ensures r.Some? ==> forall j :: 0 <= j < r.value ==> users[j].id != id
    ensures r.None? ==> forall i :: 0 <= i < |users| ==> users[i].id != id
  {
    if users == [] then None
    else if users[0].id == id then Some(0)
    else
      match FindUser(users[1..], id)
      case None => None
      case Some(k) => Some(k + 1)
  }

  /** Ids are unique, so the lookup by a row's id finds that very row. */
  lemma FindUserAt(users: seq<User>, lastId: nat, k: nat)
    requires UsersValid(users, lastId) && k < |users|
    ensures FindUser(users, users[k].id) == Some(k)
  {
  }

  /** The lookup by the id of a user holding `role` finds a row holding it. */
  lemma FindUserHasRole(users: seq<User>, lastId: nat, id: int, role: Role)
    requires UsersValid(users, lastId) && HasRole(users, id, role)
    ensures FindUser(users, id).Some? && users[FindUser(users, id).value].role == role
  {
    var i :| 0 <= i < |users| && users[i].id == id && users[i].role == role;
    FindUserAt(users, lastId, i);
  }

  // ---------------------------------------------------------------------
  // Database initialisation
  // ---------------------------------------------------------------------

  /**
   * `INSERT OR IGNORE` of the default administrator with id `nextId`: the
   * row is added only when no user has the administrator's email yet.
   */
  function SeedAdmin(users: seq<User>, nextId: nat, digest: Digest, now: Timestamp): (r: seq<User>)
    ensures EmailTaken(r, AdminEmail)
    ensures EmailTaken(users, AdminEmail) ==> r == users
    ensures |users| <= |r| <= |users| + 1 && r[..|users|] == users
    ensures !EmailTaken(users, AdminEmail) ==>
              && |r| == |users| + 1
              && r[|users|].id == nextId && r[|users|].name == "Admin"
              && r[|users|].email == AdminEmail && r[|users|].password == digest
              && r[|users|].role == Admin && r[|users|].status == Some(Active)
              && r[|users|].createdAt == now && r[|users|].lastLogin == None
  {
    if EmailTaken(users, AdminEmail) then users
    else
      var admin := User(nextId, "Admin", AdminEmail, digest, Admin, Some(Active), now, None);
      assert (users + [admin])[|users|] == admin;
      users + [admin]
  }

  // ---------------------------------------------------------------------
  // Listing queries and updates
  // ---------------------------------------------------------------------

  /** One `AND` term of the listings query. */
  datatype Condition = StatusIs(status: string) | FarmerIs(farmerId: int)

  /**
   * The terms appended after `WHERE 1=1`: a status term when the status
   * argument is present and not empty, a farmer term when a farmer id is given.
   */
  function ListingQuery(status: Option<string>, farmerId: Option<int>): seq<Condition> {
    var byStatus := if Present(status) then [StatusIs(status.value)] else [];
    var byFarmer := if farmerId.Some? then [FarmerIs(farmerId.value)] else [];
    byStatus + byFarmer
  }

  /** A NULL status equals no text. */
  predicate Holds(l: Listing, c: Condition) {
    match c
    case StatusIs(s) => l.status.Some? && l.status.value.Name() == s
    case FarmerIs(f) => l.farmerId == f
  }

  /** `1=1 AND c1 AND c2 ...` */
  predicate Satisfies(l: Listing, conds: seq<Condition>) {
    forall i :: 0 <= i < |conds| ==> Holds(l, conds[i])
  }

  /** The row predicate of the listings query built from the request's arguments. */
  function ListingFilter(status: Option<string>, farmerId: Option<int>): Listing -> bool {
    (l: Listing) => Satisfies(l, ListingQuery(status, farmerId))
  }

  /** `WHERE vendor_id = ?` on supplies and on transactions. */
  function SupplyOf(vendorId: int): Supply -> bool { (s: Supply) => s.vendorId == vendorId }
  function PaidBy(vendorId: int): Transaction -> bool { (t: Transaction) => t.vendorId == vendorId }

  function CreatedAt(l: Listing): int { l.createdAt }
  function SupplyCreatedAt(s: Supply): int { s.createdAt }
  function TxTimestamp(t: Transaction): int { t.timestamp }

  /** One assignment of the `SET` clause of the listing update. */
  datatype Assignment = SetStatus(value: Option<string>) | SetAcceptedBy(userId: nat) | SetAcceptedAt(at: Timestamp)

  /**
   * `UPDATE listings SET a1, a2, ...` on one row, assignments applied in
   * order. None when the new status fails the CHECK constraint (NULL passes it).
   */
  function Apply(l: Listing, fields: seq<Assignment>): Option<Listing>
    decreases |fields|
  {
    if fields == [] then Some(l)
    else
      match fields[0]
      case SetStatus(v) =>
        if v.Some? && ParseListingStatus(v.value).None? then None
        else Apply(l.(status := if v.Some? then ParseListingStatus(v.value) else None), fields[1..])
      case SetAcceptedBy(u) => Apply(l.(acceptedBy := Some(u)), fields[1..])
      case SetAcceptedAt(t) => Apply(l.(acceptedAt := Some(t)), fields[1..])
  }

  /**
   * What a listing update is meant to do to its row: set the status and,
   * when that status is Accepted, stamp who accepted it and when.
   */
  function Patched(l: Listing, status: Option<ListingStatus>, acceptor: nat, now: Timestamp): (r: Listing)
    ensures r.id == l.id && r.farmerId == l.farmerId && r.farmerName == l.farmerName
    ensures r.crop == l.crop && r.quantityKg == l.quantityKg && r.pricePerKg == l.pricePerKg
    ensures r.createdAt == l.createdAt && r.status == status
    ensures status == Some(Accepted) ==> r.acceptedBy == Some(acceptor) && r.acceptedAt == Some(now)
    ensures status != Some(Accepted) ==> r.acceptedBy == l.acceptedBy && r.acceptedAt == l.acceptedAt
  {
    if status == Some(Accepted) then l.(status := status, acceptedBy := Some(acceptor), acceptedAt := Some(now))
    else l.(status := status)
  }

  // ---------------------------------------------------------------------
  // Statistics
  // ---------------------------------------------------------------------

  predicate IsActiveMember(u: User) { u.status == Some(Active) && u.role != Admin }
  predicate IsBlocked(u: User) { u.status == Some(Blocked) }
  predicate IsFarmer(u: User) { u.role == Farmer }
  predicate IsVendor(u: User) { u.role == Vendor }
  predicate IsSuccess(t: Transaction) { t.status == Success }
  predicate IsTxPending(t: Transaction) { t.status == TxPending }
  predicate IsFailed(t: Transaction) { t.status == Failed }
  function Amount(t: Transaction): int { t.amount }

  /** The nine aggregates of the statistics endpoint over the two tables. */
  function StatsOf(users: seq<User>, transactions: seq<Transaction>): (st: Stats)
    ensures st.totalTransactions == st.successfulTransactions
    ensures st.successfulTransactions == 0 ==> st.totalRevenue == 0
    ensures st.activeUsers + st.blockedUsers <= |users|
    ensures st.farmers + st.vendors <= |users|
  {
    CountDisjoint(users, IsActiveMember, IsBlocked);
    CountDisjoint(users, IsFarmer, IsVendor);
    var successes := Count(transactions, IsSuccess);
    Stats(
      Count(users, IsActiveMember),
      Count(users, IsBlocked),
      Count(users, IsFarmer),
      Count(users, IsVendor),
      successes,
      successes,
      Sum(transactions, IsSuccess, Amount),
      Count(transactions, IsTxPending),
      Count(transactions, IsFailed))
  }

  /** Two row predicates that never hold together count at most all rows between them. */
  lemma {:induction false} CountDisjoint<T>(s: seq<T>, p: T -> bool, q: T -> bool)
    requires forall x :: !(p(x) && q(x))
    ensures Count(s, p) + Count(s, q) <= |s|
  {
    if s != [] {
      CountDisjoint(s[1..], p, q);
    }
  }

  // ---------------------------------------------------------------------
  // The store
  // ---------------------------------------------------------------------

  class Store {
    /** The password hasher (a digest of the text); nothing is assumed of it. */
    const hash: string -> Digest
    /** Whether the supplies table still has its category CHECK constraint (the migration drops it). */
    const categoryChecked: bool

    var users: seq<User>
    /**
     * The users row of `sqlite_sequence`: the largest id AUTOINCREMENT has
     * handed out. An ignored `INSERT OR IGNORE` still draws an id.
     */
    var userSeq: nat
    var listings: seq<Listing>
    var supplies: seq<Supply>
    var transactions: seq<Transaction>
    var session: Session

    ghost predicate Valid()
      reads this
    {
      && UsersValid(users, userSeq)
      && RowsValid(users, session, listings, supplies, transactions)
    }

    /** A fresh database file: the tables exist and are empty; nobody is signed in. */
    constructor (hash: string -> Digest, categoryChecked: bool)
      ensures Valid()
      ensures this.hash == hash && this.categoryChecked == categoryChecked
      ensures users == [] && listings == [] && supplies == [] && transactions == []
      ensures userSeq == 0 && session == Anonymous
    {
      this.hash := hash;
      this.categoryChecked := categoryChecked;
      users, listings, supplies, transactions := [], [], [], [];
      userSeq := 0;
      session := Anonymous;
    }

    /**
     * `init_db`: create the tables if missing and seed the administrator
     * unless its email is taken. The id drawn for the seed is consumed
     * either way, so a restart on a seeded database leaves a gap in the ids.
     */
    method InitDb(now: Timestamp)
      requires Valid()
      modifies this
      ensures Valid()
      ensures users == SeedAdmin(old(users), old(userSeq) + 1, hash(AdminPassword), now)
      ensures userSeq == old(userSeq) + 1
      ensures listings == old(listings) && supplies == old(supplies) && transactions == old(transactions)
      ensures session == old(session)
    {
      SeedAdminKeepsStoreValid(users, userSeq, hash(AdminPassword), now, session, listings, supplies, transactions);
      users, userSeq := SeedAdmin(users, userSeq + 1, hash(AdminPassword), now), userSeq + 1;
    }

    /** `POST /api/auth/signup`. */
    method Signup(name: Option<string>, email: Option<string>, password: Option<string>,
                  userType: Option<string>, now: Timestamp)
      returns (r: Result<PublicUser, Error>)
      requires Valid()
      modifies this
      ensures Valid()
      ensures listings == old(listings) && supplies == old(supplies) && transactions == old(transactions)
      ensures !(Present(name) && Present(email) && Present(password) && Present(userType)) ==>
                r == Err(MissingFields)
      ensures Present(name) && Present(email) && Present(password) && Present(userType) &&
              (ParseRole(userType.value).None? || EmailTaken(old(users), email.value)) ==>
                r == Err(EmailExists)
      ensures r.Err? ==> users == old(users) && userSeq == old(userSeq) && session == old(session)
      ensures (Present(name) && Present(email) && Present(password) && Present(userType) &&
               ParseRole(userType.value).Some? && !EmailTaken(old(users), email.value)) ==> r.Ok?
      ensures r.Ok? ==>
                && Present(name) && Present(email) && Present(password) && Present(userType)
                && ParseRole(userType.value).Some?
                && !EmailTaken(old(users), email.value)
                && var u := User(old(userSeq) + 1, name.value, email.value, hash(password.value),
                                 ParseRole(userType.value).value, Some(Active), now, Some(now));
                   && users == old(users) + [u]
                   && userSeq == u.id
                   && session == SignedIn(u.id, u.role)
                   && r.value == Public(u)
    {
      if !(Present(name) && Present(email) && Present(password) && Present(userType)) {
        return Err(MissingFields);
      }
      var digest := hash(password.value);
      // The INSERT fails with an IntegrityError on a duplicate email (UNIQUE)
      // and on an unknown type (CHECK); both are answered the same way.
      var role := ParseRole(userType.value);
      if role.None? || EmailTaken(users, email.value) {
        return Err(EmailExists);
      }
      var u := User(userSeq + 1, name.value, email.value, digest, role.value, Some(Active), now, Some(now));
      var users' := users + [u];
      assert UsersValid(users', userSeq + 1) by {
        forall i | 0 <= i < |users| ensures users'[i].email != u.email {
          assert users[i].email != email.value;
        }
      }
      KeepsRolesPreservesRows(users, users', session, listings, supplies, transactions);
      users := users';
      userSeq := userSeq + 1;
      session := SignedIn(u.id, u.role);
      assert HasRole(users, u.id, u.role) by {
        assert users[|users| - 1] == u;
      }
      r := Ok(Public(u));
    }

    /** `POST /api/auth/login`: credentials, then blocked, then role, in that order. */
    method Login(email: Option<string>, password: Option<string>, userType: Option<string>, now: Timestamp)
      returns (r: Result<PublicUser, Error>)
      requires Valid()
      modifies this
      ensures Valid()
      ensures listings == old(listings) && supplies == old(supplies) && transactions == old(transactions)
      ensures userSeq == old(userSeq)
      ensures password.None? ==> r == Err(ServerError)
      ensures password.Some? && email.None? ==> r == Err(InvalidCredentials)
      ensures password.Some? && email.Some? ==>
                var m := FindByCredentials(old(users), email.value, hash(password.value));
                && (m.None? ==> r == Err(InvalidCredentials))
                && (m.Some? && old(users)[m.value].status == Some(Blocked) ==> r == Err(AccountBlocked))
                && (m.Some? && old(users)[m.value].status != Some(Blocked) &&
                    userType != Some(old(users)[m.value].role.Name()) ==>
                      r == Err(RegisteredAs(old(users)[m.value].role)))
                && (r.Ok? ==>
                      && m.Some?
                      && var u := old(users)[m.value];
                         && users == old(users)[m.value := u.(lastLogin := Some(now))]
                         && session == SignedIn(u.id, u.role)
                         && r.value == Public(u))
      ensures r.Err? ==> users == old(users) && session == old(session)
      ensures r.Ok? <==>
                && password.Some? && email.Some?
                && var m := FindByCredentials(old(users), email.value, hash(password.value));
                   && m.Some?
                   && old(users)[m.value].status != Some(Blocked)
                   && userType == Some(old(users)[m.value].role.Name())
    {
      if password.None? {
        // hash_password(None) raises before the query runs.
        return Err(ServerError);
      }
      var digest := hash(password.value);
      if email.None? {
        // `email = NULL` matches no row.
        return Err(InvalidCredentials);
      }
      var m := FindByCredentials(users, email.value, digest);
      if m.None? {
        return Err(InvalidCredentials);
      }
      var u := users[m.value];
      if u.status == Some(Blocked) {
        return Err(AccountBlocked);
      }
      if userType != Some(u.role.Name()) {
        return Err(RegisteredAs(u.role));
      }
      var users' := users[m.value := u.(lastLogin := Some(now))];
      KeepsRolesPreservesRows(users, users', session, listings, supplies, transactions);
      users := users';
      session := SignedIn(u.id, u.role);
      r := Ok(Public(u));
    }

    /** `POST /api/auth/logout`: clear the session, whatever it held. */
    method Logout()
      requires Valid()
      modifies this
      ensures Valid()
      ensures session == Anonymous
      ensures users == old(users) && listings == old(listings)
      ensures userSeq == old(userSeq)
      ensures supplies == old(supplies) && transactions == old(transactions)
    {
      session := Anonymous;
    }

    /** `GET /api/auth/me`. */
    function GetCurrentUser(): (r: Result<PublicUser, Error>)
      reads this
      ensures session.Anonymous? ==> r == Err(NotAuthenticated)
      ensures r == Err(UserNotFound) <==> session.SignedIn? && forall u :: u in users ==> u.id != session.userId
      ensures r.Ok? ==> session.SignedIn? && exists u :: u in users && u.id == session.userId && r.value == Public(u)
      ensures session.SignedIn? && (exists u :: u in users && u.id == session.userId) ==> r.Ok?
    {
      match session
      case Anonymous => Err(NotAuthenticated)
      case SignedIn(id, _) =>
        match FindUser(users, id)
        case None => Err(UserNotFound)
        case Some(k) => Ok(Public(users[k]))
    }

    /** `GET /api/listings`: the listings meeting every given filter, newest first. */
    function GetListings(status: Option<string>, farmerId: Option<int>): (r: seq<Listing>)
      reads this
      ensures forall l :: l in r <==>
                && l in listings
                && (Present(status) ==> l.status.Some? && l.status.value.Name() == status.value)
                && (farmerId.Some? ==> l.farmerId == farmerId.value)
      ensures multiset(r) == multiset(Filter(listings, ListingFilter(status, farmerId)))
      ensures !Present(status) && farmerId.None? ==> multiset(r) == multiset(listings)
      ensures SortedDesc(r, CreatedAt)
    {
      var keep := ListingFilter(status, farmerId);
      ListingFilterConjunctive(status, farmerId);
      FilterAll(listings, keep);
      SameRows(SortDesc(Filter(listings, keep), CreatedAt), Filter(listings, keep));
      SortDesc(Filter(listings, keep), CreatedAt)
    }

    /** `PUT /api/listings/<id>`: any signed-in user may set any listing's status. */
    method UpdateListing(listingId: nat, status: Field<string>, now: Timestamp)
      returns (r: Result<(), Error>)
      requires Valid()
      modifies this
      ensures Valid()
      ensures users == old(users) && supplies == old(supplies) && transactions == old(transactions)
      ensures userSeq == old(userSeq)
      ensures session == old(session)
      ensures old(session).Anonymous? ==> r == Err(Unauthorized)
      ensures old(session).SignedIn? && status.Absent? ==> r == Err(ServerError)
      ensures old(session).SignedIn? && !status.Absent? && !(1 <= listingId <= |old(listings)|) ==> r == Ok(())
      ensures (old(session).SignedIn? && status.Given? && ParseListingStatus(status.value).None? &&
               1 <= listingId <= |old(listings)|) ==> r == Err(ServerError)
      ensures (old(session).SignedIn? && !status.Absent? &&
               (status.Given? ==> ParseListingStatus(status.value).Some? || !(1 <= listingId <= |old(listings)|)))
                ==> r == Ok(())
      ensures r.Err? || !(1 <= listingId <= |old(listings)|) ==> listings == old(listings)
      ensures r.Ok? && 1 <= listingId <= |old(listings)| ==>
                && old(session).SignedIn?
                && var newStatus := if status.Given? then ParseListingStatus(status.value) else None;
                   && (status.Given? ==> newStatus.Some?)
                   && listings == old(listings)[listingId - 1 :=
                        Patched(old(listings)[listingId - 1], newStatus, old(session).userId, now)]
    {
      if session.Anonymous? {
        return Err(Unauthorized);
      }
      var updateFields: seq<Assignment> := [];
      if !status.Absent? {
        updateFields := updateFields + [SetStatus(if status.Given? then Some(status.value) else None)];
      }
      if status == Given("Accepted") {
        updateFields := updateFields + [SetAcceptedBy(session.userId), SetAcceptedAt(now)];
      }
      if updateFields == [] {
        // "UPDATE listings SET  WHERE id = ?" does not parse.
        return Err(ServerError);
      }
      if !(1 <= listingId <= |listings|) {
        // No row has this id: nothing is written and nothing is checked.
        return Ok(());
      }
      var row := listings[listingId - 1];
      var updated := Apply(row, updateFields);
      var newStatus := if status.Given? then ParseListingStatus(status.value) else None;
      var statusSet := row.(status := newStatus);
      if status == Given("Accepted") {
        var tail := [SetAcceptedBy(session.userId), SetAcceptedAt(now)];
        assert updateFields == [SetStatus(Some("Accepted"))] + tail;
        assert Apply(row, updateFields) == Apply(statusSet, tail);
        assert tail[1..] == [SetAcceptedAt(now)];
        var accepted := statusSet.(acceptedBy := Some(session.userId));
        assert Apply(statusSet, tail) == Apply(accepted, [SetAcceptedAt(now)]);
        assert Apply(accepted, [SetAcceptedAt(now)]) == Apply(accepted.(acceptedAt := Some(now)), []);
      } else if status.Null? || newStatus.Some? {
        assert updateFields == [SetStatus(if status.Given? then Some(status.value) else None)];
        assert Apply(row, updateFields) == Apply(statusSet, []);
      }
      if updated.None? {
        // CHECK(status IN ('Pending', 'Accepted', 'Rejected')) fails.
        return Err(ServerError);
      }
      assert updated.value == Patched(row, newStatus, session.userId, now);
      listings := listings[listingId - 1 := updated.value];
      r := Ok(());
    }

    /** `POST /api/listings`: a farmer offers a crop; the row snapshots the farmer's current name. */
    method CreateListing(crop: Option<string>, quantityKg: Option<int>, pricePerKg: Option<int>, now: Timestamp)
      returns (r: Result<nat, Error>)
      requires Valid()
      modifies this
      ensures Valid()
      ensures users == old(users) && supplies == old(supplies) && transactions == old(transactions)
      ensures userSeq == old(userSeq)
      ensures session == old(session)
      ensures !(session.SignedIn? && session.role == Farmer) ==> r == Err(Unauthorized)
      ensures session.SignedIn? && session.role == Farmer && (crop.None? || quantityKg.None? || pricePerKg.None?) ==>
                r == Err(ServerError)
      ensures r.Err? ==> listings == old(listings)
      ensures (session.SignedIn? && session.role == Farmer && crop.Some? && quantityKg.Some? && pricePerKg.Some?)
                ==> r.Ok?
      ensures r.Ok? ==>
                && session.SignedIn? && session.role == Farmer
                && crop.Some? && quantityKg.Some? && pricePerKg.Some?
                && r.value == |old(listings)| + 1
                && FindUser(users, session.userId).Some?
                && listings == old(listings) + [Listing(r.value, session.userId,
                                                        users[FindUser(users, session.userId).value].name,
                                                        crop.value, quantityKg.value, pricePerKg.value,
                                                        Some(Pending), None, now, None)]
    {
      if !(session.SignedIn? && session.role == Farmer) {
        return Err(Unauthorized);
      }
      FindUserHasRole(users, userSeq, session.userId, Farmer);
      var farmer := users[FindUser(users, session.userId).value];
      if crop.None? || quantityKg.None? || pricePerKg.None? {
        // A missing key raises KeyError; a null violates NOT NULL.
        return Err(ServerError);
      }
      var id := |listings| + 1;
      listings := listings + [Listing(id, session.userId, farmer.name, crop.value, quantityKg.value,
                                      pricePerKg.value, Some(Pending), None, now, None)];
      r := Ok(id);
    }

    /** `GET /api/supplies`: all supplies, or one vendor's, newest first. */
    function GetSupplies(vendorId: Option<int>): (r: seq<Supply>)
      reads this
      ensures forall s :: s in r <==> s in supplies && (vendorId.Some? ==> s.vendorId == vendorId.value)
      ensures vendorId.Some? ==> multiset(r) == multiset(Filter(supplies, SupplyOf(vendorId.value)))
      ensures vendorId.None? ==> multiset(r) == multiset(supplies)
      ensures SortedDesc(r, SupplyCreatedAt)
    {
      var rows := if vendorId.Some? then Filter(supplies, SupplyOf(vendorId.value)) else supplies;
      SameRows(SortDesc(rows, SupplyCreatedAt), rows);
      SortDesc(rows, SupplyCreatedAt)
    }

    /** `POST /api/supplies`: a vendor offers a product; the row snapshots the vendor's current name. */
    method CreateSupply(name: Option<string>, category: Option<string>, price: Option<int>, now: Timestamp)
      returns (r: Result<nat, Error>)
      requires Valid()
      modifies this
      ensures Valid()
      ensures users == old(users) && listings == old(listings) && transactions == old(transactions)
      ensures userSeq == old(userSeq)
      ensures session == old(session)
      ensures !(session.SignedIn? && session.role == Vendor) ==> r == Err(Unauthorized)
      ensures session.SignedIn? && session.role == Vendor && (name.None? || category.None? || price.None?) ==>
                r == Err(ServerError)
      ensures (session.SignedIn? && session.role == Vendor && category.Some? && categoryChecked &&
               !IsCategory(category.value)) ==> r == Err(ServerError)
      ensures r.Err? ==> supplies == old(supplies)
      ensures (session.SignedIn? && session.role == Vendor && name.Some? && category.Some? && price.Some? &&
               (categoryChecked ==> IsCategory(category.value))) ==> r.Ok?
      ensures r.Ok? ==>
                && session.SignedIn? && session.role == Vendor
                && name.Some? && category.Some? && price.Some?
                && (categoryChecked ==> IsCategory(category.value))
                && r.value == |old(supplies)| + 1
                && FindUser(users, session.userId).Some?
                && supplies == old(supplies) + [Supply(r.value, session.userId,
                                                       users[FindUser(users, session.userId).value].name,
                                                       name.value, category.value, price.value, now)]
    {
      if !(session.SignedIn? && session.role == Vendor) {
        return Err(Unauthorized);
      }
      FindUserHasRole(users, userSeq, session.userId, Vendor);
      var vendor := users[FindUser(users, session.userId).value];
      if name.None? || category.None? || price.None? {
        return Err(ServerError);
      }
      if categoryChecked && !IsCategory(category.value) {
        // CHECK(category IN ('Fertilizer', 'Pesticide', 'Seeds')) fails.
        return Err(ServerError);
      }
      var id := |supplies| + 1;
      supplies := supplies + [Supply(id, session.userId, vendor.name, name.value, category.value, price.value, now)];
      r := Ok(id);
    }

    /** `GET /api/transactions`: all transactions, or one vendor's, newest first. */
    function GetTransactions(vendorId: Option<int>): (r: seq<Transaction>)
      reads this
      ensures forall t :: t in r <==> t in transactions && (vendorId.Some? ==> t.vendorId == vendorId.value)
      ensures vendorId.Some? ==> multiset(r) == multiset(Filter(transactions, PaidBy(vendorId.value)))
      ensures vendorId.None? ==> multiset(r) == multiset(transactions)
      ensures SortedDesc(r, TxTimestamp)
    {
      var rows := if vendorId.Some? then Filter(transactions, PaidBy(vendorId.value)) else transactions;
      SameRows(SortDesc(rows, TxTimestamp), rows);
      SortDesc(rows, TxTimestamp)
    }

    /**
     * `POST /api/transactions`: the vendor comes from the session; the rest
     * is taken from the body unchecked; status and method are fixed.
     */
    method CreateTransaction(listingId: Option<int>, farmerId: Option<int>, crop: Option<string>,
                             quantityKg: Option<int>, pricePerKg: Option<int>, amount: Option<int>,
                             now: Timestamp)
      returns (r: Result<nat, Error>)
      requires Valid()
      modifies this
      ensures Valid()
      ensures users == old(users) && listings == old(listings) && supplies == old(supplies)
      ensures userSeq == old(userSeq)
      ensures session == old(session)
      ensures !(session.SignedIn? && session.role == Vendor) ==> r == Err(Unauthorized)
      ensures (session.SignedIn? && session.role == Vendor &&
               (listingId.None? || farmerId.None? || crop.None? || quantityKg.None? ||
                pricePerKg.None? || amount.None?)) ==> r == Err(ServerError)
      ensures r.Err? ==> transactions == old(transactions)
      ensures (session.SignedIn? && session.role == Vendor && listingId.Some? && farmerId.Some? && crop.Some? &&
               quantityKg.Some? && pricePerKg.Some? && amount.Some?) ==> r.Ok?
      ensures r.Ok? ==>
                && session.SignedIn? && session.role == Vendor
                && listingId.Some? && farmerId.Some? && crop.Some?
                && quantityKg.Some? && pricePerKg.Some? && amount.Some?
                && r.value == |old(transactions)| + 1
                && transactions == old(transactions) + [
                     Transaction(r.value, listingId.value, farmerId.value, session.userId, crop.value,
                                 quantityKg.value, pricePerKg.value, amount.value, Success, "Online", now)]
    {
      if !(session.SignedIn? && session.role == Vendor) {
        return Err(Unauthorized);
      }
      if listingId.None? || farmerId.None? || crop.None? || quantityKg.None? || pricePerKg.None? || amount.None? {
        return Err(ServerError);
      }
      var id := |transactions| + 1;
      transactions := transactions + [
        Transaction(id, listingId.value, farmerId.value, session.userId, crop.value,
                    quantityKg.value, pricePerKg.value, amount.value, Success, "Online", now)];
      r := Ok(id);
    }

    /** `GET /api/admin/users`: every user without the password digest, in table order. */
    function GetUsers(): (r: Result<seq<UserRecord>, Error>)
      reads this
      ensures r.Ok? <==> session.SignedIn? && session.role == Admin
      ensures r.Err? ==> r.error == Unauthorized
      ensures r.Ok? ==> |r.value| == |users| && forall i :: 0 <= i < |users| ==> r.value[i] == Record(users[i])
    {
      if !(session.SignedIn? && session.role == Admin) then Err(Unauthorized)
      else Ok(seq(|users|, i requires 0 <= i < |users| reads this => Record(users[i])))
    }

    /** `PUT /api/admin/users/<id>`: an administrator sets one user's status. */
    method UpdateUser(userId: nat, status: Field<string>) returns (r: Result<(), Error>)
      requires Valid()
      modifies this
      ensures Valid()
      ensures listings == old(listings) && supplies == old(supplies) && transactions == old(transactions)
      ensures userSeq == old(userSeq)
      ensures session == old(session)
      ensures !(session.SignedIn? && session.role == Admin) ==> r == Err(Unauthorized)
      ensures session.SignedIn? && session.role == Admin && status.Absent? ==> r == Err(ServerError)
      ensures (session.SignedIn? && session.role == Admin && status.Given? &&
               ParseUserStatus(status.value).None? && IsUserId(old(users), userId)) ==> r == Err(ServerError)
      ensures (session.SignedIn? && session.role == Admin && !status.Absent? &&
               (status.Given? ==> ParseUserStatus(status.value).Some? || !IsUserId(old(users), userId)))
                ==> r == Ok(())
      ensures r.Err? || !IsUserId(old(users), userId) ==> users == old(users)
      ensures r.Ok? ==> session.SignedIn? && session.role == Admin && !status.Absent?
      ensures r.Ok? && IsUserId(old(users), userId) ==>
                && FindUser(old(users), userId).Some?
                && var k := FindUser(old(users), userId).value;
                   var newStatus := if status.Given? then ParseUserStatus(status.value) else None;
                   && (status.Given? ==> newStatus.Some?)
                   && users == old(users)[k := old(users)[k].(status := newStatus)]
    {
      if !(session.SignedIn? && session.role == Admin) {
        return Err(Unauthorized);
      }
      if status.Absent? {
        // data['status'] raises KeyError.
        return Err(ServerError);
      }
      var k := FindUser(users, userId);
      if k.None? {
        // No row has this id: nothing is written and nothing is checked.
        return Ok(());
      }
      var newStatus := if status.Given? then ParseUserStatus(status.value) else None;
      if status.Given? && newStatus.None? {
        // CHECK(status IN ('active', 'blocked')) fails.
        return Err(ServerError);
      }
      var users' := users[k.value := users[k.value].(status := newStatus)];
      KeepsRolesPreservesRows(users, users', session, listings, supplies, transactions);
      users := users';
      r := Ok(());
    }

    /** `GET /api/admin/stats`. */
    function GetStats(): (r: Result<Stats, Error>)
      reads this
      ensures r.Ok? <==> session.SignedIn? && session.role == Admin
      ensures r.Err? ==> r.error == Unauthorized
      ensures r.Ok? ==>
                && r.value.totalTransactions == Count(transactions, IsSuccess)
                && r.value.successfulTransactions == Count(transactions, IsSuccess)
                && r.value.totalRevenue == Sum(transactions, IsSuccess, Amount)
                && (Count(transactions, IsSuccess) == 0 ==> r.value.totalRevenue == 0)
                && r.value.activeUsers == Count(users, IsActiveMember)
                && r.value.blockedUsers == Count(users, IsBlocked)
                && r.value.farmers == Count(users, IsFarmer)
                && r.value.vendors == Count(users, IsVendor)
                && r.value.pendingTransactions == Count(transactions, IsTxPending)
                && r.value.failedTransactions == Count(transactions, IsFailed)
    {
      if !(session.SignedIn? && session.role == Admin) then Err(Unauthorized)
      else Ok(StatsOf(users, transactions))
    }
  }

  /** Listing query terms compose by AND; with no filter every listing qualifies. */
  lemma ListingQueryConjunctive(l: Listing, status: Option<string>, farmerId: Option<int>)
    ensures Satisfies(l, ListingQuery(status, farmerId)) <==>
              && (Present(status) ==> l.status.Some? && l.status.value.Name() == status.value)
              && (farmerId.Some? ==> l.farmerId == farmerId.value)
  {
    var conds := ListingQuery(status, farmerId);
    if Present(status) {
      assert conds[0] == StatusIs(status.value);
    }
    if farmerId.Some? {
      assert conds[|conds| - 1] == FarmerIs(farmerId.value);
    }
  }

  lemma ListingFilterConjunctive(status: Option<string>, farmerId: Option<int>)
    ensures forall l :: ListingFilter(status, farmerId)(l) <==>
              && (Present(status) ==> l.status.Some? && l.status.value.Name() == status.value)
              && (farmerId.Some? ==> l.farmerId == farmerId.value)
  {
    forall l ensures ListingFilter(status, farmerId)(l) <==>
              && (Present(status) ==> l.status.Some? && l.status.value.Name() == status.value)
              && (farmerId.Some? ==> l.farmerId == farmerId.value)
    {
      ListingQueryConjunctive(l, status, farmerId);
    }
  }

  lemma {:induction false} FilterAll<T(!new)>(s: seq<T>, p: T -> bool)
    ensures (forall x :: p(x)) ==> Filter(s, p) == s
  {
    if s != [] && forall x :: p(x) {
      FilterAll(s[1..], p);
      assert s == [s[0]] + s[1..];
    }
  }

  /** Seeding the administrator never creates a second row with one email. */
  lemma SeedAdminKeepsEmailsUnique(users: seq<User>, lastId: nat, digest: Digest, now: Timestamp)
    requires UsersValid(users, lastId)
    ensures UsersValid(SeedAdmin(users, lastId + 1, digest, now), lastId + 1)
    ensures KeepsRoles(users, SeedAdmin(users, lastId + 1, digest, now))
  {
    var r := SeedAdmin(users, lastId + 1, digest, now);
    if !EmailTaken(users, AdminEmail) {
      forall i | 0 <= i < |users| ensures r[i].email != r[|users|].email {
        assert users[i].email != AdminEmail;
      }
    }
  }

  /** Seeding the administrator, with the id counter advanced, keeps the store's invariant. */
  lemma SeedAdminKeepsStoreValid(users: seq<User>, lastId: nat, digest: Digest, now: Timestamp, session: Session,
                                 listings: seq<Listing>, supplies: seq<Supply>, transactions: seq<Transaction>)
    requires UsersValid(users, lastId) && RowsValid(users, session, listings, supplies, transactions)
    ensures UsersValid(SeedAdmin(users, lastId + 1, digest, now), lastId + 1)
    ensures RowsValid(SeedAdmin(users, lastId + 1, digest, now), session, listings, supplies, transactions)
  {
    SeedAdminKeepsEmailsUnique(users, lastId, digest, now);
    KeepsRolesPreservesRows(users, SeedAdmin(users, lastId + 1, digest, now), session, listings, supplies, transactions);
  }
}
