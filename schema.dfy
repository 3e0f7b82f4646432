/**
 * The four tables of the marketplace (users, listings, supplies,
 * transactions), the session a browser carries, the shapes of request
 * bodies and the error responses of the handlers.
 *
 * REAL columns (quantity, prices, amounts) are integers here; timestamps
 * are abstract integers supplied by the caller.
 */
module Schema {

  datatype Option<+T> = None | Some(value: T)

  datatype Result<+T, +E> = Ok(value: T) | Err(error: E)

  /** A member of a JSON request body: a missing key, an explicit `null`, or a value. */
  datatype Field<+T> = Absent | Null | Given(value: T)

  type Timestamp = int

  /** What the password hasher produces; the hasher itself is a parameter of the store. */
  type Digest = string

  datatype Role = Farmer | Vendor | Admin {
    /** The text stored in the `type` column (and sent in requests). */
    function Name(): string {
      match this
      case Farmer => "Farmer"
      case Vendor => "Vendor"
      case Admin => "Admin"
    }
  }

  /** The `type` column's CHECK constraint: only the three role names are accepted. */
  function ParseRole(s: string): (r: Option<Role>)
    ensures r.Some? ==> r.value.Name() == s
    ensures r.None? ==> s != "Farmer" && s != "Vendor" && s != "Admin"
  {
    if s == "Farmer" then Some(Farmer)
    else if s == "Vendor" then Some(Vendor)
    else if s == "Admin" then Some(Admin)
    else None
  }

  datatype UserStatus = Active | Blocked {
    function Name(): string {
      match this
      case Active => "active"
      case Blocked => "blocked"
    }
  }

  /** The `status` column's CHECK constraint on users. */
  function ParseUserStatus(s: string): (r: Option<UserStatus>)
    ensures r.Some? ==> r.value.Name() == s
    ensures r.None? ==> s != "active" && s != "blocked"
  {
    if s == "active" then Some(Active)
    else if s == "blocked" then Some(Blocked)
    else None
  }

  datatype ListingStatus = Pending | Accepted | Rejected {
    function Name(): string {
      match this
      case Pending => "Pending"
      case Accepted => "Accepted"
      case Rejected => "Rejected"
    }
  }

  /** The `status` column's CHECK constraint on listings. */
  function ParseListingStatus(s: string): (r: Option<ListingStatus>)
    ensures r.Some? ==> r.value.Name() == s
    ensures r.None? ==> s != "Pending" && s != "Accepted" && s != "Rejected"
  {
    if s == "Pending" then Some(Pending)
    else if s == "Accepted" then Some(Accepted)
    else if s == "Rejected" then Some(Rejected)
    else None
  }

  /** The transaction statuses, stored as "Success", "Pending" and "Failed". */
  datatype TxStatus = Success | TxPending | Failed

  /** The supplies `category` CHECK constraint of the original schema. */
  predicate IsCategory(s: string) {
    s == "Fertilizer" || s == "Pesticide" || s == "Seeds"
  }

  /**
   * A users row. `status` is nullable: the CHECK constraint admits NULL,
   * and the admin update handler can write it.
   */
  datatype User = User(
    id: nat,
    name: string,
    email: string,
    password: Digest,
    role: Role,
    status: Option<UserStatus>,
    createdAt: Timestamp,
    lastLogin: Option<Timestamp>)

  /** A listings row; `farmerName` is a snapshot of the owner's name at creation. */
  datatype Listing = Listing(
    id: nat,
    farmerId: nat,
    farmerName: string,
    crop: string,
    quantityKg: int,
    pricePerKg: int,
    status: Option<ListingStatus>,
    acceptedBy: Option<nat>,
    createdAt: Timestamp,
    acceptedAt: Option<Timestamp>)

  /** A supplies row; `vendorName` is a snapshot of the owner's name at creation. */
  datatype Supply = Supply(
    id: nat,
    vendorId: nat,
    vendorName: string,
    name: string,
    category: string,
    price: int,
    createdAt: Timestamp)

  /** A transactions row. `listingId` and `farmerId` come from the client unchecked. */
  datatype Transaction = Transaction(
    id: nat,
    listingId: int,
    farmerId: int,
    vendorId: nat,
    crop: string,
    quantityKg: int,
    pricePerKg: int,
    amount: int,
    status: TxStatus,
    payMethod: string,
    timestamp: Timestamp)

  /** What signup, login and `/api/auth/me` send back: never the digest. */
  datatype PublicUser = PublicUser(id: nat, name: string, email: string, role: Role)

  function Public(u: User): PublicUser {
    PublicUser(u.id, u.name, u.email, u.role)
  }

  /** One row of the admin user list: every column but the password digest. */
  datatype UserRecord = UserRecord(
    id: nat,
    name: string,
    email: string,
    role: Role,
    status: Option<UserStatus>,
    createdAt: Timestamp,
    lastLogin: Option<Timestamp>)

  function Record(u: User): UserRecord {
    UserRecord(u.id, u.name, u.email, u.role, u.status, u.createdAt, u.lastLogin)
  }

  /** The server-side session of one browser: empty, or a user id and its role. */
  datatype Session = Anonymous | SignedIn(userId: nat, role: Role)

  /** The error responses of the handlers, with their HTTP status codes. */
  datatype Error =
    | MissingFields             // 400 "Missing required fields"
    | EmailExists               // 400 "Email already exists" (any IntegrityError on signup)
    | InvalidCredentials        // 401 "Invalid credentials"
    | AccountBlocked            // 403 "Account is blocked"
    | RegisteredAs(role: Role)  // 403 "Account is registered as <role>"
    | NotAuthenticated          // 401 "Not authenticated"
    | UserNotFound              // 404 "User not found"
    | Unauthorized              // 401 "Unauthorized"
    | ServerError               // 500: an exception the handler does not catch

  /** The admin statistics object. */
  datatype Stats = Stats(
    activeUsers: nat,
    blockedUsers: nat,
    farmers: nat,
    vendors: nat,
    totalTransactions: nat,
    successfulTransactions: nat,
    totalRevenue: int,
    pendingTransactions: nat,
    failedTransactions: nat)
}
