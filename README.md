# AIBS marketplace backend, modelled in Dafny

AIBS (Agri Integrated Business System) is a small Flask + SQLite server
through which farmers list crops, vendors offer supplies and buy listed
crops, and an administrator watches users and payments. Every HTTP handler
is a guarded read or write of four tables (users, listings, supplies,
transactions) plus the browser's session, which holds a user id and a role.

This project models those handlers as operations on one in-memory store:

- `schema.dfy` (module `Schema`): the rows of the four tables, the session,
  the request-body shapes, the error responses with their HTTP codes, and
  the CHECK constraints on the enumerated columns.
- `rows.dfy` (module `Rows`): what the handlers ask of SQLite, stated over a
  table held as a sequence of rows in insertion order: `WHERE` (`Filter`),
  `COUNT(*)` (`Count`), `SUM(...) or 0` (`Sum`), and `ORDER BY ... DESC`
  (`SortDesc`, a stable insertion sort proved sorted and a permutation).
- `store.dfy` (module `Server`): class `Store` with the tables, the users
  AUTOINCREMENT counter (`userSeq`, the users row of `sqlite_sequence`) and
  the session as fields. The handlers that write are methods (`InitDb`, `Signup`,
  `Login`, `Logout`, `CreateListing`, `UpdateListing`, `CreateSupply`,
  `CreateTransaction`, `UpdateUser`). The handlers that only read are
  functions (`GetCurrentUser`, `GetListings`, `GetSupplies`,
  `GetTransactions`, `GetUsers`, `GetStats`). Every method keeps the
  invariant `Valid()`:
  - user ids are positive, increase in insertion order and never exceed
    `userSeq`, but need not be consecutive (see below);
  - listing, supply and transaction ids are 1, 2, 3, … in insertion order;
  - emails are unique;
  - a session names an existing user with that user's registered role;
  - listings belong to farmers, supplies and transactions to vendors;
  - an acceptor and an acceptance time are set together, and an Accepted
    listing has both;
  - every stored transaction is a successful online payment.
- `properties.dfy` (module `Properties`): properties that relate several
  handlers. These include signup followed by login, the effect of a payment
  or a block on the statistics, and an end-to-end run of a farmer, a vendor
  and the administrator.

Modelling choices:

- The password hasher is the store's constant `hash: string -> Digest`.
  Nothing is assumed of it, so every property holds for any hash function.
- The current time is the `now` parameter of each write.
- REAL columns are integers.
- A request member read with `data[...]` or `data.get(...)` is an `Option`:
  a missing key and a JSON `null` behave alike. What follows depends on the
  handler. Members read with `data[...]` raise (a KeyError, or a NOT NULL
  violation for `null`), and so does login's password, which is hashed
  before the query: those end in HTTP 500. The members signup reads with
  `data.get(...)` give 400 "Missing required fields"; login without an
  email matches no row (401), and login without a type fails the role
  comparison (403).
- A status member of an update is a `Field` (`Absent | Null | Given`).
  There a `null` differs from a missing key: `SET status = NULL` passes the
  CHECK constraint and stores NULL, so user and listing statuses are nullable
  in the model.

Behaviour of the code that the model keeps as written:

- The create handlers answer a missing or wrong role with 401 "Unauthorized",
  not 403.
- Signup with a `type` outside Farmer/Vendor/Admin fails the CHECK
  constraint. The handler catches every IntegrityError alike, so this case
  is reported as 400 "Email already exists".
- Login reports its failures in a fixed order:
  1. 500 when the password is absent (it is hashed before the query);
  2. 401 when no row matches;
  3. 403 when the account is blocked;
  4. 403 when the stored role differs from the requested one.
  A failed login leaves the previous session in place.
- A listing update without a `status` builds an empty `SET` clause. That
  statement does not parse, so the answer is 500.
- An update whose id names no row writes nothing and checks nothing.
  It answers success, even for a status the CHECK constraint would refuse.
- Any signed-in user, of any role, may change the status of any listing.
  Accepting stamps the acting user and the time.
- `init_db` runs at every start. On a seeded database its `INSERT OR IGNORE`
  adds nothing, but the id it drew is still recorded in `sqlite_sequence`,
  so the next signup skips an id (`RestartThenSignup`: the first user after
  one restart gets id 3). A failed signup aborts its statement and draws no
  id. User lookups therefore go by id (`FindUser`), never by position.
- `totalTransactions` and `successfulTransactions` both count only Success
  rows.
- In a consistent store every transaction is a Success, so the pending and
  failed counts are 0 (`StatsOfConsistentStore`).
- The supplies category CHECK of the original schema is the store constant
  `categoryChecked`. The migration script drops that constraint; a store
  built with `false` stands for a migrated database.

## Model

| member | source | states |
|---|---|---|
| Schema.ParseRole | app.py:31 | only "Farmer", "Vendor" and "Admin" are accepted as a user type, each as its own role |
| Schema.ParseUserStatus | app.py:32 | only "active" and "blocked" are accepted as a user status |
| Schema.ParseListingStatus | app.py:47 | only "Pending", "Accepted" and "Rejected" are accepted as a listing status |
| Rows.Filter | app.py:240-249 | a WHERE keeps exactly the rows meeting the condition, each a row of the table, as many as `Count` counts (so no qualifying row is dropped) |
| Rows.Count | app.py:442-462 | COUNT(*) is at most the row count, is 0 exactly when no row qualifies and equals the row count exactly when all do |
| Rows.Sum | app.py:455-473 | the summed amount over no qualifying row is reported as 0, not NULL |
| Rows.SortDesc | app.py:251 | ORDER BY … DESC returns the same rows (as a multiset), largest key first |
| Rows.CountAppend | app.py:389-395 | inserting a row raises a count by one exactly when the row qualifies |
| Rows.SumAppend | app.py:389-395 | inserting a row raises a sum by its value exactly when the row qualifies |
| Rows.CountUpdate | app.py:426-427 | updating one row changes a count only by whether the old and new row qualify |
| Server.FindByCredentials | app.py:166-171 | the login lookup finds the first row with that email and that digest, or reports that no row has both |
| Server.FindUser | app.py:216-218 | the lookup by id returns the position of the first row with that id, or reports that no row has it |
| Server.FindUserAt | app.py:27 | ids are unique (they increase along the table), so the lookup by a row's id finds that very row |
| Server.FindUserHasRole | app.py:269-270 | the lookup by the id of a user holding a role finds a row holding that role |
| Server.SeedAdmin | app.py:90-95 | INSERT OR IGNORE: afterwards the admin email exists; if it already existed nothing is added; otherwise exactly one row is appended: id as drawn, name "Admin", the admin email, the digest given, role Admin, status active, no last login |
| Server.SeedAdminKeepsEmailsUnique | app.py:27-29 | seeding the administrator with the next id keeps ids increasing and within the counter, keeps emails unique, and keeps every existing row's id and role |
| Server.SeedAdminKeepsStoreValid | app.py:90-95 | seeding the administrator and advancing the counter keeps the whole store consistent |
| Server.ListingQueryConjunctive | app.py:240-250 | the listing query's terms compose by AND: status (when non-empty) and farmer (when given); none means every listing |
| Server.Patched | app.py:296-303 | a listing update sets the status and, exactly when it is Accepted, the acceptor and acceptance time; every other column stays |
| Server.StatsOf | app.py:441-476 | total and successful transaction counts are equal; revenue is 0 when there is no Success row; active plus blocked users, and farmers plus vendors, never exceed the user count (the value of each aggregate is stated by `GetStats`) |
| Server.Store.constructor | app.py:20-88 | the tables start empty, the id counter is 0 and nobody is signed in; the invariant holds |
| Server.Store.InitDb | app.py:20-98 | the user table becomes the one seeded with the next id, and the id counter advances by one whether or not the seed was ignored; no other table and not the session changes |
| Server.Store.Signup | app.py:116-154 | missing or empty field gives 400 and no change; unknown type or taken email gives 400 "Email already exists" and no change (the id counter included); otherwise exactly one user is appended with the next id from the counter, the digest of the password, status active, login time now; the session becomes (new id, type); only id, name, email, type are returned |
| Server.Store.Login | app.py:156-202 | absent password 500; no row with email and digest 401; blocked 403; stored type differs 403; in that order; success changes only that user's last login and sets the session to the stored id and role; failures change nothing |
| Server.Store.Logout | app.py:204-207 | the session becomes empty; no table changes |
| Server.Store.GetCurrentUser | app.py:209-229 | no session gives 401; a session id with no row gives 404; a session id that has a row always gives Ok, with the public projection of a row with that id |
| Server.Store.GetListings | app.py:232-257 | exactly the listings matching status (if given and non-empty) AND farmer (if given), newest first; with no filter all listings |
| Server.Store.UpdateListing | app.py:284-315 | no session 401 and no change; no status 500 and no change; unknown id success and no change; refused status on an existing row 500 and no change; otherwise only that listing changes, as Patched says |
| Server.Store.CreateListing | app.py:259-282 | only a Farmer session may insert (401 otherwise, nothing inserted); a missing member gives 500; the new row has the next id, the session's user as owner, the name of the row found by that user's id, status Pending |
| Server.Store.GetSupplies | app.py:318-334 | exactly the supplies of the given vendor (all when none), newest first |
| Server.Store.CreateSupply | app.py:336-359 | only a Vendor session may insert (401 otherwise); a missing member or a refused category gives 500; the new row copies the name of the row found by the vendor's id |
| Server.Store.GetTransactions | app.py:362-378 | exactly the transactions of the given vendor (all when none), newest first |
| Server.Store.CreateTransaction | app.py:380-401 | only a Vendor session may insert (401 otherwise); the vendor id comes from the session, status is Success and method Online whatever the body says |
| Server.Store.GetUsers | app.py:404-415 | only an Admin session may list users (401 otherwise); every user in table order, without the digest |
| Server.Store.UpdateUser | app.py:417-431 | only an Admin session (401 otherwise); no status 500; an id no row has gives success and no change; refused status 500; otherwise only the status of the row with that id changes |
| Server.Store.GetStats | app.py:433-476 | only an Admin session (401 otherwise); each of the nine aggregates is the SQL count or sum: active non-admin users, blocked users, farmers, vendors, total and successful both the Success count, revenue the Success sum or 0, pending and failed counts |
| Properties.SeedAdminIdempotent | app.py:92-95 | running init again never adds a second administrator |
| Properties.LoginFindsSignedUpUser | app.py:166-171 | after a signup, login with the same email and password finds the new row |
| Properties.MeResolves | app.py:209-222 | in a consistent store a signed-in session always resolves to the user with the session's id and role, so /api/auth/me never answers 404 |
| Properties.StatsOfConsistentStore | app.py:454-463 | the pending and failed counts are 0 and every transaction is counted as successful |
| Properties.StatsAfterTransaction | app.py:455-473 | a new Success transaction adds one to both transaction counts and its amount to the revenue; no other statistic changes |
| Properties.StatsIgnoreLastLogin | app.py:185-188 | stamping a login time changes no statistic |
| Properties.StatsAfterBlocking | app.py:426-427 | blocking an active farmer or vendor moves one user from the active count to the blocked count |
| Properties.SignupThenLogin | app.py:130-192 | a signup with non-empty fields and a fresh email succeeds, and a later login with the same plaintext password and type succeeds and returns the same user |
| Properties.ThreeUsersOnePayment | app.py:441-476 | the statistics of an administrator, a farmer, a vendor and one 2000 payment |
| Properties.FreshDatabase | app.py:90-95 | init_db on an empty database seeds the administrator as user 1 with the admin digest, role Admin and status active |
| Properties.FarmerListsWheat | app.py:259-282 | after init and a farmer signup, the farmer's listing is stored with the farmer's name; stats without a session are refused |
| Properties.TradeWheat | app.py:380-401 | a vendor may not create a listing, can accept the farmer's listing (stamping its own id) and records a 2000 payment |
| Properties.AdminSignsIn | app.py:156-202 | after that trade the seeded administrator logs in with the seeded credentials and the Admin type |
| Properties.MarketScenario | app.py:433-476 | the administrator then sees all nine statistics, among them totalTransactions 1 and totalRevenue 2000 |
| Properties.SeedTwice | app.py:90-95 | init_db on a seeded database adds no row but advances the id counter to 2 |
| Properties.RestartThenSignup | app.py:130-145 | the first signup after that restart gets id 3 |

## Left out

- Static file serving (`/` and `/<path>`): filesystem I/O.
- Flask, CORS, the secret key and the startup banner: framework plumbing.
  Sessions are not signed cookies here. The model holds the session of one
  browser, and the key that changes on every restart is not modelled.
- SHA-256: the hasher is an arbitrary function, so no property depends on
  what it computes.
- `datetime.now()` and `CURRENT_TIMESTAMP`: a `now` parameter of each write.
- REAL columns are integers, and no floating point is modelled.
- JSON values of a type other than the one expected are not modelled: a
  number where text is expected, or `0` and `false` as falsy values. The
  request body is always a JSON object.
- The `farmer_id` and `vendor_id` query arguments are integers. Non-numeric
  text, which matches no row, is not modelled.
- `ORDER BY` ties: SQLite leaves the order of rows with equal timestamps
  unspecified. The model keeps them in table order.
- SQLite mechanics: connections, commits, the DDL text, and foreign keys
  (SQLite does not enforce them by default, and the model has none).
- The AUTOINCREMENT counters of listings, supplies and transactions are not
  modelled: no insert into those tables is ever ignored, and a failed one
  aborts without drawing an id, so their ids stay 1, 2, 3, … and equal
  position plus one.
- The migration script (`migrate_db.py`) appears only as the
  `categoryChecked` flag. Its interactive backup, drop and restore are not
  modelled.
- The browser API client (`api.js`): network calls with no logic of their own.
- Concurrency between requests: each handler is one atomic step.
