/**
 * The Flask API: bearer-token authentication of `token_required`, the
 * payload checks and defaults of each handler, and the three SQLite tables
 * (`users`, `listings`, `bookings`) with AUTOINCREMENT ids.
 *
 * The cryptography is a parameter of the operations that use it: `jwt.encode`
 * is an `Encoder`, `jwt.decode` a `Decoder` (None where it raises),
 * `generate_password_hash` a `Hasher` and `check_password_hash` a
 * `PasswordCheck`.
 */
module Server {
  import opened Wrappers
  import opened Text
  import opened Sequences

  /** A member of the JSON request body as `payload.get` sees it. */
  datatype Field<+T> = Absent | Null | Given(value: T)

  /** `payload.get(key)`: None for a missing member and for JSON null. */
  function Get<T>(f: Field<T>): Option<T> {
    if f.Given? then Some(f.value) else None
  }

  /** `payload.get(key, default)`: the default replaces a missing member only; JSON null stays None. */
  function GetOr<T>(f: Field<T>, default: T): Option<T> {
    match f
    case Absent => Some(default)
    case Null => None
    case Given(v) => Some(v)
  }

  /** Python truthiness of an int-or-None value. */
  predicate IntTruthy(n: Option<int>) {
    n.Some? && n.value != 0
  }

  datatype Credentials = Credentials(email: Field<string>, password: Field<string>)
  datatype ListingPayload = ListingPayload(title: Field<string>, city: Field<string>, price: Field<int>,
                                           kind: Field<string>, description: Field<string>, image: Field<string>)
  datatype BookingPayload = BookingPayload(listingId: Field<int>, guestName: Field<string>)

  datatype User = User(id: nat, email: string, passwordHash: string)
  datatype ListingRow = ListingRow(id: nat, ownerId: Option<nat>, title: string, city: string, kind: Option<string>,
                                   price: Option<int>, description: Option<string>, image: Option<string>)
  datatype Booking = Booking(id: nat, listingId: int, guestId: Option<int>, guestName: string)

  datatype Body =
    | ErrorBody(error: string)
    | Registered
    | TokenIssued(token: string)
    | Rows(rows: seq<ListingRow>)
    | Created(id: nat)
    | Booked(bookingId: nat)
  datatype Response = Response(status: nat, body: Body)

  function Reject(status: nat, error: string): Response {
    Response(status, ErrorBody(error))
  }

  const TokenRequired := "Token requerido"
  const TokenInvalid := "Token inválido"
  const NoSuchUser := "Usuario no existe"
  const CredentialsRequired := "email y password requeridos"
  const EmailTaken := "Email ya registrado"
  const BadCredentials := "Credenciales inválidas"
  const TitleCityRequired := "title y city requeridos"
  const ListingIdRequired := "listing_id requerido"
  const DefaultKind := "Departamento"
  const DefaultImage := "https://picsum.photos/seed/new/400/300"
  const AnonymousGuest := "Invitado"

  /** The decoded JWT payload; `user_id` may be missing. */
  datatype Claims = Claims(userId: Option<int>)
  /** `jwt.decode(token, SECRET_KEY, algorithms=['HS256'])`: None where it raises (bad signature, expiry, malformed). */
  type Decoder = string -> Option<Claims>
  /** `jwt.encode({'user_id': id, 'exp': ...})`: the clock's expiry is folded into the function. */
  type Encoder = nat -> string
  type Hasher = string -> string
  type PasswordCheck = (string, string) -> bool

  // ---------------------------------------------------------------- authentication

  const BearerPrefix := "Bearer "

  lemma BearerSplit(h: string)
    requires StartsWith(h, BearerPrefix)
    ensures AfterFirst(h, ' ') == Some(h[|BearerPrefix|..])
  {
    assert h == BearerPrefix + h[|BearerPrefix|..];
    assert ' ' !in BearerPrefix[..|BearerPrefix| - 1];
    AfterFirstOfPrefix(BearerPrefix, ' ', h[|BearerPrefix|..]);
  }

  /**
   * `auth.split(' ', 1)[1]` when `auth` is set and starts with "Bearer ":
   * the token is exactly what follows the prefix.
   */
  function ExtractBearer(header: Option<string>): (token: Option<string>)
    ensures token.Some? <==> header.Some? && StartsWith(header.value, BearerPrefix)
    ensures token.Some? ==> header.value == BearerPrefix + token.value
  {
    if header.Some? && header.value != "" && StartsWith(header.value, BearerPrefix) then
      BearerSplit(header.value);
      var t := AfterFirst(header.value, ' ');
      assert header.value == BearerPrefix + t.value;
      t
    else None
  }

  /** `SELECT ... FROM users WHERE id=?`: a NULL id matches no row. */
  function FindUserById(users: seq<User>, id: Option<int>): (u: Option<User>)
    ensures u.Some? ==> u.value in users && id == Some(u.value.id)
    ensures u.None? <==> forall v :: v in users ==> id != Some(v.id)
  {
    if users == [] then None
    else if id == Some(users[0].id) then Some(users[0])
    else FindUserById(users[1..], id)
  }

  /** `SELECT * FROM users WHERE email=?`. */
  function FindUserByEmail(users: seq<User>, email: string): (u: Option<User>)
    ensures u.Some? ==> u.value in users && u.value.email == email
    ensures u.None? <==> forall v :: v in users ==> v.email != email
  {
    if users == [] then None
    else if users[0].email == email then Some(users[0])
    else FindUserByEmail(users[1..], email)
  }

  datatype Caller = Denied(response: Response) | Authorized(user: User)

  /** The wrapper `token_required`: either the 401 it answers with, or the `request.user` it sets. */
  function Authenticate(users: seq<User>, header: Option<string>, decode: Decoder): (c: Caller)
    ensures !Truthy(ExtractBearer(header)) ==> c == Denied(Reject(401, TokenRequired))
    ensures Truthy(ExtractBearer(header)) && decode(ExtractBearer(header).value).None? ==> c == Denied(Reject(401, TokenInvalid))
    ensures Truthy(ExtractBearer(header)) && decode(ExtractBearer(header).value).Some?
            && FindUserById(users, decode(ExtractBearer(header).value).value.userId).None?
            ==> c == Denied(Reject(401, NoSuchUser))
    ensures Truthy(ExtractBearer(header)) && decode(ExtractBearer(header).value).Some?
            && FindUserById(users, decode(ExtractBearer(header).value).value.userId).Some?
            ==> c == Authorized(FindUserById(users, decode(ExtractBearer(header).value).value.userId).value)
    ensures c.Denied? ==> c.response.status == 401 && c.response.body.ErrorBody?
    ensures c.Authorized? ==> c.user in users && Truthy(ExtractBearer(header))
                              && decode(ExtractBearer(header).value) == Some(Claims(Some(c.user.id)))
  {
    var token := ExtractBearer(header);
    if !Truthy(token) then Denied(Reject(401, TokenRequired))
    else match decode(token.value)
      case None => Denied(Reject(401, TokenInvalid))
      case Some(claims) =>
        match FindUserById(users, claims.userId)
        case None => Denied(Reject(401, NoSuchUser))
        case Some(u) => Authorized(u)
  }

  // ---------------------------------------------------------------- users

  /** `if not email or not password`: both members must be non-empty strings. */
  function RequireCredentials(p: Credentials): (r: Option<(string, string)>)
    ensures r.Some? <==> Truthy(Get(p.email)) && Truthy(Get(p.password))
    ensures r.Some? ==> p.email == Given(r.value.0) && p.password == Given(r.value.1)
                        && r.value.0 != "" && r.value.1 != ""
  {
    if Truthy(Get(p.email)) && Truthy(Get(p.password)) then Some((p.email.value, p.password.value)) else None
  }

  /** The `login` handler: it reads the users table and issues a token for the matching account. */
  function Login(users: seq<User>, p: Credentials, check: PasswordCheck, encode: Encoder): (r: Response)
    ensures RequireCredentials(p).None? ==> r == Reject(400, CredentialsRequired)
    ensures RequireCredentials(p).Some? && (forall u :: u in users ==> Given(u.email) != p.email)
            ==> r == Reject(401, BadCredentials)
    ensures RequireCredentials(p).Some? && FindUserByEmail(users, p.email.value).Some?
            && !check(FindUserByEmail(users, p.email.value).value.passwordHash, p.password.value)
            ==> r == Reject(401, BadCredentials)
    ensures RequireCredentials(p).Some? && FindUserByEmail(users, p.email.value).Some?
            && check(FindUserByEmail(users, p.email.value).value.passwordHash, p.password.value)
            ==> r == Response(200, TokenIssued(encode(FindUserByEmail(users, p.email.value).value.id)))
    ensures r.status == 200 ==>
              r.body.TokenIssued?
              && exists u :: u in users && Given(u.email) == p.email && check(u.passwordHash, p.password.value)
                             && r.body.token == encode(u.id)
    ensures r.status != 200 ==> r.body.ErrorBody? && (r.status == 400 || r.status == 401)
  {
    match RequireCredentials(p)
    case None => Reject(400, CredentialsRequired)
    case Some((email, password)) =>
      match FindUserByEmail(users, email)
      case None => Reject(401, BadCredentials)
      case Some(u) =>
        if !check(u.passwordHash, password) then Reject(401, BadCredentials)
        else Response(200, TokenIssued(encode(u.id)))
  }

  // ---------------------------------------------------------------- listings

  /** `SELECT ... FROM listings WHERE owner_id=?`, in table order. */
  function OwnedBy(rows: seq<ListingRow>, owner: nat): (r: seq<ListingRow>)
    ensures forall x :: x in r <==> x in rows && x.ownerId == Some(owner)
    ensures IsSubsequence(r, rows)
  {
    if rows == [] then []
    else if rows[0].ownerId == Some(owner) then
      var rest := OwnedBy(rows[1..], owner);
      assert ([rows[0]] + rest)[1..] == rest;
      [rows[0]] + rest
    else
      var rest := OwnedBy(rows[1..], owner);
      assert rest != [] ==> IsSubsequence(rest, rows[1..]);
      rest
  }

  /** The `my_listings` handler behind `token_required`. */
  function MyListings(users: seq<User>, listings: seq<ListingRow>, header: Option<string>, decode: Decoder): (r: Response)
    ensures Authenticate(users, header, decode).Denied? ==> r == Authenticate(users, header, decode).response
    ensures Authenticate(users, header, decode).Authorized? ==>
              r.status == 200 && r.body.Rows? && IsSubsequence(r.body.rows, listings)
              && forall x :: x in r.body.rows <==> x in listings && x.ownerId == Some(Authenticate(users, header, decode).user.id)
    ensures r.body.Rows? ==> forall x :: x in listings && x.ownerId.None? ==> x !in r.body.rows
  {
    match Authenticate(users, header, decode)
    case Denied(resp) => resp
    case Authorized(u) => Response(200, Rows(OwnedBy(listings, u.id)))
  }

  /** `if not title or not city`: both must be non-empty strings. */
  function RequireTitleCity(p: ListingPayload): (r: Option<(string, string)>)
    ensures r.Some? <==> Truthy(Get(p.title)) && Truthy(Get(p.city))
    ensures r.Some? ==> p.title == Given(r.value.0) && p.city == Given(r.value.1)
  {
    if Truthy(Get(p.title)) && Truthy(Get(p.city)) then Some((p.title.value, p.city.value)) else None
  }

  /** The row `create_listing` inserts, with the defaults of `payload.get(key, default)`. */
  function NewListingRow(id: nat, owner: nat, title: string, city: string, p: ListingPayload): ListingRow {
    ListingRow(id, Some(owner), title, city, GetOr(p.kind, DefaultKind), GetOr(p.price, 0),
               GetOr(p.description, ""), GetOr(p.image, DefaultImage))
  }

  /** Missing optional members take the documented defaults; given ones are stored as sent; JSON null is stored as NULL. */
  lemma NewListingDefaults(id: nat, owner: nat, title: string, city: string, p: ListingPayload)
    ensures var row := NewListingRow(id, owner, title, city, p);
      row.ownerId == Some(owner) && row.title == title && row.city == city
      && (p.price.Absent? ==> row.price == Some(0))
      && (p.kind.Absent? ==> row.kind == Some("Departamento"))
      && (p.description.Absent? ==> row.description == Some(""))
      && (p.image.Absent? ==> row.image == Some("https://picsum.photos/seed/new/400/300"))
      && (p.price.Given? ==> row.price == Some(p.price.value))
      && (p.price.Null? ==> row.price == None)
      && (p.kind.Given? ==> row.kind == Some(p.kind.value))
      && (p.kind.Null? ==> row.kind == None)
      && (p.description.Given? ==> row.description == Some(p.description.value))
      && (p.description.Null? ==> row.description == None)
      && (p.image.Given? ==> row.image == Some(p.image.value))
      && (p.image.Null? ==> row.image == None)
  {
  }

  // ---------------------------------------------------------------- bookings

  /** The user named by a decodable bearer token, if that user exists. */
  function TokenUser(users: seq<User>, header: Option<string>, decode: Decoder): Option<User> {
    match ExtractBearer(header)
    case None => None
    case Some(t) =>
      match decode(t)
      case None => None
      case Some(claims) => FindUserById(users, claims.userId)
  }

  datatype Guest = Guest(id: Option<int>, name: string)

  /** `name or 'Invitado'`. */
  function NameOrAnonymous(name: Option<string>): string {
    if Truthy(name) then name.value else AnonymousGuest
  }

  /**
   * The guest of `api_book`: a token that fails to decode is ignored, the
   * claimed user id is kept even when no such user exists, and the name is the
   * supplied one, else the token user's email, else "Invitado".
   */
  function ResolveGuest(users: seq<User>, header: Option<string>, decode: Decoder, supplied: Field<string>): (g: Guest)
    ensures Truthy(Get(supplied)) ==> g.name == supplied.value
    ensures !Truthy(Get(supplied)) && TokenUser(users, header, decode).Some? && TokenUser(users, header, decode).value.email != ""
            ==> g.name == TokenUser(users, header, decode).value.email
    ensures !Truthy(Get(supplied)) && TokenUser(users, header, decode).None? ==> g.name == "Invitado"
    ensures g.name != ""
    ensures ExtractBearer(header).None? || decode(ExtractBearer(header).value).None? ==> g.id == None
    ensures ExtractBearer(header).Some? && decode(ExtractBearer(header).value).Some?
            ==> g.id == decode(ExtractBearer(header).value).value.userId
  {
    var name := Get(supplied);
    match ExtractBearer(header)
    case None => Guest(None, NameOrAnonymous(name))
    case Some(t) =>
      match decode(t)
      case None => Guest(None, NameOrAnonymous(name))
      case Some(claims) =>
        var u := FindUserById(users, claims.userId);
        var name' := if u.Some? && !Truthy(name) then Some(u.value.email) else name;
        Guest(claims.userId, NameOrAnonymous(name'))
  }

  // ---------------------------------------------------------------- tables

  /** Ids are AUTOINCREMENT values: positive, increasing in insertion order, never above the sequence counter. */
  ghost predicate UserTable(users: seq<User>, top: nat) {
    (forall i :: 0 <= i < |users| ==> 1 <= users[i].id <= top)
    && (forall i, j :: 0 <= i < j < |users| ==> users[i].id < users[j].id)
    && (forall i, j :: 0 <= i < j < |users| ==> users[i].email != users[j].email)
    && (forall i :: 0 <= i < |users| ==> users[i].email != "")
  }

  ghost predicate ListingTable(listings: seq<ListingRow>, top: nat) {
    (forall i :: 0 <= i < |listings| ==> 1 <= listings[i].id <= top)
    && (forall i, j :: 0 <= i < j < |listings| ==> listings[i].id < listings[j].id)
  }

  ghost predicate BookingTable(bookings: seq<Booking>, top: nat) {
    (forall i :: 0 <= i < |bookings| ==> 1 <= bookings[i].id <= top)
    && (forall i, j :: 0 <= i < j < |bookings| ==> bookings[i].id < bookings[j].id)
  }

  /** The three rows `init_db` seeds, owned by nobody. */
  const Seeds: seq<ListingRow> := [
    ListingRow(1, None, "Loft céntrico", "Asunción", Some("Departamento"), Some(40),
               Some("Cómodo loft en el centro"), Some("https://picsum.photos/seed/1/400/300")),
    ListingRow(2, None, "Casa con jardín", "Encarnación", Some("Casa"), Some(70),
               Some("Casa amplia con jardín"), Some("https://picsum.photos/seed/2/400/300")),
    ListingRow(3, None, "Habitación privada", "Ciudad del Este", Some("Habitación"), Some(20),
               Some("Habitación cómoda cerca de todo"), Some("https://picsum.photos/seed/3/400/300"))
  ]

  /** No seeded listing is ever returned by `my_listings`. */
  lemma SeedsNeverOwned(owner: nat, rest: seq<ListingRow>)
    ensures forall x :: x in Seeds ==> x !in OwnedBy(Seeds + rest, owner)
  {
  }

  /** Appending a row extends the owner's selection by that row exactly when the row is theirs. */
  lemma {:induction false} OwnedByAppend(rows: seq<ListingRow>, row: ListingRow, owner: nat)
    ensures OwnedBy(rows + [row], owner)
            == OwnedBy(rows, owner) + (if row.ownerId == Some(owner) then [row] else [])
  {
    if rows != [] {
      assert (rows + [row])[1..] == rows[1..] + [row];
      OwnedByAppend(rows[1..], row, owner);
    }
  }

  /**
   * A listing created by an authenticated host is the last row of that host's
   * `my_listings` afterwards, and the rows before it are the ones listed before.
   */
  lemma CreatedListingIsListed(users: seq<User>, listings: seq<ListingRow>, header: Option<string>,
                               decode: Decoder, id: nat, title: string, city: string, p: ListingPayload)
    requires Authenticate(users, header, decode).Authorized?
    ensures var owner := Authenticate(users, header, decode).user.id;
      MyListings(users, listings + [NewListingRow(id, owner, title, city, p)], header, decode)
      == Response(200, Rows(OwnedBy(listings, owner) + [NewListingRow(id, owner, title, city, p)]))
  {
    var owner := Authenticate(users, header, decode).user.id;
    OwnedByAppend(listings, NewListingRow(id, owner, title, city, p), owner);
  }

  /** The database: the three tables and their `sqlite_sequence` counters. */
  class Server {
    var users: seq<User>
    var listings: seq<ListingRow>
    var bookings: seq<Booking>
    var userSeq: nat
    var listingSeq: nat
    var bookingSeq: nat

    ghost predicate Valid()
      reads this
    {
      UserTable(users, userSeq) && ListingTable(listings, listingSeq) && BookingTable(bookings, bookingSeq)
    }

    /** `init_db` on a fresh database file. */
    constructor ()
      ensures Valid()
      ensures users == [] && bookings == [] && listings == Seeds
      ensures userSeq == 0 && listingSeq == 3 && bookingSeq == 0
    {
      users, listings, bookings := [], Seeds, [];
      userSeq, listingSeq, bookingSeq := 0, 3, 0;
    }

    /** The `register` handler. */
    method Register(p: Credentials, hash: Hasher) returns (r: Response)
      requires Valid()
      modifies this
      ensures Valid()
      ensures listings == old(listings) && bookings == old(bookings)
      ensures listingSeq == old(listingSeq) && bookingSeq == old(bookingSeq)
      ensures RequireCredentials(p).None? ==>
                r == Reject(400, CredentialsRequired) && users == old(users) && userSeq == old(userSeq)
      ensures RequireCredentials(p).Some? && FindUserByEmail(old(users), RequireCredentials(p).value.0).Some? ==>
                r == Reject(400, EmailTaken) && users == old(users) && userSeq == old(userSeq)
      ensures RequireCredentials(p).Some? && FindUserByEmail(old(users), RequireCredentials(p).value.0).None? ==>
                var (email, password) := RequireCredentials(p).value;
                r == Response(200, Registered) && userSeq == old(userSeq) + 1
                && users == old(users) + [User(old(userSeq) + 1, email, hash(password))]
    {
      var creds := RequireCredentials(p);
      if creds.None? {
        return Reject(400, CredentialsRequired);
      }
      var (email, password) := creds.value;
      if FindUserByEmail(users, email).Some? {
        // the UNIQUE constraint aborts the INSERT
        return Reject(400, EmailTaken);
      }
      userSeq := userSeq + 1;
      users := users + [User(userSeq, email, hash(password))];
      r := Response(200, Registered);
    }

    /** The `create_listing` handler behind `token_required`. */
    method CreateListing(header: Option<string>, decode: Decoder, p: ListingPayload) returns (r: Response)
      requires Valid()
      modifies this
      ensures Valid()
      ensures users == old(users) && bookings == old(bookings)
      ensures userSeq == old(userSeq) && bookingSeq == old(bookingSeq)
      ensures Authenticate(old(users), header, decode).Denied? ==>
                r == Authenticate(old(users), header, decode).response
                && listings == old(listings) && listingSeq == old(listingSeq)
      ensures Authenticate(old(users), header, decode).Authorized? && RequireTitleCity(p).None? ==>
                r == Reject(400, TitleCityRequired) && listings == old(listings) && listingSeq == old(listingSeq)
      ensures Authenticate(old(users), header, decode).Authorized? && RequireTitleCity(p).Some? ==>
                var owner := Authenticate(old(users), header, decode).user.id;
                var (title, city) := RequireTitleCity(p).value;
                r == Response(200, Created(old(listingSeq) + 1)) && listingSeq == old(listingSeq) + 1
                && listings == old(listings) + [NewListingRow(old(listingSeq) + 1, owner, title, city, p)]
    {
      var caller := Authenticate(users, header, decode);
      if caller.Denied? {
        return caller.response;
      }
      var fields := RequireTitleCity(p);
      if fields.None? {
        return Reject(400, TitleCityRequired);
      }
      var (title, city) := fields.value;
      listingSeq := listingSeq + 1;
      listings := listings + [NewListingRow(listingSeq, caller.user.id, title, city, p)];
      r := Response(200, Created(listingSeq));
    }

    /** The `api_book` handler; authentication is optional here. */
    method Book(header: Option<string>, decode: Decoder, p: BookingPayload) returns (r: Response)
      requires Valid()
      modifies this
      ensures Valid()
      ensures users == old(users) && listings == old(listings)
      ensures userSeq == old(userSeq) && listingSeq == old(listingSeq)
      ensures !IntTruthy(Get(p.listingId)) ==>
                r == Reject(400, ListingIdRequired) && bookings == old(bookings) && bookingSeq == old(bookingSeq)
      ensures IntTruthy(Get(p.listingId)) ==>
                var guest := ResolveGuest(old(users), header, decode, p.guestName);
                r == Response(200, Booked(old(bookingSeq) + 1)) && bookingSeq == old(bookingSeq) + 1
                && bookings == old(bookings) + [Booking(old(bookingSeq) + 1, p.listingId.value, guest.id, guest.name)]
      ensures r.body.Booked? ==> forall b :: b in old(bookings) ==> b.id < r.body.bookingId
    {
      var guest := ResolveGuest(users, header, decode, p.guestName);
      if !IntTruthy(Get(p.listingId)) {
        return Reject(400, ListingIdRequired);
      }
      bookingSeq := bookingSeq + 1;
      bookings := bookings + [Booking(bookingSeq, p.listingId.value, guest.id, guest.name)];
      r := Response(200, Booked(bookingSeq));
    }
  }

  // ---------------------------------------------------------------- properties across handlers

  /** Emails stay unique, so the login lookup finds the one account an email names. */
  lemma {:induction false} FindByEmailUnique(users: seq<User>, top: nat, u: User)
    requires UserTable(users, top) && u in users
    ensures FindUserByEmail(users, u.email) == Some(u)
  {
    var i :| 0 <= i < |users| && users[i] == u;
    if i > 0 {
      assert users[0].email != u.email;
      assert UserTable(users[1..], top) by {
        assert forall a, b :: 0 <= a < b < |users| - 1 ==> users[1..][a] == users[a + 1] && users[1..][b] == users[b + 1];
      }
      assert users[1..][i - 1] == u;
      FindByEmailUnique(users[1..], top, u);
    }
  }

  /** Ids stay unique, so the token lookup finds the one account an id names. */
  lemma {:induction false} FindByIdUnique(users: seq<User>, top: nat, u: User)
    requires UserTable(users, top) && u in users
    ensures FindUserById(users, Some(u.id)) == Some(u)
  {
    var i :| 0 <= i < |users| && users[i] == u;
    if i > 0 {
      assert users[0].id < u.id;
      assert UserTable(users[1..], top) by {
        assert forall a, b :: 0 <= a < b < |users| - 1 ==> users[1..][a] == users[a + 1] && users[1..][b] == users[b + 1];
      }
      assert users[1..][i - 1] == u;
      FindByIdUnique(users[1..], top, u);
    }
  }

  /**
   * Login succeeds exactly for a registered account whose password checks:
   * with unique emails, `Login` answers 200 iff some user has that email and
   * the stored hash accepts the password.
   */
  lemma LoginIff(users: seq<User>, top: nat, email: string, password: string, check: PasswordCheck, encode: Encoder)
    requires UserTable(users, top) && email != "" && password != ""
    ensures var r := Login(users, Credentials(Given(email), Given(password)), check, encode);
      r.status == 200 <==> exists u :: u in users && u.email == email && check(u.passwordHash, password)
  {
    var r := Login(users, Credentials(Given(email), Given(password)), check, encode);
    if u :| u in users && u.email == email && check(u.passwordHash, password) {
      FindByEmailUnique(users, top, u);
    }
  }

  /** An account just registered can log in with the same password, when the hash accepts it. */
  lemma LoginAfterRegister(users: seq<User>, top: nat, email: string, password: string,
                           hash: Hasher, check: PasswordCheck, encode: Encoder)
    requires UserTable(users, top) && email != "" && password != ""
    requires FindUserByEmail(users, email).None?
    requires check(hash(password), password)
    ensures Login(users + [User(top + 1, email, hash(password))], Credentials(Given(email), Given(password)), check, encode)
            == Response(200, TokenIssued(encode(top + 1)))
  {
    var u := User(top + 1, email, hash(password));
    var users' := users + [u];
    assert UserTable(users', top + 1) by {
      forall i | 0 <= i < |users| ensures users[i].email != email {
        assert users[i] in users;
      }
    }
    FindByEmailUnique(users', top + 1, u);
  }
}
