# airbnb-lite: a Dafny model of the client session and the API rules

airbnb-lite is a small lodging-marketplace prototype. It has two parts. A React
single-page client (`AirbnbLite` with its `Auth` and `HostPanel` sidebar
panels) browses listings, logs in, creates listings and books. A Flask API keeps
users, listings and bookings in SQLite. This project models the parts of both
whose behaviour can be stated exactly, and proves properties of the model:

- `Browse` covers the client-side search (`filtered`). It is an order-preserving,
  case-insensitive substring filter on title or city.
- `Client` covers the client's session and view state. Class `App` holds the
  `useState` fields and the browser's `localStorage` entry `"token"` (as an
  `Option<string>`). Each handler is a method that takes the API's reply as an
  input: `Ok(body)`, `Err(error?)` for a non-2xx body, or `NetFail` when
  `fetch`/`res.json()` throws. The sidebar is one field holding either the Auth
  panel's state or the host panel's state. React remounts the panel whenever
  `logged` changes, so a panel's state starts fresh each time. The object
  invariant says the host panel is shown exactly when `logged` holds.
- `Server` covers the API: bearer-header extraction (a simplified,
  case-sensitive form of the Authorization header of section 2.1 of RFC 6750),
  the `token_required` wrapper, the required-field checks, the defaults for new
  listings, and guest-name resolution for bookings. Class `Server` holds the
  three tables and their AUTOINCREMENT counters. Its invariant says ids are
  positive and increasing and emails are unique and non-empty. Read-only
  handlers (`login`, `my_listings`) are functions of the tables.
- `Wire` follows requests across the boundary. It proves that the client's
  headers reach the server's bearer extraction unchanged, that an issued token
  authenticates its user, and that a typed price is stored as a number.
- `Text`, `Sequences` and `Wrappers` are helpers: lower-casing, substring,
  `startswith`, `split(' ', 1)`, decimal rendering and parsing, subsequences, and
  `Option`.

JWT and password hashing are opaque: they are function-valued parameters
(`Encoder`, `Decoder`, `Hasher`, `PasswordCheck`). The properties assumed of
them are stated where they are needed: decoding undoes encoding and an issued
token is a non-empty string (`Wire.IssuedTokenAuthenticates`), and the check
accepts the hash of the same password (`Server.LoginAfterRegister`).
Clock-dependent token expiry is part of what `Decoder` returns.

JSON request members are `Field<T> = Absent | Null | Given(v)`. This models
Python's `payload.get(key, default)` as the code does it: the default replaces
only a missing member, and an explicit `null` is stored as NULL.

Behaviours of the code that are easy to misread, and that the model follows as written:

- `logged` starts as `!!localStorage.getItem('token')`, so an empty stored token
  counts as logged out.
- Anonymous bookings are accepted: the guest is `"Invitado"` with no guest id.
- The listing type is a free string, defaulting to `"Departamento"`, not an
  enumeration.
- A successful create calls `fetchMy()` at its end without awaiting it. `Create`
  records the `my_listings` request it issues (`refetch`), and the reply to it is
  a separate `FetchMy` step.
- `api_book` keeps the `user_id` claimed by a decodable token as `guest_id` even
  when no such user exists.

## Model

| member | source | states |
|---|---|---|
| `Text.Lower` | frontend/src/App.jsx:162-163 | `toLowerCase` keeps the length and maps every character on its own, by ASCII and Latin-1 case folding |
| `Text.LowerIdempotent` | frontend/src/App.jsx:162-163 | lower-casing twice is the same as lower-casing once |
| `Text.ContainsIff` | frontend/src/App.jsx:162-163 | `includes` holds exactly when the needle occurs at some index of the haystack |
| `Text.ContainsEmpty` | frontend/src/App.jsx:162-163 | every string includes the empty string |
| `Text.AfterFirst` | backend/app.py:69 | `split(' ', 1)[1]` is None exactly when the separator is absent; otherwise it is the text after the separator's first occurrence |
| `Text.AfterFirstOfPrefix` | backend/app.py:69 | splitting a prefix-plus-rest string, where the prefix ends in its only separator, yields exactly the rest |
| `Text.ShowNat` | frontend/src/App.jsx:177 | `${n}` renders a non-empty string of digits with no leading zero |
| `Text.ParseDecimal` | frontend/src/App.jsx:88 | `Number(s)` gives a number exactly for digit strings, and 0 for the empty string |
| `Text.ParseShowRoundTrip` | frontend/src/App.jsx:88 | parsing the decimal rendering of n gives back n |
| `Browse.Filter` | frontend/src/App.jsx:161-164 | the filtered list is no longer than the cache, and each shown listing is cached and matches on lower-cased title or city |
| `Browse.FilterIsSubsequence` | frontend/src/App.jsx:161-164 | the filtered list keeps the cache's order: it is a subsequence of the cache |
| `Browse.FilterCounts` | frontend/src/App.jsx:161-164 | every occurrence of a matching listing is kept, and no occurrence of a non-matching one |
| `Browse.FilterMembership` | frontend/src/App.jsx:161-164 | a listing is shown if and only if it is cached and matches the query |
| `Browse.FilterEmptyQuery` | frontend/src/App.jsx:161-164 | the empty query shows the whole cache unchanged |
| `Browse.FilterIgnoresQueryCase` | frontend/src/App.jsx:161-164 | lower-casing the query does not change the result |
| `Browse.FilterScenarioFound` | frontend/src/App.jsx:161-164 | "centro" finds the listing "Loft Centro" in Rosario |
| `Browse.FilterScenarioNone` | frontend/src/App.jsx:161-164 | "palermo" finds nothing in that cache |
| `Client.BookingMessageRoundTrip` | frontend/src/App.jsx:176-183 | the booking status line can be read back: a confirmation gives the booking id, a rejection gives the server's error or "no se pudo reservar", and the network message gives a network error |
| `Client.PriceSentAsNumber` | frontend/src/App.jsx:88 | the price draft "150" is sent as the number 150 |
| `Client.App.constructor` | frontend/src/App.jsx:137-142 | at page load, `logged` holds iff the stored token is present and non-empty; the matching panel is fresh; cache, query and booking message are empty; loading is off |
| `Client.App.SetQuery` | frontend/src/App.jsx:208 | typing replaces the query and changes nothing else |
| `Client.App.BeginFetchListings` | frontend/src/App.jsx:148-151 | a refresh turns loading on |
| `Client.App.EndFetchListings` | frontend/src/App.jsx:152-158 | a received array replaces the cache; a thrown failure leaves the cache unchanged; loading ends off either way |
| `Client.App.Book` | frontend/src/App.jsx:166-185 | the request carries `'Bearer ' + token` only when a token is held; the message is "Reserva confirmada: ID " + the id, "Error: " + (error or "no se pudo reservar"), or "Error de red al intentar reservar" |
| `Client.App.ToggleMode` | frontend/src/App.jsx:50-54 | the Auth panel's link flips between login and register and changes nothing else |
| `Client.App.EditCredentials` | frontend/src/App.jsx:44-45 | typing sets the Auth panel's email and password |
| `Client.App.Submit` | frontend/src/App.jsx:12-38 | posts to the mode's path. On a non-ok reply: msg becomes the error or "Error", mode is unchanged, no token is stored, still logged out. On a failure: msg becomes "Error de red.". On login ok: the token is stored, `logged` turns true, and a fresh host panel appears. On register ok: mode becomes login, msg is "Registro OK. Ahora logueate.", no token is stored. The invariant is kept |
| `Client.App.EditDraft` | frontend/src/App.jsx:108-116 | typing sets the host panel's draft fields |
| `Client.App.Create` | frontend/src/App.jsx:80-98 | sends `Number(price)`, with the title as description. On ok: title, city and price are cleared, type and image are kept, msg is "Listing creado.". On a non-ok reply: msg is the error or "Error". On a failure: msg is "Error de red.". Only an ok reply issues the `my_listings` re-fetch, with the same `'Bearer ' + token` header |
| `Client.App.FetchMy` | frontend/src/App.jsx:69-76 | sends `'Bearer ' + token` (which becomes "Bearer null" with no token); only an ok reply replaces the host's own listings |
| `Client.App.Logout` | frontend/src/App.jsx:104 | either "Salir" button (this line and line 196), shown only while logged in, removes the token, turns `logged` false and brings back a fresh Auth panel |
| `Server.ExtractBearer` | backend/app.py:66-69 | a token is found exactly when the header starts with "Bearer ", and the header is then "Bearer " followed by the token |
| `Server.FindUserById` | backend/app.py:76 | finds a user with that id when one exists; a NULL id matches none |
| `Server.FindUserByEmail` | backend/app.py:108 | finds a user with that email when one exists, and None only when there is none |
| `Server.Authenticate` | backend/app.py:63-83 | a missing header, another prefix or an empty token gives 401 "Token requerido". An undecodable token gives 401 "Token inválido". An unknown user gives 401 "Usuario no existe". A decodable token whose claimed id names a stored user makes that user the caller, and every caller let through is a stored user whose id the token claims |
| `Server.RequireCredentials` | backend/app.py:87-91 | email and password pass only when both are given as non-empty strings |
| `Server.Login` | backend/app.py:100-112 | missing fields give 400 "email y password requeridos"; an unknown email or a password the stored hash rejects gives 401 "Credenciales inválidas"; a known email whose hash accepts the password gets 200 with `encode` of that user's id; a 200 issues `encode(id)` for a user with that email whose password checks; every non-200 carries an error and no token |
| `Server.LoginIff` | backend/app.py:107-111 | with unique emails, login answers 200 exactly when some user has the email and the stored hash accepts the password |
| `Server.LoginAfterRegister` | backend/app.py:94-112 | an account that register has just appended can log in with the same password, and gets the token for its new id |
| `Server.FindByEmailUnique` | backend/app.py:26-30 | since emails are UNIQUE, the email lookup finds exactly the stored user |
| `Server.FindByIdUnique` | backend/app.py:26-30 | since ids are AUTOINCREMENT, the id lookup finds exactly the stored user |
| `Server.OwnedBy` | backend/app.py:126 | `WHERE owner_id=?` keeps exactly the rows owned by the caller, in table order |
| `Server.MyListings` | backend/app.py:122-128 | an unauthenticated request gets the wrapper's 401 response; otherwise a 200 with exactly the caller's rows; rows with a NULL owner never appear |
| `Server.OwnedByAppend` | backend/app.py:126 | inserting a row extends an owner's `WHERE owner_id=?` selection by that row exactly when the row is theirs, and leaves every other owner's selection unchanged |
| `Server.CreatedListingIsListed` | backend/app.py:122-144 | after an authenticated host creates a listing, `my_listings` returns the rows listed before followed by the new row |
| `Server.SeedsNeverOwned` | backend/app.py:48-51 | the three seeded rows, whose owner is NULL, are never returned by `my_listings` |
| `Server.RequireTitleCity` | backend/app.py:134-141 | title and city pass only when both are given as non-empty strings |
| `Server.NewListingDefaults` | backend/app.py:136-139 | a missing price, type, description or image becomes 0, "Departamento", "" or the default image URL; a given value is stored as sent; JSON null is stored as NULL |
| `Server.ResolveGuest` | backend/app.py:149-165 | the guest name is the supplied name, else the token user's email, else "Invitado". A missing or undecodable token leaves the guest id None. A decodable token's claimed id becomes the guest id |
| `Server.Server.constructor` | backend/app.py:20-54 | a fresh database has no users and no bookings, and holds the three seeded listings with ids 1 to 3 |
| `Server.Server.Register` | backend/app.py:85-98 | missing fields give 400 and insert nothing; an existing email gives 400 "Email ya registrado" and leaves users unchanged; otherwise exactly one user is appended, with the next id and the password's hash; emails stay unique |
| `Server.Server.CreateListing` | backend/app.py:130-145 | a failed authentication returns its 401 and the handler does not run. A missing title or city gives 400 "title y city requeridos" and inserts nothing. Otherwise one row is appended, owned by the caller with the defaults, and its new id is returned |
| `Server.Server.Book` | backend/app.py:147-171 | a missing or zero `listing_id` gives 400 "listing_id requerido" and inserts nothing; an invalid token does not fail the request; otherwise one booking is appended with the resolved guest, and its id is greater than every earlier booking id |
| `Wire.HostHeaderCarriesToken` | frontend/src/App.jsx:87 | the host panel's `'Bearer ' + token` reaches the server's extraction as exactly that token |
| `Wire.BookingHeaderCarriesSession` | frontend/src/App.jsx:172 | a booking carries the session token when one is held, and no bearer token otherwise |
| `Wire.IssuedTokenAuthenticates` | backend/app.py:111 | when decoding undoes encoding, the token login issues authenticates the host panel's requests as that same user |
| `Wire.LoggedOutBookingIsAnonymous` | backend/app.py:153-169 | a booking sent without a session is stored for "Invitado" with no guest id |
| `Wire.DraftStoredAsSent` | frontend/src/App.jsx:88 | the create request passes the server's title/city check. The stored price is the typed digits' value, or NULL when `Number` gives NaN. Type, image and the title-as-description are stored as sent |
| `Wire.PriceScenario` | frontend/src/App.jsx:88 | typing the decimal rendering of n stores the number n as the listing's price |

## Left out

- JSX rendering, CSS classes, `useEffect` timing and re-render mechanics are not modelled. The mount effects are separate method calls: `BeginFetchListings`/`EndFetchListings` at page load, and `FetchMy` when the host panel appears.
- The "Ver" button's `selected` state is not modelled. It is written and never read by any logic.
- `fetch`, `res.json()`, `API_BASE` and network transport are not modelled. Every reply is an input value.
- Overlapping or in-flight requests are not modelled: double-clicks, stalled requests, and replies after a panel has unmounted. Each handler except `fetchListings` is one atomic step, so the transient clearing of `msg`/`bookingMsg` while a request is pending cannot be seen.
- Multi-tab synchronisation of the token is not modelled.
- JWT encoding and decoding, HS256, `exp` expiry, and `generate_password_hash`/`check_password_hash` are foreign cryptography. They are function parameters with no body in this model.
- SQLite connection handling (`get_db`, `close_connection`) is not modelled. Of `init_db`, only the fresh-file case is modelled (the constructor). Flask routing, CORS and `created_at` timestamps are not modelled (bookings hold no timestamp).
- `api_listings` (backend/app.py:114-120) returns the whole table and has no logic. On the client side its reply is an input of `EndFetchListings`.
- Text.ParseDecimal: models `Number` on digit strings only. Whitespace, signs, decimal points, exponents and hex forms, which `Number` also accepts, are treated as NaN.
- Text.ParseDecimal: returns an unbounded integer, while `Number` returns an IEEE double. Digit strings above 2^53 are rounded, and very long ones become `Infinity`, which `JSON.stringify` sends as `null`. So `Wire.PriceScenario`, `Wire.DraftStoredAsSent` and `Client.PriceSentAsNumber` describe the program only for values up to 2^53.
- Text.Lower: folds only ASCII and the Latin-1 capitals U+00C0 to U+00DE (except U+00D7). Other Unicode case mappings, including those that change the length, are not modelled.
- JSON members of other types than the model's are not modelled: numbers where strings are expected (which make `generate_password_hash` raise a 500), floats for `price` or `listing_id`, arrays and objects. A body that does not parse as JSON is not modelled: `request.json` rejects it with Flask's own 400 before the handler runs, and depending on the Werkzeug version a non-JSON Content-Type is either rejected in the same way or read as no body. The model starts from a parsed object, and a JSON `null` body acts as one with every member absent (`or {}`).
- `fetchListings` does not check `res.ok`, so a non-2xx JSON error object would replace the cache and break rendering. The model's reply is either an array or a thrown failure.
- Exceptions other than a failed JWT decode are not modelled, such as database errors inside the `try` of `api_book` and the 500 responses they cause.
- Client.App.Create: the re-fetch it fires is not awaited, so later handlers can run before its reply arrives. The model records only that the request is issued (`refetch`) and applies its reply in a separate `FetchMy` step, so interleavings with other handlers are not modelled.
- `SELECT` without `ORDER BY` is modelled as returning rows in insertion (rowid) order.
