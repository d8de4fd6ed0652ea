/**
 * The single-page client: the AirbnbLite component with its two sidebar
 * panels, Auth and HostPanel. Every `useState` field and the browser's
 * `localStorage` entry "token" is a field of `App`; every handler is a method
 * that receives the API's reply as an input.
 */
module Client {
  import opened Wrappers
  import opened Text
  import opened Browse

  datatype Mode = LoginMode | RegisterMode

  /**
   * The outcome of one request as a handler sees it: a 2xx JSON body, a
   * non-2xx JSON body with its optional `error` member, or a failure thrown
   * by `fetch` or `res.json()`.
   */
  datatype Reply<+T> = Ok(body: T) | Err(error: Option<string>) | NetFail

  /**
   * The sidebar shows exactly one panel. React mounts a fresh panel whenever
   * `logged` changes, so each variant carries that panel's own state.
   */
  datatype Sidebar = AuthPanel(auth: AuthState) | HostPanel(host: HostState)

  /** The Auth panel's `useState` fields. */
  datatype AuthState = AuthState(mode: Mode, email: string, password: string, msg: string)

  /** The host panel's `useState` fields. */
  datatype HostState = HostState(myListings: seq<Listing>, title: string, city: string, price: string,
                                 kind: string, image: string, msg: string)

  const FreshAuth := AuthPanel(AuthState(LoginMode, "", "", ""))
  const FreshHost := HostPanel(HostState([], "", "", "", "Departamento", "https://picsum.photos/seed/new/400/300", ""))

  const RegisteredMsg := "Registro OK. Ahora logueate."
  const NetworkMsg := "Error de red."
  const CreatedMsg := "Listing creado."
  const GenericError := "Error"
  const BookedPrefix := "Reserva confirmada: ID "
  const BookErrorPrefix := "Error: "
  const BookFallback := "no se pudo reservar"
  const BookNetworkMsg := "Error de red al intentar reservar"

  /** `j.error || fallback`. */
  function ErrorText(error: Option<string>, fallback: string): string {
    if Truthy(error) then error.value else fallback
  }

  function AuthPath(mode: Mode): string {
    if mode == LoginMode then "/auth/login" else "/auth/register"
  }

  /** `localStorage.setItem('token', j.token)`: a missing member is stored as the string "undefined". */
  function StoredToken(token: Option<string>): string {
    token.GetOr("undefined")
  }

  /** `'Bearer ' + token` as the host panel builds it: a missing token concatenates as "null". */
  function HostAuthorization(stored: Option<string>): string {
    "Bearer " + stored.GetOr("null")
  }

  /** `token ? 'Bearer ' + token : undefined`; the Headers conversion sends undefined as the string "undefined". */
  function BookingAuthorization(stored: Option<string>): string {
    if Truthy(stored) then "Bearer " + stored.value else "undefined"
  }

  datatype AuthRequest = AuthRequest(path: string, email: string, password: string)
  /** The body of `/api/create_listing`; `price` is `Number(price)`, None standing for NaN. */
  datatype CreateRequest = CreateRequest(authorization: string, title: string, city: string, price: Option<nat>,
                                         kind: string, description: string, image: string)
  datatype BookRequest = BookRequest(authorization: string, listingId: int)

  /** The booking status line. */
  function BookingMessage(reply: Reply<nat>): string {
    match reply
    case Ok(id) => BookedPrefix + ShowNat(id)
    case Err(e) => BookErrorPrefix + ErrorText(e, BookFallback)
    case NetFail => BookNetworkMsg
  }

  datatype BookingStatus = Confirmed(id: nat) | Rejected(reason: string) | NetworkError | NoStatus

  /** What a reader of the status line learns from it. */
  function ReadBookingMessage(m: string): BookingStatus {
    if StartsWith(m, BookedPrefix) && ParseDecimal(m[|BookedPrefix|..]).Some? then
      Confirmed(ParseDecimal(m[|BookedPrefix|..]).value)
    else if m == BookNetworkMsg then NetworkError
    else if StartsWith(m, BookErrorPrefix) then Rejected(m[|BookErrorPrefix|..])
    else NoStatus
  }

  /**
   * The status line tells the three outcomes apart: a confirmation carries
   * the booking id, a rejection the server's error or the fallback text.
   */
  lemma BookingMessageRoundTrip(reply: Reply<nat>)
    ensures ReadBookingMessage(BookingMessage(reply)) ==
            match reply
            case Ok(id) => Confirmed(id)
            case Err(e) => Rejected(ErrorText(e, BookFallback))
            case NetFail => NetworkError
  {
    var m := BookingMessage(reply);
    match reply
    case Ok(id) =>
      assert m[|BookedPrefix|..] == ShowNat(id);
      ParseShowRoundTrip(id);
    case Err(e) =>
      assert m[0] == 'E' && m[5] == ':';
      assert !StartsWith(m, BookedPrefix);
      assert m != BookNetworkMsg;
    case NetFail =>
      assert m[0] == 'E';
      assert !StartsWith(m, BookedPrefix);
  }

  /** The price draft "150" is sent as the number 150. */
  lemma PriceSentAsNumber()
    ensures ParseDecimal("150") == Some(150)
  {
    assert DigitsValue("15") == 15 by {
      assert "15"[..1] == "1";
      assert "1"[..0] == "";
    }
    assert "150"[..2] == "15";
  }

  class App {
    var storage: Option<string>
    var logged: bool
    var listings: seq<Listing>
    var query: string
    var loading: bool
    var bookingMsg: string
    var sidebar: Sidebar

    /**
     * The sidebar shows the host panel exactly when logged in; logging in
     * always stores a token, and a logged-out client holds no usable one.
     */
    ghost predicate Valid()
      reads this
    {
      (logged <==> sidebar.HostPanel?)
      && (logged ==> storage.Some?)
      && (!logged ==> !Truthy(storage))
    }

    /** The listings on screen: the cache filtered by the query. */
    function Filtered(): seq<Listing>
      reads this
    {
      Filter(listings, query)
    }

    /** Page load: `logged` starts as `!!localStorage.getItem('token')`. */
    constructor (stored: Option<string>)
      ensures Valid()
      ensures storage == stored && logged == Truthy(stored)
      ensures listings == [] && query == "" && !loading && bookingMsg == ""
      ensures sidebar == if Truthy(stored) then FreshHost else FreshAuth
    {
      storage := stored;
      logged := Truthy(stored);
      listings, query, loading, bookingMsg := [], "", false, "";
      sidebar := if Truthy(stored) then FreshHost else FreshAuth;
    }

    /** Typing in the search box. */
    method SetQuery(q: string)
      requires Valid()
      modifies this`query
      ensures Valid()
      ensures query == q
    {
      query := q;
    }

    /** The start of `fetchListings`: the request goes out and the list shows its loading note. */
    method BeginFetchListings()
      requires Valid()
      modifies this`loading
      ensures Valid()
      ensures loading
    {
      loading := true;
    }

    /**
     * The end of `fetchListings`: a JSON array replaces the cache, a thrown
     * failure leaves it as it was, and loading ends either way.
     */
    method EndFetchListings(data: Option<seq<Listing>>)
      requires Valid()
      modifies this`listings, this`loading
      ensures Valid()
      ensures !loading
      ensures listings == if data.Some? then data.value else old(listings)
    {
      if data.Some? {
        listings := data.value;
      }
      loading := false;
    }

    /** `book(listingId)`: sends the session token if there is one and reports the outcome. */
    method Book(listingId: int, reply: Reply<nat>) returns (request: BookRequest)
      requires Valid()
      modifies this`bookingMsg
      ensures Valid()
      ensures request == BookRequest(BookingAuthorization(storage), listingId)
      ensures reply.Ok? ==> bookingMsg == BookedPrefix + ShowNat(reply.body)
      ensures reply.Err? && Truthy(reply.error) ==> bookingMsg == BookErrorPrefix + reply.error.value
      ensures reply.Err? && !Truthy(reply.error) ==> bookingMsg == BookErrorPrefix + BookFallback
      ensures reply.NetFail? ==> bookingMsg == BookNetworkMsg
    {
      request := BookRequest(BookingAuthorization(storage), listingId);
      bookingMsg := BookingMessage(reply);
    }

    /** The "Crear cuenta" / "Volver a ingresar" link of the Auth panel. */
    method ToggleMode()
      requires Valid() && sidebar.AuthPanel?
      modifies this`sidebar
      ensures Valid()
      ensures sidebar == AuthPanel(old(sidebar).auth.(mode := if old(sidebar).auth.mode == LoginMode then RegisterMode else LoginMode))
    {
      var a := sidebar.auth;
      sidebar := AuthPanel(a.(mode := if a.mode == LoginMode then RegisterMode else LoginMode));
    }

    /** Typing into the Auth form. */
    method EditCredentials(email: string, password: string)
      requires Valid() && sidebar.AuthPanel?
      modifies this`sidebar
      ensures Valid()
      ensures sidebar == AuthPanel(old(sidebar).auth.(email := email, password := password))
    {
      sidebar := AuthPanel(sidebar.auth.(email := email, password := password));
    }

    /**
     * `Auth.submit`: posts the credentials to the mode's endpoint. A login
     * reply with 2xx stores the token and switches to the host panel; a
     * register reply with 2xx switches to login mode with a confirmation;
     * anything else only sets the message.
     */
    method Submit(reply: Reply<Option<string>>) returns (request: AuthRequest)
      requires Valid() && sidebar.AuthPanel?
      modifies this`storage, this`logged, this`sidebar
      ensures Valid()
      ensures var a := old(sidebar).auth;
        request == AuthRequest(AuthPath(a.mode), a.email, a.password)
      ensures reply.Err? ==>
                storage == old(storage) && !logged
                && sidebar == AuthPanel(old(sidebar).auth.(msg := ErrorText(reply.error, GenericError)))
      ensures reply.NetFail? ==>
                storage == old(storage) && !logged && sidebar == AuthPanel(old(sidebar).auth.(msg := NetworkMsg))
      ensures reply.Ok? && old(sidebar).auth.mode == LoginMode ==>
                storage == Some(StoredToken(reply.body)) && logged && sidebar == FreshHost
      ensures reply.Ok? && old(sidebar).auth.mode == RegisterMode ==>
                storage == old(storage) && !logged
                && sidebar == AuthPanel(old(sidebar).auth.(mode := LoginMode, msg := RegisteredMsg))
    {
      var a := sidebar.auth.(msg := "");
      sidebar := AuthPanel(a);
      request := AuthRequest(AuthPath(a.mode), a.email, a.password);
      match reply
      case NetFail =>
        sidebar := AuthPanel(a.(msg := NetworkMsg));
      case Err(e) =>
        sidebar := AuthPanel(a.(msg := ErrorText(e, GenericError)));
      case Ok(token) =>
        if a.mode == LoginMode {
          storage := Some(StoredToken(token));
          logged := true;
          sidebar := FreshHost;
        } else {
          sidebar := AuthPanel(a.(msg := RegisteredMsg, mode := LoginMode));
        }
    }

    /** Typing into the host panel's form. */
    method EditDraft(title: string, city: string, price: string, kind: string, image: string)
      requires Valid() && sidebar.HostPanel?
      modifies this`sidebar
      ensures Valid()
      ensures sidebar == HostPanel(old(sidebar).host.(title := title, city := city, price := price, kind := kind, image := image))
    {
      sidebar := HostPanel(sidebar.host.(title := title, city := city, price := price, kind := kind, image := image));
    }

    /**
     * `HostPanel.create`: posts the draft with `price` as a number and the
     * title as description; a 2xx reply clears title, city and price, keeps
     * type and image, and fires off `fetchMy` without awaiting it. `refetch`
     * is the Authorization header of that `my_listings` request, when one is
     * issued; its reply arrives later, through `FetchMy`.
     */
    method Create(reply: Reply<nat>) returns (request: CreateRequest, refetch: Option<string>)
      requires Valid() && sidebar.HostPanel?
      modifies this`sidebar
      ensures Valid()
      ensures var h := old(sidebar).host;
        request == CreateRequest(HostAuthorization(storage), h.title, h.city, ParseDecimal(h.price), h.kind, h.title, h.image)
      ensures reply.Ok? ==>
                sidebar == HostPanel(old(sidebar).host.(title := "", city := "", price := "", msg := CreatedMsg))
      ensures refetch == if reply.Ok? then Some(HostAuthorization(storage)) else None
      ensures reply.Err? ==> sidebar == HostPanel(old(sidebar).host.(msg := ErrorText(reply.error, GenericError)))
      ensures reply.NetFail? ==> sidebar == HostPanel(old(sidebar).host.(msg := NetworkMsg))
    {
      var h := sidebar.host.(msg := "");
      sidebar := HostPanel(h);
      request := CreateRequest(HostAuthorization(storage), h.title, h.city, ParseDecimal(h.price), h.kind, h.title, h.image);
      refetch := None;
      match reply
      case NetFail =>
        sidebar := HostPanel(h.(msg := NetworkMsg));
      case Err(e) =>
        sidebar := HostPanel(h.(msg := ErrorText(e, GenericError)));
      case Ok(_) =>
        sidebar := HostPanel(h.(msg := CreatedMsg, title := "", city := "", price := ""));
        refetch := Some(HostAuthorization(storage));
    }

    /** `HostPanel.fetchMy`: only a 2xx reply replaces the host's own listings. */
    method FetchMy(reply: Reply<seq<Listing>>) returns (authorization: string)
      requires Valid() && sidebar.HostPanel?
      modifies this`sidebar
      ensures Valid()
      ensures authorization == HostAuthorization(storage)
      ensures sidebar == if reply.Ok? then HostPanel(old(sidebar).host.(myListings := reply.body)) else old(sidebar)
    {
      authorization := HostAuthorization(storage);
      if reply.Ok? {
        sidebar := HostPanel(sidebar.host.(myListings := reply.body));
      }
    }

    /**
     * Either "Salir" button, which is shown only while logged in: the token
     * is removed and the Auth panel is mounted afresh.
     */
    method Logout()
      requires Valid() && logged
      modifies this`storage, this`logged, this`sidebar
      ensures Valid()
      ensures storage == None && !logged && sidebar == FreshAuth
    {
      storage := None;
      logged := false;
      sidebar := FreshAuth;
    }
  }

  /** The register-then-login session, driven through the handlers' contracts. */
  method SessionScenario(token: string)
  {
    var app := new App(None);
    assert app.sidebar == FreshAuth;
    app.ToggleMode();
    app.EditCredentials("a@a.com", "x");
    var sent := app.Submit(Ok(None));
    assert sent.path == "/auth/register";
    assert app.sidebar.auth.mode == LoginMode && app.sidebar.auth.msg == RegisteredMsg && app.storage == None;
    sent := app.Submit(Ok(Some(token)));
    assert sent.path == "/auth/login" && sent.email == "a@a.com";
    assert app.logged && app.storage == Some(token) && app.sidebar == FreshHost;
    app.Logout();
    assert !app.logged && app.storage == None && app.sidebar.AuthPanel?;
  }
}
