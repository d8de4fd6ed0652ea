/**
 * Properties of a request that crosses from the client to the API: the
 * headers the client builds against the server's bearer extraction, the
 * token a login issues against `token_required`, and the create request's
 * JSON encoding against the row the server inserts.
 */
module Wire {
  import opened Wrappers
  import opened Text
  import Client
  import Server

  lemma BearerPrefixCancels(t: string)
    ensures StartsWith("Bearer " + t, Server.BearerPrefix)
    ensures ("Bearer " + t)[|Server.BearerPrefix|..] == t
  {
    assert ("Bearer " + t)[..7] == "Bearer ";
  }

  /** The host panel's `'Bearer ' + token` reaches `token_required` as exactly the stored token. */
  lemma HostHeaderCarriesToken(t: string)
    ensures Server.ExtractBearer(Some(Client.HostAuthorization(Some(t)))) == Some(t)
  {
    BearerPrefixCancels(t);
    var h := Client.HostAuthorization(Some(t));
    var r := Server.ExtractBearer(Some(h));
    assert h == Server.BearerPrefix + r.value;
    assert r.value == h[|Server.BearerPrefix|..];
  }

  /** A booking carries the session token when there is one, and no bearer token at all otherwise. */
  lemma BookingHeaderCarriesSession(stored: Option<string>)
    ensures Server.ExtractBearer(Some(Client.BookingAuthorization(stored))) == if Truthy(stored) then stored else None
  {
    if Truthy(stored) {
      HostHeaderCarriesToken(stored.value);
    } else {
      assert "undefined"[0] != 'B';
      assert !StartsWith("undefined", Server.BearerPrefix);
    }
  }

  /**
   * The token a login issues authenticates the host panel's later requests as
   * that same user, given that decoding undoes encoding.
   */
  lemma IssuedTokenAuthenticates(users: seq<Server.User>, top: nat, u: Server.User,
                                 decode: Server.Decoder, encode: Server.Encoder)
    requires Server.UserTable(users, top) && u in users
    requires decode(encode(u.id)) == Some(Server.Claims(Some(u.id)))
    requires encode(u.id) != ""
    ensures Server.Authenticate(users, Some(Client.HostAuthorization(Some(encode(u.id)))), decode) == Server.Authorized(u)
  {
    HostHeaderCarriesToken(encode(u.id));
    Server.FindByIdUnique(users, top, u);
  }

  /** A logged-out booking, which sends only `listing_id`, is stored for "Invitado" with no guest id. */
  lemma LoggedOutBookingIsAnonymous(users: seq<Server.User>, decode: Server.Decoder)
    ensures Server.ResolveGuest(users, Some(Client.BookingAuthorization(None)), decode, Server.Absent)
            == Server.Guest(None, "Invitado")
  {
    BookingHeaderCarriesSession(None);
  }

  /** `JSON.stringify` of the create request: NaN is written as null. */
  function PayloadOf(req: Client.CreateRequest): Server.ListingPayload {
    Server.ListingPayload(Server.Given(req.title), Server.Given(req.city),
                          if req.price.Some? then Server.Given(req.price.value) else Server.Null,
                          Server.Given(req.kind), Server.Given(req.description), Server.Given(req.image))
  }

  /**
   * The price typed into the host panel is stored as a number: a digit
   * string as its value, anything `Number` cannot read as NULL. Type, image
   * and the title-as-description are stored as sent.
   */
  lemma DraftStoredAsSent(h: Client.HostState, authorization: string, id: nat, owner: nat)
    requires h.title != "" && h.city != ""
    ensures var req := Client.CreateRequest(authorization, h.title, h.city, ParseDecimal(h.price), h.kind, h.title, h.image);
      var p := PayloadOf(req);
      Server.RequireTitleCity(p) == Some((h.title, h.city))
      && var row := Server.NewListingRow(id, owner, h.title, h.city, p);
      (AllDigits(h.price) ==> row.price == Some(DigitsValue(h.price)))
      && (!AllDigits(h.price) ==> row.price == None)
      && row.kind == Some(h.kind) && row.image == Some(h.image) && row.description == Some(h.title)
  {
  }

  /** "150" in the price box becomes the number 150 in the listings table. */
  lemma PriceScenario(h: Client.HostState, authorization: string, id: nat, owner: nat, n: nat)
    requires h.title != "" && h.city != "" && h.price == ShowNat(n)
    ensures var req := Client.CreateRequest(authorization, h.title, h.city, ParseDecimal(h.price), h.kind, h.title, h.image);
      Server.NewListingRow(id, owner, h.title, h.city, PayloadOf(req)).price == Some(n)
  {
    ParseShowRoundTrip(n);
  }
}
