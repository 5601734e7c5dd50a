/** The Bot record of models/Bot.js and the bot collection it lives in. Names
    are stored trimmed; the token and the two gateway credentials are
    hidden from reads unless a query selects them explicitly. */
module BotModel {
  import opened Prelude
  import opened JsStrings

  /** The `allowedCurrencies` default. */
  const DefaultAllowedCurrencies: seq<string> := ["BTC", "ETH", "USDT"]

  /** A stored bot. Times are milliseconds since the epoch. */
  datatype Bot = Bot(
    name: string,
    registeredBy: string,
    token: string,
    apiKey: string,
    webhookSecret: string,
    isActive: bool,
    createdAt: int,
    lastUsedAt: int,
    allowedCurrencies: seq<string>)

  /** What a stored bot always satisfies: required fields present, name trimmed. */
  predicate WellFormed(b: Bot) {
    && b.name != "" && Trim(b.name) == b.name
    && b.registeredBy != "" && b.token != "" && b.apiKey != "" && b.webhookSecret != ""
  }

  datatype ValidationError = Missing(path: string)

  /** `new Bot({...}).save()`: `name` is trimmed before validation, every
      required String path must be non-empty, `isActive` defaults to true,
      `allowedCurrencies` to BTC/ETH/USDT, and both timestamps to the clock. */
  function NewBot(name: Option<string>, registeredBy: Option<string>, token: Option<string>,
                  apiKey: Option<string>, webhookSecret: Option<string>,
                  allowedCurrencies: Option<seq<string>>, now: int): (r: Result<Bot, ValidationError>)
    ensures r.Ok? <==> (name.Some? && Trim(name.value) != "" && Truthy(registeredBy) && Truthy(token)
                        && Truthy(apiKey) && Truthy(webhookSecret))
    ensures r.Ok? ==> WellFormed(r.value)
    ensures r.Ok? ==> r.value.isActive
    ensures r.Ok? ==> r.value.name == Trim(name.value)
    ensures r.Ok? ==> r.value.allowedCurrencies == allowedCurrencies.GetOr(DefaultAllowedCurrencies)
    ensures r.Ok? ==> r.value.token == token.value && r.value.apiKey == apiKey.value
                      && r.value.webhookSecret == webhookSecret.value && r.value.registeredBy == registeredBy.value
    ensures r.Ok? ==> r.value.createdAt == now && r.value.lastUsedAt == now
  {
    var trimmed := if name.Some? then Some(Trim(name.value)) else None;
    if !Truthy(trimmed) then Err(Missing("name"))
    else if !Truthy(registeredBy) then Err(Missing("registeredBy"))
    else if !Truthy(token) then Err(Missing("token"))
    else if !Truthy(apiKey) then Err(Missing("useGateway.apiKey"))
    else if !Truthy(webhookSecret) then Err(Missing("useGateway.webhookSecret"))
    else
      TrimIdempotent(name.value);
      Ok(Bot(trimmed.value, registeredBy.value, token.value, apiKey.value, webhookSecret.value,
             true, now, now, allowedCurrencies.GetOr(DefaultAllowedCurrencies)))
  }

  // ---------------------------------------------------------------------------
  // Reads and hidden paths

  /** The paths of a bot that a read returns without being asked. */
  datatype BotView = BotView(
    name: string,
    registeredBy: string,
    isActive: bool,
    createdAt: int,
    lastUsedAt: int,
    allowedCurrencies: seq<string>)

  /** The `select: false` paths a query asked for with `+path`. */
  datatype Selection = Selection(token: bool, apiKey: bool, webhookSecret: bool)

  const SelectNone := Selection(false, false, false)

  /** A bot as a query returns it: the visible paths, plus each hidden path
      only when the query selected it. */
  datatype LoadedBot = LoadedBot(view: BotView, token: Option<string>, apiKey: Option<string>,
                                 webhookSecret: Option<string>)

  function View(b: Bot): (v: BotView)
    ensures v.name == b.name && v.isActive == b.isActive && v.allowedCurrencies == b.allowedCurrencies
  {
    BotView(b.name, b.registeredBy, b.isActive, b.createdAt, b.lastUsedAt, b.allowedCurrencies)
  }

  function Read(b: Bot, sel: Selection): (r: LoadedBot)
    ensures r.view == View(b)
    ensures r.token.Some? <==> sel.token
    ensures r.apiKey.Some? <==> sel.apiKey
    ensures r.webhookSecret.Some? <==> sel.webhookSecret
    ensures r.token.Some? ==> r.token.value == b.token
    ensures r.apiKey.Some? ==> r.apiKey.value == b.apiKey
    ensures r.webhookSecret.Some? ==> r.webhookSecret.value == b.webhookSecret
  {
    LoadedBot(View(b),
              if sel.token then Some(b.token) else None,
              if sel.apiKey then Some(b.apiKey) else None,
              if sel.webhookSecret then Some(b.webhookSecret) else None)
  }

  /** A read that selects nothing reveals nothing about the credentials: two
      bots that differ only in token and gateway keys read the same. */
  lemma ReadHidesCredentials(b: Bot, token: string, apiKey: string, webhookSecret: string)
    ensures Read(b, SelectNone) == Read(b.(token := token, apiKey := apiKey, webhookSecret := webhookSecret), SelectNone)
  {
  }

  // ---------------------------------------------------------------------------
  // The collection

  /** The bot collection, in insertion order (the order `findOne` scans). */
  type Bots = seq<Bot>

  /** A `findOne` filter on one path. */
  datatype Filter = ByName(name: string) | ByToken(token: string)

  predicate Matches(b: Bot, f: Filter) {
    match f
    case ByName(n) => b.name == n
    case ByToken(t) => b.token == t
  }

  /** `Bot.findOne(filter)`: the position of the first matching bot. */
  function FindFirst(bots: Bots, f: Filter): (r: Option<nat>)
    ensures r.Some? ==> r.value < |bots| && Matches(bots[r.value], f)
    ensures r.Some? ==> forall j :: 0 <= j < r.value ==> !Matches(bots[j], f)
    ensures r.None? <==> forall j :: 0 <= j < |bots| ==> !Matches(bots[j], f)
  {
    if |bots| == 0 then None
    else if Matches(bots[0], f) then Some(0)
    else
      match FindFirst(bots[1..], f)
      case Some(i) => Some(i + 1)
      case None => None
  }

  /** No two bots share a name, and no two share a token. */
  predicate Unique(bots: Bots) {
    forall i, j :: 0 <= i < j < |bots| ==> bots[i].name != bots[j].name && bots[i].token != bots[j].token
  }

  /** In a collection with unique keys, the bot `findOne` returns is the only
      one that matches. */
  lemma FindFirstUnique(bots: Bots, f: Filter, i: nat)
    requires Unique(bots)
    requires i < |bots| && Matches(bots[i], f)
    ensures FindFirst(bots, f) == Some(i)
  {
  }
}
