/** The admin-only bot registry of routes/bots.js: the admin guard, register,
    list, activate and deactivate, each as a step from the collection to a
    reply and the next collection. */
module BotRoutes {
  import opened Prelude
  import opened JsStrings
  import opened BotModel

  datatype Body =
    | Error(message: string)
    | Registered(name: string, allowedCurrencies: seq<string>, isActive: bool, createdAt: int)
    | Listing(bots: seq<BotView>)
    | Toggled(name: string, isActive: bool)

  datatype Reply = Reply(code: int, body: Body)

  /** A reply and the collection after the request. */
  datatype Step = Step(reply: Reply, bots: Bots)

  const Unauthorized := Reply(401, Error("Unauthorized: Only the admin can manage bots"))

  /** `verifyAdminTelegramId`: the `x-admin-telegram-id` header must be
      non-empty and equal the configured `ADMIN_TELEGRAM_ID`. */
  function AdminGuard(header: Option<string>, adminId: Option<string>): (pass: bool)
    ensures pass ==> Truthy(adminId)
    ensures pass <==> Truthy(header) && adminId == header
  {
    Truthy(header) && adminId == header
  }

  // ---------------------------------------------------------------------------
  // Register

  /** The `useGateway` member of the body: absent (destructured from `{}`),
      `null` (destructuring throws), or an object with the two keys. */
  datatype GatewayKeys = NoKeys | NullKeys | Keys(apiKey: Option<string>, webhookSecret: Option<string>)

  datatype RegisterRequest = RegisterRequest(name: Option<string>, token: Option<string>,
                                             allowedCurrencies: Option<seq<string>>, useGateway: GatewayKeys)

  function ApiKeyOf(k: GatewayKeys): Option<string> {
    if k.Keys? then k.apiKey else None
  }

  function SecretOf(k: GatewayKeys): Option<string> {
    if k.Keys? then k.webhookSecret else None
  }

  /** The request names all four required values. */
  predicate HasRequired(req: RegisterRequest) {
    Truthy(req.name) && Truthy(req.token) && Truthy(ApiKeyOf(req.useGateway)) && Truthy(SecretOf(req.useGateway))
  }

  /** `Bot.findOne({ $or: [{ name }, { token }] })` finds something. The
      `trim` setter applies to the name in the filter as it does on save. */
  predicate Taken(bots: Bots, name: string, token: string)
    ensures Taken(bots, name, token) <==>
              FindFirst(bots, ByName(Trim(name))).Some? || FindFirst(bots, ByToken(token)).Some?
  {
    exists i :: 0 <= i < |bots| && (bots[i].name == Trim(name) || bots[i].token == token)
  }

  /** POST /api/bots/register. */
  function Register(bots: Bots, header: Option<string>, adminId: Option<string>,
                    req: RegisterRequest, now: int): (s: Step)
    ensures !AdminGuard(header, adminId) ==> s.reply == Unauthorized
    ensures AdminGuard(header, adminId) && req.useGateway.NullKeys? ==> s.reply.code == 500
    ensures s.reply.code == 400 <==> AdminGuard(header, adminId) && !req.useGateway.NullKeys? && !HasRequired(req)
    ensures s.reply.code == 409 <==> AdminGuard(header, adminId) && !req.useGateway.NullKeys? && HasRequired(req)
                                     && Taken(bots, req.name.value, req.token.value)
    ensures s.reply.code == 201 <==> AdminGuard(header, adminId) && !req.useGateway.NullKeys? && HasRequired(req)
                                     && !Taken(bots, req.name.value, req.token.value) && Trim(req.name.value) != ""
    ensures AdminGuard(header, adminId) && !req.useGateway.NullKeys? && HasRequired(req)
            && !Taken(bots, req.name.value, req.token.value) && Trim(req.name.value) == "" ==>
              s.reply == Reply(500, Error("Failed to register bot"))
    ensures s.reply.code != 201 ==> s.bots == bots
    ensures s.reply.code == 201 ==>
              && |s.bots| == |bots| + 1 && s.bots[..|bots|] == bots
              && var b := s.bots[|bots|];
              && b.name == Trim(req.name.value) && b.token == req.token.value
              && b.apiKey == ApiKeyOf(req.useGateway).value && b.webhookSecret == SecretOf(req.useGateway).value
              && b.registeredBy == header.value && b.isActive
              && b.allowedCurrencies == req.allowedCurrencies.GetOr(DefaultAllowedCurrencies)
              && WellFormed(b)
              && s.reply.body == Registered(b.name, b.allowedCurrencies, true, now)
  {
    if !AdminGuard(header, adminId) then Step(Unauthorized, bots)
    else if req.useGateway.NullKeys? then Step(Reply(500, Error("Failed to register bot")), bots)
    else if !HasRequired(req) then
      Step(Reply(400, Error("Missing required fields: name, token, useGateway.apiKey, useGateway.webhookSecret")), bots)
    else if Taken(bots, req.name.value, req.token.value) then
      Step(Reply(409, Error("Bot with this name or token already exists")), bots)
    else
      match NewBot(req.name, header, req.token, ApiKeyOf(req.useGateway), SecretOf(req.useGateway),
                   req.allowedCurrencies, now)
      case Err(_) => Step(Reply(500, Error("Failed to register bot")), bots)
      case Ok(b) => Step(Reply(201, Registered(b.name, b.allowedCurrencies, b.isActive, b.createdAt)), bots + [b])
  }

  /** Names and tokens stay unique across registrations, since every
      successful one first checks both against the whole collection. */
  lemma {:induction false} RegisterPreservesUnique(bots: Bots, header: Option<string>, adminId: Option<string>,
                                                   req: RegisterRequest, now: int)
    requires Unique(bots)
    ensures Unique(Register(bots, header, adminId, req, now).bots)
  {
    var s := Register(bots, header, adminId, req, now);
    if s.reply.code == 201 {
      var b := s.bots[|bots|];
      forall i | 0 <= i < |bots|
        ensures bots[i].name != b.name && bots[i].token != b.token
      {
        assert !(bots[i].name == Trim(req.name.value) || bots[i].token == req.token.value);
      }
      forall i, j | 0 <= i < j < |s.bots|
        ensures s.bots[i].name != s.bots[j].name && s.bots[i].token != s.bots[j].token
      {
        if j < |bots| {
          assert s.bots[i] == bots[i] && s.bots[j] == bots[j];
        } else {
          assert s.bots[i] == bots[i];
        }
      }
    }
  }

  // ---------------------------------------------------------------------------
  // List

  /** GET /api/bots: every bot, without its token (nor the two gateway
      credentials, which the schema hides anyway). */
  function List(bots: Bots, header: Option<string>, adminId: Option<string>): (s: Step)
    ensures s.bots == bots
    ensures !AdminGuard(header, adminId) ==> s.reply == Unauthorized
    ensures AdminGuard(header, adminId) ==>
              && s.reply.code == 200 && s.reply.body.Listing?
              && |s.reply.body.bots| == |bots|
              && forall i :: 0 <= i < |bots| ==> s.reply.body.bots[i] == Read(bots[i], SelectNone).view
  {
    if !AdminGuard(header, adminId) then Step(Unauthorized, bots)
    else Step(Reply(200, Listing(seq(|bots|, i requires 0 <= i < |bots| => View(bots[i])))), bots)
  }

  /** `b` is `a` with possibly different credentials on every bot. */
  predicate SameButCredentials(a: Bots, b: Bots) {
    |a| == |b|
    && forall i :: 0 <= i < |a| ==>
         a[i] == b[i].(token := a[i].token, apiKey := a[i].apiKey, webhookSecret := a[i].webhookSecret)
  }

  /** The listing reveals nothing about tokens or gateway keys: collections
      that differ only there list identically. */
  lemma {:induction false} ListHidesCredentials(a: Bots, b: Bots, header: Option<string>, adminId: Option<string>)
    requires SameButCredentials(a, b)
    ensures List(a, header, adminId).reply == List(b, header, adminId).reply
  {
    if AdminGuard(header, adminId) {
      var la := List(a, header, adminId).reply.body.bots;
      var lb := List(b, header, adminId).reply.body.bots;
      forall i | 0 <= i < |a|
        ensures la[i] == lb[i]
      {
        ReadHidesCredentials(b[i], a[i].token, a[i].apiKey, a[i].webhookSecret);
      }
    }
  }

  // ---------------------------------------------------------------------------
  // Activate / deactivate

  /** POST /api/bots/:name/activate (`active` true) and
      POST /api/bots/:name/deactivate (`active` false). */
  function SetActive(bots: Bots, header: Option<string>, adminId: Option<string>,
                     name: string, active: bool): (s: Step)
    ensures !AdminGuard(header, adminId) ==> s.reply == Unauthorized && s.bots == bots
    ensures AdminGuard(header, adminId) && FindFirst(bots, ByName(Trim(name))).None? ==>
              s.reply.code == 404 && s.bots == bots
    ensures s.reply.code == 200 <==> AdminGuard(header, adminId) && FindFirst(bots, ByName(Trim(name))).Some?
    ensures s.reply.code == 200 ==>
              var i := FindFirst(bots, ByName(Trim(name))).value;
              && |s.bots| == |bots|
              && s.bots[i] == bots[i].(isActive := active)
              && (forall j :: 0 <= j < |bots| && j != i ==> s.bots[j] == bots[j])
              && s.reply.body == Toggled(bots[i].name, active)
  {
    if !AdminGuard(header, adminId) then Step(Unauthorized, bots)
    else
      match FindFirst(bots, ByName(Trim(name)))
      case None => Step(Reply(404, Error("Bot not found")), bots)
      case Some(i) => Step(Reply(200, Toggled(bots[i].name, active)), bots[i := bots[i].(isActive := active)])
  }

  /** Activating or deactivating twice is the same as doing it once. */
  lemma {:induction false} SetActiveIdempotent(bots: Bots, header: Option<string>, adminId: Option<string>,
                                               name: string, active: bool)
    ensures var once := SetActive(bots, header, adminId, name, active);
            SetActive(once.bots, header, adminId, name, active) == once
  {
    var once := SetActive(bots, header, adminId, name, active);
    if once.reply.code == 200 {
      var i := FindFirst(bots, ByName(Trim(name))).value;
      FindFirstSameNames(bots, once.bots, ByName(Trim(name)));
      assert once.bots[i := once.bots[i].(isActive := active)] == once.bots;
    }
  }

  /** Changing only `isActive` does not change what a name lookup finds. */
  lemma {:induction false} FindFirstSameNames(a: Bots, b: Bots, f: Filter)
    requires f.ByName?
    requires |a| == |b| && forall j :: 0 <= j < |a| ==> a[j].name == b[j].name
    ensures FindFirst(a, f) == FindFirst(b, f)
  {
    if |a| > 0 {
      FindFirstSameNames(a[1..], b[1..], f);
    }
  }

  /** With unique names, a toggle touches only the bot it names, and the
      collection keeps unique names and tokens. */
  lemma SetActiveOnlyNamed(bots: Bots, header: Option<string>, adminId: Option<string>, name: string, active: bool)
    requires Unique(bots)
    ensures var s := SetActive(bots, header, adminId, name, active);
            && |s.bots| == |bots|
            && Unique(s.bots)
            && forall j :: 0 <= j < |bots| && bots[j].name != Trim(name) ==> s.bots[j] == bots[j]
  {
  }

  /** Deactivating a bot and then activating it restores the collection when
      the bot was active to begin with. */
  lemma DeactivateThenActivate(bots: Bots, header: Option<string>, adminId: Option<string>, name: string)
    requires AdminGuard(header, adminId)
    requires FindFirst(bots, ByName(Trim(name))).Some?
    requires bots[FindFirst(bots, ByName(Trim(name))).value].isActive
    ensures SetActive(SetActive(bots, header, adminId, name, false).bots, header, adminId, name, true).bots == bots
  {
    var off := SetActive(bots, header, adminId, name, false);
    FindFirstSameNames(bots, off.bots, ByName(Trim(name)));
    var i := FindFirst(bots, ByName(Trim(name))).value;
    assert off.bots[i := off.bots[i].(isActive := true)] == bots;
  }
}
