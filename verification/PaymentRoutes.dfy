/** The payment handlers of routes/payments.js as pure steps over the payment
    store and the bot collection: bot authentication, POST /create,
    GET /:paymentId and POST /webhook. The clock, the fresh payment id and
    the gateway's answers are inputs. */
module PaymentRoutes {
  import opened Prelude
  import opened JsStrings
  import opened PaymentModel
  import BotModel
  import BotRoutes
  import GW = GatewayService

  /** The payment collection, keyed by `paymentId`. */
  type Payments = map<string, Payment>

  /** Every stored payment is well formed and filed under its own id. */
  predicate WellFormedStore(payments: Payments) {
    forall k :: k in payments ==> payments[k].paymentId == k && WellFormed(payments[k])
  }

  datatype Body =
    | Error(message: string)
    | ErrorDetails(message: string, details: string)
    | Created(paymentId: string, currency: string, amount: int, amountInCrypto: int, address: string, expiresAt: int)
    | StatusView(paymentId: string, status: Status, txHash: Option<string>, expiresAt: int)
    | Accepted

  datatype Reply = Reply(code: int, body: Body)

  // ---------------------------------------------------------------------------
  // authenticateBot

  /** What the middleware attaches to the request as `req.bot`. */
  datatype AuthedBot = AuthedBot(name: string, allowedCurrencies: seq<string>,
                                 apiKey: Option<string>, webhookSecret: Option<string>)

  const MissingToken := Reply(401, Error("Missing bot token header"))
  const InvalidToken := Reply(401, Error("Invalid bot token or bot is inactive"))

  /** The position of the bot `findOne({ token })` returns for the header. */
  function TokenHolder(bots: BotModel.Bots, tokenHeader: Option<string>): Option<nat> {
    if Truthy(tokenHeader) then BotModel.FindFirst(bots, BotModel.ByToken(tokenHeader.value)) else None
  }

  /** The header names an active bot. */
  predicate Authenticates(bots: BotModel.Bots, tokenHeader: Option<string>) {
    var i := TokenHolder(bots, tokenHeader);
    i.Some? && bots[i.value].isActive
  }

  /** `authenticateBot`: 401 without a token, with an unknown token or for an
      inactive bot; otherwise the bot's name, currencies and credentials. */
  function Authenticate(bots: BotModel.Bots, tokenHeader: Option<string>): (r: Result<AuthedBot, Reply>)
    ensures !Truthy(tokenHeader) ==> r == Err(MissingToken)
    ensures Truthy(tokenHeader) && !Authenticates(bots, tokenHeader) ==> r == Err(InvalidToken)
    ensures r.Ok? <==> Authenticates(bots, tokenHeader)
    ensures r.Ok? ==>
              var b := bots[TokenHolder(bots, tokenHeader).value];
              && b.token == tokenHeader.value
              && r.value == AuthedBot(b.name, b.allowedCurrencies, Some(b.apiKey), Some(b.webhookSecret))
  {
    if !Truthy(tokenHeader) then Err(MissingToken)
    else
      match BotModel.FindFirst(bots, BotModel.ByToken(tokenHeader.value))
      case None => Err(InvalidToken)
      case Some(i) =>
        if !bots[i].isActive then Err(InvalidToken)
        else
          var loaded := BotModel.Read(bots[i], BotModel.Selection(true, true, true));
          Ok(AuthedBot(loaded.view.name, loaded.view.allowedCurrencies, loaded.apiKey, loaded.webhookSecret))
  }

  /** With unique tokens, authentication succeeds exactly when some active
      bot holds the token. */
  lemma AuthenticateIffActiveHolder(bots: BotModel.Bots, token: string)
    requires BotModel.Unique(bots)
    requires token != ""
    ensures Authenticate(bots, Some(token)).Ok?
            <==> exists i :: 0 <= i < |bots| && bots[i].token == token && bots[i].isActive
  {
    if i :| 0 <= i < |bots| && bots[i].token == token && bots[i].isActive {
      BotModel.FindFirstUnique(bots, BotModel.ByToken(token), i);
    }
  }

  // ---------------------------------------------------------------------------
  // POST /create

  datatype CreateRequest = CreateRequest(telegramUserId: Option<string>, currency: Option<string>, amount: Option<int>)

  /** A create step: the reply, the store afterwards, and the body sent to
      the gateway if the handler got that far. */
  datatype CreateStep = CreateStep(reply: Reply, payments: Payments, sent: Option<GW.GatewayPayload>)

  const WebhookPath: string := "/api/payments/webhook"

  /** The request passes the three input checks for the authenticated bot. */
  predicate InputAccepted(bot: AuthedBot, req: CreateRequest) {
    && Truthy(req.telegramUserId) && Truthy(req.currency) && TruthyNum(req.amount)
    && req.amount.value > 0
    && ToUpperCase(req.currency.value) in bot.allowedCurrencies
  }

  /** `gatewayPayment.crypto_amount || 0`. */
  function CryptoAmount(created: GW.CreatedPayment): (n: int)
    ensures TruthyNum(created.cryptoAmount) ==> n == created.cryptoAmount.value
    ensures !TruthyNum(created.cryptoAmount) ==> n == 0
  {
    if TruthyNum(created.cryptoAmount) then created.cryptoAmount.value else 0
  }

  /** The document the handler builds from the request and the gateway's answer. */
  function CreateDoc(bot: AuthedBot, req: CreateRequest, freshId: string, created: GW.CreatedPayment, now: int)
    : (d: Doc)
    requires Truthy(req.currency)
    ensures d.paymentId == Some(freshId) && d.botName == Some(bot.name) && d.status == Some(StatusName(Pending))
    ensures d.telegramUserId == req.telegramUserId && d.amount == req.amount
    ensures d.currency == Some(ToUpperCase(req.currency.value))
    ensures d.address == created.address && d.paymentUrl == created.paymentUrl
    ensures d.amountInCrypto == Some(CryptoAmount(created)) && d.expiresAt == Some(now + GW.PaymentLifetimeMs)
  {
    NewDoc(Some(freshId), Some(bot.name), req.telegramUserId, Some(ToUpperCase(req.currency.value)),
           req.amount, Some(CryptoAmount(created)), created.address, created.paymentUrl,
           Some(StatusName(Pending)), Some(now + GW.PaymentLifetimeMs), now)
  }

  /** After the input checks, the record is valid exactly when the id and
      the bot's name are non-empty, the currency is in the enum and the
      gateway gave an address and a URL. */
  lemma CreateDocValidity(bot: AuthedBot, req: CreateRequest, freshId: string, created: GW.CreatedPayment, now: int)
    requires InputAccepted(bot, req)
    ensures Valid(CreateDoc(bot, req, freshId, created, now))
            <==> freshId != "" && bot.name != "" && IsCurrency(ToUpperCase(req.currency.value))
                 && Truthy(created.address) && Truthy(created.paymentUrl)
  {
    StatusNameParses(Pending);
    ValidityOfFilledDoc(CreateDoc(bot, req, freshId, created, now));
  }

  /** With a non-empty id, the save can fail only on the bot's name, the
      currency, the address or the URL: no error names any other path. */
  lemma CreateDocErrors(bot: AuthedBot, req: CreateRequest, freshId: string, created: GW.CreatedPayment, now: int)
    requires InputAccepted(bot, req) && freshId != ""
    ensures forall e :: e in Violations(CreateDoc(bot, req, freshId, created, now)) ==>
              e.path !in {PaymentId, TelegramUserId, Amount, AmountInCrypto, StatusPath, ExpiresAt}
  {
    var d := CreateDoc(bot, req, freshId, created, now);
    StatusNameParses(Pending);
    FilledPathsPass(d);
    ViolationsSound(d);
  }

  const GatewayFailed: string := "Failed to create payment with gateway"

  /** The payment the handler stores when the save succeeds: it loads back
      as the document that was built, saved at the same instant. */
  function NewPayment(bot: AuthedBot, req: CreateRequest, freshId: string, created: GW.CreatedPayment, now: int)
    : (p: Payment)
    requires InputAccepted(bot, req) && Truthy(created.address) && Truthy(created.paymentUrl)
    ensures Load(p) == CreateDoc(bot, req, freshId, created, now)
    ensures p.updatedAt == now
    ensures freshId != "" && bot.name != "" && IsCurrency(ToUpperCase(req.currency.value)) ==> WellFormed(p)
  {
    Payment(freshId, bot.name, req.telegramUserId.value, ToUpperCase(req.currency.value), req.amount.value,
            CryptoAmount(created), created.address.value, created.paymentUrl.value, Pending, None, None,
            now + GW.PaymentLifetimeMs, now, now)
  }

  /** Saving the record once the gateway has opened the payment, and filing
      it under its id when the save succeeds. */
  function Record(payments: Payments, bot: AuthedBot, req: CreateRequest, freshId: string,
                  created: GW.CreatedPayment, now: int, sent: GW.GatewayPayload): (s: CreateStep)
    requires InputAccepted(bot, req)
    requires freshId != "" && freshId !in payments
    ensures s.sent == Some(sent)
    ensures s.reply.code == 200 || s.reply.code == 500
    ensures s.reply.code == 500 ==>
              var doc := CreateDoc(bot, req, freshId, created, now);
              && |Violations(doc)| > 0
              && s.reply == Reply(500, ErrorDetails(GatewayFailed, ValidationMessage(Violations(doc))))
              && s.payments == payments
    ensures s.reply.code == 200 <==>
              Truthy(created.address) && Truthy(created.paymentUrl)
              && IsCurrency(ToUpperCase(req.currency.value)) && bot.name != ""
    ensures s.reply.code == 200 ==>
              && Truthy(created.address) && Truthy(created.paymentUrl)
              && var p := NewPayment(bot, req, freshId, created, now);
              && s.payments == payments[freshId := p]
              && s.reply.body == Created(freshId, p.currency, p.amount, p.amountInCrypto, p.address, p.expiresAt)
  {
    CreateDocValidity(bot, req, freshId, created, now);
    var doc := CreateDoc(bot, req, freshId, created, now);
    match Save(doc, now)
    case Err(errors) =>
      assert errors == Violations(doc);
      CreateStep(Reply(500, ErrorDetails(GatewayFailed, ValidationMessage(errors))), payments, Some(sent))
    case Ok(p) =>
      assert p == NewPayment(bot, req, freshId, created, now);
      CreateStep(Reply(200, Created(p.paymentId, p.currency, p.amount, p.amountInCrypto, p.address, p.expiresAt)),
                 payments[freshId := p], Some(sent))
  }

  /** The part of the handler after the input checks: open the gateway
      payment, then save the record. */
  function Open(payments: Payments, bot: AuthedBot, req: CreateRequest, freshId: string, serverUrl: string,
                now: int, answer: Result<GW.CreatedPayment, GW.GatewayError>): (s: CreateStep)
    requires InputAccepted(bot, req)
    requires freshId != "" && freshId !in payments
    ensures s.sent == Some(GW.BuildPayload(GW.PaymentData(ToUpperCase(req.currency.value), req.amount.value,
                                                          freshId, serverUrl + WebhookPath, None), now))
    ensures s.reply.code == 200 || s.reply.code == 500
    ensures s.reply.code == 500 ==> s.payments == payments
    ensures answer.Err? ==>
              s.reply == Reply(500, ErrorDetails(GatewayFailed, GW.CreateFailedPrefix + GW.ErrorDetail(answer.error)))
    ensures answer.Ok? && s.reply.code == 500 ==>
              var doc := CreateDoc(bot, req, freshId, answer.value, now);
              && |Violations(doc)| > 0
              && s.reply == Reply(500, ErrorDetails(GatewayFailed, ValidationMessage(Violations(doc))))
    ensures s.reply.code == 200 <==>
              answer.Ok? && Truthy(answer.value.address) && Truthy(answer.value.paymentUrl)
              && IsCurrency(ToUpperCase(req.currency.value)) && bot.name != ""
    ensures s.reply.code == 200 ==>
              && answer.Ok? && Truthy(answer.value.address) && Truthy(answer.value.paymentUrl)
              && var p := NewPayment(bot, req, freshId, answer.value, now);
              && s.payments == payments[freshId := p]
              && Load(p) == CreateDoc(bot, req, freshId, answer.value, now)
              && p.updatedAt == now
              && WellFormed(p)
              && s.reply.body == Created(freshId, p.currency, p.amount, p.amountInCrypto, p.address, p.expiresAt)
  {
    var upper := ToUpperCase(req.currency.value);
    var data := GW.PaymentData(upper, req.amount.value, freshId, serverUrl + WebhookPath, None);
    var call := GW.CreatePayment(data, now, answer);
    match call.result
    case Err(message) =>
      CreateStep(Reply(500, ErrorDetails(GatewayFailed, message)), payments, Some(call.sent))
    case Ok(created) => Record(payments, bot, req, freshId, created, now, call.sent)
  }

  const MissingFields := Reply(400, Error("Missing required fields: telegramUserId, currency, amount"))
  const NonPositiveAmount := Reply(400, Error("Amount must be greater than 0"))

  /** The 400 reply for a currency the bot may not take, listing the ones it may. */
  function CurrencyNotAllowed(upper: string, allowed: seq<string>): Reply {
    Reply(400, Error("Currency " + upper + " is not allowed for this bot. Allowed currencies: " + Join(allowed, ", ")))
  }

  /** The handler once the bot is known: the three input checks, in order,
      then the gateway and the save. */
  function CheckInput(payments: Payments, bot: AuthedBot, req: CreateRequest, freshId: string, serverUrl: string,
                      now: int, answer: Result<GW.CreatedPayment, GW.GatewayError>): (s: CreateStep)
    requires freshId != "" && freshId !in payments
    ensures var present := Truthy(req.telegramUserId) && Truthy(req.currency) && TruthyNum(req.amount);
            && (!present ==> s.reply == MissingFields)
            && (present && req.amount.value <= 0 ==> s.reply == NonPositiveAmount)
            && (present && req.amount.value > 0 && ToUpperCase(req.currency.value) !in bot.allowedCurrencies ==>
                  s.reply == CurrencyNotAllowed(ToUpperCase(req.currency.value), bot.allowedCurrencies))
    ensures s.reply.code == 400 <==> !InputAccepted(bot, req)
    ensures !InputAccepted(bot, req) ==> s.payments == payments && s.sent.None?
    ensures InputAccepted(bot, req) ==> s == Open(payments, bot, req, freshId, serverUrl, now, answer)
  {
    if !Truthy(req.telegramUserId) || !Truthy(req.currency) || !TruthyNum(req.amount) then
      CreateStep(MissingFields, payments, None)
    else if req.amount.value <= 0 then
      CreateStep(NonPositiveAmount, payments, None)
    else
      var upper := ToUpperCase(req.currency.value);
      if upper !in bot.allowedCurrencies then
        CreateStep(CurrencyNotAllowed(upper, bot.allowedCurrencies), payments, None)
      else Open(payments, bot, req, freshId, serverUrl, now, answer)
  }

  /** POST /api/payments/create. `freshId` stands for `uuidv4()`. */
  function Create(payments: Payments, bots: BotModel.Bots, tokenHeader: Option<string>, req: CreateRequest,
                  freshId: string, serverUrl: string, now: int,
                  answer: Result<GW.CreatedPayment, GW.GatewayError>): (s: CreateStep)
    requires freshId != "" && freshId !in payments
    // authentication comes first, and a rejected request touches nothing
    ensures !Authenticates(bots, tokenHeader) ==>
              s.reply == Authenticate(bots, tokenHeader).error && s.reply.code == 401
              && s.payments == payments && s.sent.None?
    ensures Authenticates(bots, tokenHeader) ==>
              var bot := Authenticate(bots, tokenHeader).value;
              var present := Truthy(req.telegramUserId) && Truthy(req.currency) && TruthyNum(req.amount);
              && (!present ==> s.reply == MissingFields)
              && (present && req.amount.value <= 0 ==> s.reply == NonPositiveAmount)
              && (present && req.amount.value > 0 && ToUpperCase(req.currency.value) !in bot.allowedCurrencies ==>
                    s.reply == CurrencyNotAllowed(ToUpperCase(req.currency.value), bot.allowedCurrencies))
    ensures s.reply.code == 400 <==>
              Authenticates(bots, tokenHeader) && !InputAccepted(Authenticate(bots, tokenHeader).value, req)
    ensures s.reply.code == 400 ==> s.payments == payments && s.sent.None?
    // the gateway is asked exactly for accepted input, with the fresh id as order id
    ensures s.sent.Some? <==>
              Authenticates(bots, tokenHeader) && InputAccepted(Authenticate(bots, tokenHeader).value, req)
    ensures s.sent.Some? ==>
              && s.sent.value.orderId == freshId
              && s.sent.value.currency == ToUpperCase(req.currency.value)
              && s.sent.value.amount == req.amount.value
              && s.sent.value.callbackUrl == serverUrl + WebhookPath
              && s.sent.value.returnUrl.None?
    // all or nothing
    ensures s.payments == payments || (s.reply.code == 200 && s.payments.Keys == payments.Keys + {freshId}
                                       && forall k :: k in payments ==> s.payments[k] == payments[k])
    ensures s.sent.Some? && answer.Err? ==> s.reply.code == 500 && s.payments == payments
    ensures s.reply.code == 200 <==>
              && s.sent.Some? && answer.Ok?
              && Truthy(answer.value.address) && Truthy(answer.value.paymentUrl)
              && IsCurrency(ToUpperCase(req.currency.value))
              && Authenticate(bots, tokenHeader).value.name != ""
    ensures s.reply.code == 200 ==>
              s == Open(payments, Authenticate(bots, tokenHeader).value, req, freshId, serverUrl, now, answer)
    ensures WellFormedStore(payments) ==> WellFormedStore(s.payments)
  {
    match Authenticate(bots, tokenHeader)
    case Err(reply) => CreateStep(reply, payments, None)
    case Ok(bot) => CheckInput(payments, bot, req, freshId, serverUrl, now, answer)
  }

  /** A payment is only ever created for an active bot holding the token,
      in a currency that bot allows. */
  lemma CreateNeedsActiveBot(payments: Payments, bots: BotModel.Bots, tokenHeader: Option<string>, req: CreateRequest,
                             freshId: string, serverUrl: string, now: int,
                             answer: Result<GW.CreatedPayment, GW.GatewayError>)
    requires freshId != "" && freshId !in payments
    requires Create(payments, bots, tokenHeader, req, freshId, serverUrl, now, answer).reply.code == 200
    ensures exists i :: 0 <= i < |bots| && bots[i].token == tokenHeader.value && bots[i].isActive
                        && ToUpperCase(req.currency.value) in bots[i].allowedCurrencies
  {
    var i := TokenHolder(bots, tokenHeader).value;
    assert bots[i].token == tokenHeader.value && bots[i].isActive;
  }

  /** Once a bot is deactivated in the registry, its token can no longer
      create payments. */
  lemma DeactivatedBotCannotCreate(payments: Payments, bots: BotModel.Bots, header: Option<string>,
                                   adminId: Option<string>, name: string, req: CreateRequest,
                                   freshId: string, serverUrl: string, now: int,
                                   answer: Result<GW.CreatedPayment, GW.GatewayError>)
    requires BotModel.Unique(bots)
    requires freshId != "" && freshId !in payments
    requires BotRoutes.SetActive(bots, header, adminId, name, false).reply.code == 200
    ensures var i := BotModel.FindFirst(bots, BotModel.ByName(Trim(name))).value;
            var s := Create(payments, BotRoutes.SetActive(bots, header, adminId, name, false).bots,
                            Some(bots[i].token), req, freshId, serverUrl, now, answer);
            s.reply.code == 401 && s.payments == payments
  {
    var i := BotModel.FindFirst(bots, BotModel.ByName(Trim(name))).value;
    var after := BotRoutes.SetActive(bots, header, adminId, name, false).bots;
    BotRoutes.SetActiveOnlyNamed(bots, header, adminId, name, false);
    BotModel.FindFirstUnique(after, BotModel.ByToken(bots[i].token), i);
  }

  /** `Bot.findOne({ name: payment.botName })`: the position of the bot a
      payment belongs to. The `trim` setter applies to the filter. */
  function OwnerOf(bots: BotModel.Bots, botName: string): Option<nat> {
    BotModel.FindFirst(bots, BotModel.ByName(Trim(botName)))
  }

  // ---------------------------------------------------------------------------
  // GET /:paymentId

  /** A status read: the reply, the store afterwards, and the path of the
      status query sent to the gateway, if one was sent. */
  datatype ReadStep = ReadStep(reply: Reply, payments: Payments, polled: Option<string>)

  /** `Payment.findOne({ paymentId, botName: <x-bot-name header> })`. */
  predicate Visible(payments: Payments, nameHeader: Option<string>, paymentId: string) {
    paymentId in payments && nameHeader == Some(payments[paymentId].botName)
  }

  /** In a store filed by id, the keyed lookup finds a payment exactly when
      some stored record matches both filter fields. */
  lemma VisibleIffRecordMatches(payments: Payments, nameHeader: Option<string>, paymentId: string)
    requires WellFormedStore(payments)
    ensures Visible(payments, nameHeader, paymentId) <==>
              exists k :: k in payments && payments[k].paymentId == paymentId && nameHeader == Some(payments[k].botName)
  {
  }

  /** The gateway's answer reports the payment settled. */
  predicate Completed(answer: Result<GW.StatusAnswer, GW.GatewayError>) {
    answer.Ok? && answer.value.status == Some("completed")
  }

  function ViewOf(p: Payment): Reply {
    Reply(200, StatusView(p.paymentId, p.status, p.txHash, p.expiresAt))
  }

  const ReadFailed := Reply(500, Error("Failed to get payment status"))

  /** The second half of the read, once the payment has been loaded and the
      expiry check has run: poll the gateway if still pending. */
  function Refresh(payments: Payments, bots: BotModel.Bots, paymentId: string, p: Payment, now: int,
                   answer: Result<GW.StatusAnswer, GW.GatewayError>): (s: ReadStep)
    requires paymentId in payments
    ensures s.polled.Some? ==> s.polled.value == GW.StatusPathPrefix + paymentId
    ensures p.status != Pending ==> s == ReadStep(ViewOf(p), payments, None)
    ensures p.status == Pending ==> (s.polled.Some? <==> OwnerOf(bots, p.botName).Some?)
    ensures p.status == Pending && s.polled.Some? && Completed(answer) ==>
              && s.reply == ViewOf(p.(status := Confirmed, txHash := answer.value.txHash))
              && s.payments == if WellFormed(p)
                               then payments[paymentId := p.(status := Confirmed, txHash := answer.value.txHash, updatedAt := now)]
                               else payments
    ensures !(p.status == Pending && s.polled.Some? && Completed(answer)) ==> s.payments == payments && s.reply == ViewOf(p)
  {
    if p.status != Pending then ReadStep(ViewOf(p), payments, None)
    else
      match OwnerOf(bots, p.botName)
      case None => ReadStep(ViewOf(p), payments, None)  // `bot.useGateway` on null throws; the catch continues
      case Some(_) =>
        var call := GW.GetPaymentStatus(paymentId, answer);
        match call.result
        case Err(_) => ReadStep(ViewOf(p), payments, Some(call.requested))
        case Ok(remote) =>
          if remote.status != Some("completed") then ReadStep(ViewOf(p), payments, Some(call.requested))
          else Confirm(payments, paymentId, p, remote.txHash, now, call.requested)
  }

  /** A completed answer: the in-memory copy takes the confirmed status and
      the answer's hash, and is saved. A failed save is caught; the reply
      shows the changed copy while the store keeps the old record. */
  function Confirm(payments: Payments, paymentId: string, p: Payment, txHash: Option<string>, now: int,
                   requested: string): (s: ReadStep)
    ensures s.polled == Some(requested)
    ensures s.reply == ViewOf(p.(status := Confirmed, txHash := txHash))
    ensures WellFormed(p) ==> s.payments == payments[paymentId := p.(status := Confirmed, txHash := txHash, updatedAt := now)]
    ensures !WellFormed(p) ==> s.payments == payments
  {
    SaveWithTxHash(p, txHash, now);
    match Save(Load(p).(status := Some(StatusName(Confirmed)), txHash := txHash), now)
    case Err(_) => ReadStep(ViewOf(p.(status := Confirmed, txHash := txHash)), payments, Some(requested))
    case Ok(q) => ReadStep(ViewOf(q), payments[paymentId := q], Some(requested))
  }

  /** The refresh changes at most the payment it was given, and only from
      pending and well formed to confirmed. */
  lemma RefreshFrame(payments: Payments, bots: BotModel.Bots, paymentId: string, p: Payment, now: int,
                     answer: Result<GW.StatusAnswer, GW.GatewayError>)
    requires paymentId in payments
    ensures var s := Refresh(payments, bots, paymentId, p, now, answer);
            && s.payments.Keys == payments.Keys
            && (forall k :: k in payments && k != paymentId ==> s.payments[k] == payments[k])
            && (s.payments[paymentId] != payments[paymentId] ==>
                  && WellFormed(p) && p.status == Pending
                  && s.payments[paymentId] == p.(status := Confirmed, txHash := s.payments[paymentId].txHash, updatedAt := now))
  {
  }

  /** Saving a loaded payment with a new status and hash changes just those
      two fields and the save time; a record that is not well formed fails
      validation whatever the two fields become. */
  lemma SaveWithTxHash(p: Payment, txHash: Option<string>, now: int)
    ensures WellFormed(p) ==>
              Save(Load(p).(status := Some(StatusName(Confirmed)), txHash := txHash), now)
              == Ok(p.(status := Confirmed, txHash := txHash, updatedAt := now))
    ensures !WellFormed(p) ==> Save(Load(p).(status := Some(StatusName(Confirmed)), txHash := txHash), now).Err?
  {
    StatusNameParses(Confirmed);
    if WellFormed(p) {
      assert Valid(Load(p).(status := Some(StatusName(Confirmed)), txHash := txHash));
    }
  }

  /** The expiry check's save: the payment stored as expired. */
  function Expire(p: Payment, now: int): (r: Result<Payment, seq<ValidationError>>)
    ensures r.Ok? <==> WellFormed(p)
    ensures r.Ok? ==> r.value == p.(status := Expired, updatedAt := now)
  {
    SaveWithStatus(p, Expired, now);
    Save(Load(p).(status := Some(StatusName(Expired))), now)
  }

  /** The expiry check on an overdue pending payment: the record is saved as
      expired and shown; a failed save is the read's 500. An expired record
      is not pending, so the refresh after it sends no query. */
  function ExpireOverdue(payments: Payments, bots: BotModel.Bots, paymentId: string, now: int,
                         answer: Result<GW.StatusAnswer, GW.GatewayError>): (s: ReadStep)
    requires paymentId in payments
    ensures !WellFormed(payments[paymentId]) ==> s == ReadStep(ReadFailed, payments, None)
    ensures WellFormed(payments[paymentId]) ==>
              var q := payments[paymentId].(status := Expired, updatedAt := now);
              s == ReadStep(ViewOf(q), payments[paymentId := q], None)
  {
    match Expire(payments[paymentId], now)
    case Err(_) => ReadStep(ReadFailed, payments, None)
    case Ok(q) => Refresh(payments[paymentId := q], bots, paymentId, q, now, answer)
  }

  /** The read once the payment is found: the expiry check, then the refresh. */
  function CheckAndRefresh(payments: Payments, bots: BotModel.Bots, paymentId: string, now: int,
                           answer: Result<GW.StatusAnswer, GW.GatewayError>): (s: ReadStep)
    requires paymentId in payments
    ensures s.payments.Keys == payments.Keys
    ensures forall k :: k in payments && k != paymentId ==> s.payments[k] == payments[k]
    ensures s.payments[paymentId] != payments[paymentId] ==>
              && payments[paymentId].status == Pending
              && s.payments[paymentId].status in {Expired, Confirmed}
    ensures s.polled.Some? ==> s.polled.value == GW.StatusPathPrefix + paymentId
    ensures var p := payments[paymentId];
            p.status != Pending ==> s == ReadStep(ViewOf(p), payments, None)
    ensures var p := payments[paymentId];
            && (p.status == Pending && now > p.expiresAt && !WellFormed(p) ==>
                  s == ReadStep(ReadFailed, payments, None))
            && (p.status == Pending && now > p.expiresAt && WellFormed(p) ==>
                  var q := p.(status := Expired, updatedAt := now);
                  s == ReadStep(ViewOf(q), payments[paymentId := q], None))
    ensures WellFormed(payments[paymentId]) ==> WellFormed(s.payments[paymentId])
  {
    var p := payments[paymentId];
    if p.status == Pending && now > p.expiresAt then ExpireOverdue(payments, bots, paymentId, now, answer)
    else RefreshFrame(payments, bots, paymentId, p, now, answer); Refresh(payments, bots, paymentId, p, now, answer)
  }

  /** A pending payment within its deadline is polled exactly when its owner
      bot is found; a completed answer is shown as confirmed and stored when
      the record saves; any other answer leaves the store and the reply as
      they were. */
  lemma PendingReadPolls(payments: Payments, bots: BotModel.Bots, paymentId: string, now: int,
                         answer: Result<GW.StatusAnswer, GW.GatewayError>)
    requires paymentId in payments
    requires payments[paymentId].status == Pending && now <= payments[paymentId].expiresAt
    ensures var p := payments[paymentId];
            var s := CheckAndRefresh(payments, bots, paymentId, now, answer);
            && (s.polled.Some? <==> OwnerOf(bots, p.botName).Some?)
            && (s.polled.Some? && Completed(answer) ==>
                  && s.reply == ViewOf(p.(status := Confirmed, txHash := answer.value.txHash))
                  && s.payments == if WellFormed(p)
                                   then payments[paymentId := p.(status := Confirmed, txHash := answer.value.txHash, updatedAt := now)]
                                   else payments)
            && (!(s.polled.Some? && Completed(answer)) ==> s.payments == payments && s.reply == ViewOf(p))
  {
  }

  /** GET /api/payments/:paymentId. */
  function ReadStatus(payments: Payments, bots: BotModel.Bots, tokenHeader: Option<string>,
                      nameHeader: Option<string>, paymentId: string, now: int,
                      answer: Result<GW.StatusAnswer, GW.GatewayError>): (s: ReadStep)
    ensures !Authenticates(bots, tokenHeader) ==> s.reply.code == 401 && s.payments == payments && s.polled.None?
    ensures Authenticates(bots, tokenHeader) && !Visible(payments, nameHeader, paymentId) ==>
              s == ReadStep(Reply(404, Error("Payment not found")), payments, None)
    ensures Authenticates(bots, tokenHeader) && Visible(payments, nameHeader, paymentId) ==>
              s == CheckAndRefresh(payments, bots, paymentId, now, answer)
    // only the requested payment can change
    ensures s.payments.Keys == payments.Keys
    ensures forall k :: k in payments && k != paymentId ==> s.payments[k] == payments[k]
    // the read acts on pending payments only, and only towards expired or confirmed
    ensures paymentId in payments && s.payments[paymentId] != payments[paymentId] ==>
              && payments[paymentId].status == Pending
              && s.payments[paymentId].status in {Expired, Confirmed}
    ensures paymentId in payments && IsTerminal(payments[paymentId].status) ==>
              s.payments == payments && s.polled.None?
    ensures s.polled.Some? ==> s.polled.value == GW.StatusPathPrefix + paymentId
    ensures WellFormedStore(payments) ==> WellFormedStore(s.payments)
  {
    match Authenticate(bots, tokenHeader)
    case Err(reply) => ReadStep(reply, payments, None)
    case Ok(_) =>
      if !Visible(payments, nameHeader, paymentId) then ReadStep(Reply(404, Error("Payment not found")), payments, None)
      else CheckAndRefresh(payments, bots, paymentId, now, answer)
  }

  /** An expired deadline wins over the gateway: the payment expires on the
      read and no status query is made, whatever the gateway would say. */
  lemma ExpiryBeforeGateway(payments: Payments, bots: BotModel.Bots, tokenHeader: Option<string>,
                            nameHeader: Option<string>, paymentId: string, now: int,
                            a1: Result<GW.StatusAnswer, GW.GatewayError>, a2: Result<GW.StatusAnswer, GW.GatewayError>)
    requires Authenticates(bots, tokenHeader) && Visible(payments, nameHeader, paymentId)
    requires payments[paymentId].status == Pending && now > payments[paymentId].expiresAt
    ensures ReadStatus(payments, bots, tokenHeader, nameHeader, paymentId, now, a1)
            == ReadStatus(payments, bots, tokenHeader, nameHeader, paymentId, now, a2)
    ensures ReadStatus(payments, bots, tokenHeader, nameHeader, paymentId, now, a1).polled.None?
    ensures WellFormed(payments[paymentId]) ==>
              ReadStatus(payments, bots, tokenHeader, nameHeader, paymentId, now, a1).payments[paymentId].status == Expired
  {
  }

  // ---------------------------------------------------------------------------
  // POST /webhook

  /** The raw body, the parsed body (`None` when `JSON.parse` throws) and the
      two signature headers `x-signature` and `x-usegateway-signature`. */
  datatype WebhookRequest = WebhookRequest(signature: Option<string>, altSignature: Option<string>,
                                           payload: string, event: Option<WebhookEvent>)

  /** A webhook step: the reply, the store afterwards, and whether the
      confirmation notification was attempted. */
  datatype WebhookStep = WebhookStep(reply: Reply, payments: Payments, notified: bool)

  /** `status === 'completed' ? 'confirmed' : status`. */
  function TargetStatus(ev: WebhookEvent): (r: Option<string>)
    ensures ev.status == Some("completed") ==> r == Some("confirmed")
    ensures ev.status != Some("completed") ==> r == ev.status
  {
    if ev.status == Some("completed") then Some("confirmed") else ev.status
  }

  /** The payment named by the event's `order_id`. */
  predicate Addressed(payments: Payments, req: WebhookRequest) {
    req.event.Some? && req.event.value.orderId.Some? && req.event.value.orderId.value in payments
  }

  /** The signature check the handler runs for `p`, with the secret of the
      first bot carrying the payment's bot name. */
  predicate SignatureValid(bots: BotModel.Bots, crypto: GW.Crypto, req: WebhookRequest, p: Payment)
    requires OwnerOf(bots, p.botName).Some?
    ensures SignatureValid(bots, crypto, req, p) ==> OrElse(req.signature, req.altSignature).Some?
    ensures SignatureValid(bots, crypto, req, p) <==>
              GW.VerifyWebhookSignature(crypto, Some(bots[OwnerOf(bots, p.botName).value].webhookSecret),
                                        req.payload, OrElse(req.signature, req.altSignature))
  {
    var b := bots[OwnerOf(bots, p.botName).value];
    var secret := BotModel.Read(b, BotModel.Selection(false, false, true)).webhookSecret;
    GW.VerifyWebhookSignature(crypto, secret, req.payload, OrElse(req.signature, req.altSignature))
  }

  /** The record the handler saves: status, hash and webhook data overwritten,
      whatever the payment's current status. */
  function Applied(p: Payment, ev: WebhookEvent): (d: Doc)
    ensures d.status == TargetStatus(ev)
    ensures d.txHash == (if Truthy(ev.txHash) then ev.txHash else p.txHash)
    ensures d.webhookData == Some(ev)
    ensures d.(status := Some(StatusName(p.status)), txHash := p.txHash, webhookData := p.webhookData) == Load(p)
  {
    Load(p).(status := TargetStatus(ev), txHash := OrElse(ev.txHash, p.txHash), webhookData := Some(ev))
  }

  const WebhookFailed := Reply(500, Error("Webhook processing failed"))

  /** POST /api/payments/webhook. */
  function Webhook(payments: Payments, bots: BotModel.Bots, crypto: GW.Crypto, req: WebhookRequest, now: int)
    : (s: WebhookStep)
    ensures req.event.None? ==> s == WebhookStep(WebhookFailed, payments, false)
    ensures req.event.Some? && !Addressed(payments, req) ==>
              s == WebhookStep(Reply(404, Error("Payment not found")), payments, false)
    ensures s.payments == payments || s.reply.code == 200
    ensures s.reply.code != 200 ==> !s.notified
    ensures s.reply.code == 200 <==>
              && Addressed(payments, req)
              && var p := payments[req.event.value.orderId.value];
              && OwnerOf(bots, p.botName).Some?
              && SignatureValid(bots, crypto, req, p)
              && Valid(Applied(p, req.event.value))
    ensures Addressed(payments, req) ==>
              var p := payments[req.event.value.orderId.value];
              OwnerOf(bots, p.botName).Some? && !SignatureValid(bots, crypto, req, p)
              ==> s == WebhookStep(Reply(401, Error("Invalid signature")), payments, false)
    // a payment whose bot is gone, or an event status outside the enum, fails the handler
    ensures Addressed(payments, req) ==>
              var p := payments[req.event.value.orderId.value];
              (OwnerOf(bots, p.botName).None?
               || (SignatureValid(bots, crypto, req, p) && !Valid(Applied(p, req.event.value))))
              ==> s == WebhookStep(WebhookFailed, payments, false)
    ensures s.reply.code == 200 ==>
              var ev := req.event.value;
              var id := ev.orderId.value;
              var p := payments[id];
              && id in s.payments
              && s.payments == payments[id := s.payments[id]]
              && s.payments[id] == p.(status := s.payments[id].status, txHash := OrElse(ev.txHash, p.txHash),
                                     webhookData := Some(ev), updatedAt := now)
              && (TargetStatus(ev).Some? ==> StatusName(s.payments[id].status) == TargetStatus(ev).value)
              && (TargetStatus(ev).None? ==> s.payments[id].status == DefaultStatus)
              && s.notified == (s.payments[id].status == Confirmed)
              && s.reply == Reply(200, Accepted)
    ensures WellFormedStore(payments) ==> WellFormedStore(s.payments)
  {
    match req.event
    case None => WebhookStep(WebhookFailed, payments, false)
    case Some(ev) =>
      if ev.orderId.None? || ev.orderId.value !in payments then
        WebhookStep(Reply(404, Error("Payment not found")), payments, false)
      else
        var id := ev.orderId.value;
        var p := payments[id];
        match OwnerOf(bots, p.botName)
        case None => WebhookStep(WebhookFailed, payments, false)
        case Some(_) =>
          if !SignatureValid(bots, crypto, req, p) then
            WebhookStep(Reply(401, Error("Invalid signature")), payments, false)
          else
            match Save(Applied(p, ev), now)
            case Err(_) => WebhookStep(WebhookFailed, payments, false)
            case Ok(q) => WebhookStep(Reply(200, Accepted), payments[id := q], q.status == Confirmed)
  }

  /** The webhook never consults the payment's current status: two stores
      that differ only there get the same reply, and an accepted event leaves
      them identical. */
  lemma WebhookIgnoresPriorStatus(payments: Payments, bots: BotModel.Bots, crypto: GW.Crypto,
                                  req: WebhookRequest, now: int, prior: Status)
    requires Addressed(payments, req)
    ensures var id := req.event.value.orderId.value;
            var a := Webhook(payments[id := payments[id].(status := prior)], bots, crypto, req, now);
            var b := Webhook(payments, bots, crypto, req, now);
            && a.reply == b.reply && a.notified == b.notified
            && (b.reply.code == 200 ==> a.payments == b.payments)
  {
    var id := req.event.value.orderId.value;
    var p := payments[id];
    assert Applied(p.(status := prior), req.event.value) == Applied(p, req.event.value);
    assert payments[id := p.(status := prior)][id := p] == payments;
  }

  /** A verified webhook moves a payment out of a terminal state: whatever
      status the event names is stored, even over confirmed, failed or
      expired. */
  lemma WebhookLeavesTerminalState(payments: Payments, bots: BotModel.Bots, crypto: GW.Crypto,
                                   req: WebhookRequest, now: int, target: Status)
    requires Addressed(payments, req)
    requires var p := payments[req.event.value.orderId.value];
             && WellFormed(p) && IsTerminal(p.status)
             && OwnerOf(bots, p.botName).Some?
             && SignatureValid(bots, crypto, req, p)
    requires req.event.value.status == Some(StatusName(target))
    ensures var s := Webhook(payments, bots, crypto, req, now);
            s.reply.code == 200 && s.payments[req.event.value.orderId.value].status == target
  {
    var p := payments[req.event.value.orderId.value];
    StatusNameParses(target);
    assert Valid(Applied(p, req.event.value));
  }

  /** Delivering the same verified webhook again stores the same status, hash
      and webhook data; only `updatedAt` moves, and a confirmation is
      notified again. */
  lemma {:induction false} WebhookReplay(payments: Payments, bots: BotModel.Bots, crypto: GW.Crypto,
                                         req: WebhookRequest, now: int, later: int)
    requires Webhook(payments, bots, crypto, req, now).reply.code == 200
    ensures var first := Webhook(payments, bots, crypto, req, now);
            var second := Webhook(first.payments, bots, crypto, req, later);
            var id := req.event.value.orderId.value;
            && second.reply.code == 200
            && second.payments == first.payments[id := first.payments[id].(updatedAt := later)]
            && second.notified == first.notified
  {
    var first := Webhook(payments, bots, crypto, req, now);
    var ev := req.event.value;
    var id := ev.orderId.value;
    var p := payments[id];
    var q := first.payments[id];
    assert q.botName == p.botName;
    assert Applied(q, ev) == Applied(p, ev).(createdAt := q.createdAt);
    assert Addressed(first.payments, req);
  }

  /** Once a webhook has confirmed a payment, the owner's next status read
      reports it confirmed with its hash and asks the gateway nothing. */
  lemma {:induction false} WebhookThenRead(payments: Payments, bots: BotModel.Bots, crypto: GW.Crypto,
                                           req: WebhookRequest, now: int, tokenHeader: Option<string>,
                                           later: int, answer: Result<GW.StatusAnswer, GW.GatewayError>)
    requires WellFormedStore(payments)
    requires Authenticates(bots, tokenHeader)
    requires Webhook(payments, bots, crypto, req, now).reply.code == 200
    requires Webhook(payments, bots, crypto, req, now).notified
    ensures var hooked := Webhook(payments, bots, crypto, req, now);
            var id := req.event.value.orderId.value;
            var q := hooked.payments[id];
            var read := ReadStatus(hooked.payments, bots, tokenHeader, Some(q.botName), id, later, answer);
            && q.status == Confirmed
            && read.polled.None?
            && read.payments == hooked.payments
            && read.reply == Reply(200, StatusView(id, Confirmed, q.txHash, q.expiresAt))
  {
    var hooked := Webhook(payments, bots, crypto, req, now);
    var id := req.event.value.orderId.value;
    assert WellFormedStore(hooked.payments);
    assert Visible(hooked.payments, Some(hooked.payments[id].botName), id);
  }
}
