/** The Payment record of models/Payment.js: its four-value status, its
    nine-code currency enum, the required fields, the defaults, and what a
    save does (validate, then stamp `updatedAt`). */
module PaymentModel {
  import opened Prelude
  import opened JsStrings

  // ---------------------------------------------------------------------------
  // Status

  datatype Status = Pending | Confirmed | Failed | Expired

  /** The schema default for `status`. */
  const DefaultStatus: Status := Pending

  predicate IsTerminal(s: Status) {
    s != Pending
  }

  /** The string stored in the document for each status. */
  function StatusName(s: Status): string {
    match s
    case Pending => "pending"
    case Confirmed => "confirmed"
    case Failed => "failed"
    case Expired => "expired"
  }

  /** The enum check on `status`: one of the four names, and nothing else. */
  function ParseStatus(name: string): (r: Option<Status>)
    ensures r.Some? <==> name in {"pending", "confirmed", "failed", "expired"}
  {
    if name == "pending" then Some(Pending)
    else if name == "confirmed" then Some(Confirmed)
    else if name == "failed" then Some(Failed)
    else if name == "expired" then Some(Expired)
    else None
  }

  /** Every stored name parses back to its status. */
  lemma StatusNameParses(s: Status)
    ensures ParseStatus(StatusName(s)) == Some(s)
  {
  }

  /** A name that parses is the stored name of the status it parses to. */
  lemma ParseStatusNamed(name: string, s: Status)
    requires ParseStatus(name) == Some(s)
    ensures StatusName(s) == name
  {
  }

  // ---------------------------------------------------------------------------
  // Currency

  /** The `currency` enum, in schema order. */
  const CurrencyCodes: seq<string> := ["BTC", "ETH", "USDT", "LTC", "BCH", "XRP", "ADA", "DOT", "MATIC"]

  predicate IsCurrency(c: string) {
    c in CurrencyCodes
  }

  // ---------------------------------------------------------------------------
  // Records

  /** The parsed webhook body kept in `webhookData`: the three fields the
      handlers read (the rest of the object is carried but never inspected). */
  datatype WebhookEvent = WebhookEvent(orderId: Option<string>, status: Option<string>, txHash: Option<string>)

  /** A stored payment: every required field present and every enum respected.
      Times are milliseconds since the epoch. */
  datatype Payment = Payment(
    paymentId: string,
    botName: string,
    telegramUserId: string,
    currency: string,
    amount: int,
    amountInCrypto: int,
    address: string,
    paymentUrl: string,
    status: Status,
    txHash: Option<string>,
    webhookData: Option<WebhookEvent>,
    expiresAt: int,
    createdAt: int,
    updatedAt: int)

  /** An in-memory document before it is saved: any field may be missing and
      `status` is the raw string that was assigned to it. */
  datatype Doc = Doc(
    paymentId: Option<string>,
    botName: Option<string>,
    telegramUserId: Option<string>,
    currency: Option<string>,
    amount: Option<int>,
    amountInCrypto: Option<int>,
    address: Option<string>,
    paymentUrl: Option<string>,
    status: Option<string>,
    txHash: Option<string>,
    webhookData: Option<WebhookEvent>,
    expiresAt: Option<int>,
    createdAt: int)

  /** The schema paths that carry a validator, in declaration order. */
  datatype Path = PaymentId | BotName | TelegramUserId | Currency | Amount | AmountInCrypto
                | Address | PaymentUrl | StatusPath | ExpiresAt

  const SchemaPaths: seq<Path> := [PaymentId, BotName, TelegramUserId, Currency, Amount, AmountInCrypto,
                                   Address, PaymentUrl, StatusPath, ExpiresAt]

  function PathName(p: Path): string {
    match p
    case PaymentId => "paymentId"
    case BotName => "botName"
    case TelegramUserId => "telegramUserId"
    case Currency => "currency"
    case Amount => "amount"
    case AmountInCrypto => "amountInCrypto"
    case Address => "address"
    case PaymentUrl => "paymentUrl"
    case StatusPath => "status"
    case ExpiresAt => "expiresAt"
  }

  /** A failed `required` validator, or a value outside an enum. */
  datatype ValidationError = Missing(path: Path) | NotInEnum(path: Path, value: string)

  /** What a stored payment always satisfies. */
  predicate WellFormed(p: Payment) {
    && p.paymentId != "" && p.botName != "" && p.telegramUserId != ""
    && p.address != "" && p.paymentUrl != ""
    && IsCurrency(p.currency)
  }

  /** `required: true` on a String path: absent and the empty string both fail. */
  predicate RequiredString(s: Option<string>) {
    Truthy(s)
  }

  /** Every validator of the schema passes on `d`. */
  predicate Valid(d: Doc) {
    && RequiredString(d.paymentId) && RequiredString(d.botName) && RequiredString(d.telegramUserId)
    && RequiredString(d.currency) && IsCurrency(d.currency.value)
    && d.amount.Some? && d.amountInCrypto.Some?
    && RequiredString(d.address) && RequiredString(d.paymentUrl)
    && (d.status.Some? ==> ParseStatus(d.status.value).Some?)
    && d.expiresAt.Some?
  }

  /** The value of a required String path. */
  function RequiredValue(d: Doc, path: Path): Option<string>
    requires path in {PaymentId, BotName, TelegramUserId, Address, PaymentUrl}
  {
    match path
    case PaymentId => d.paymentId
    case BotName => d.botName
    case TelegramUserId => d.telegramUserId
    case Address => d.address
    case PaymentUrl => d.paymentUrl
  }

  /** The error a path reports: the first of its validators that fails. An
      absent or empty currency fails `required` and is not checked against
      the enum; an absent status is not validated at all. */
  function PathError(d: Doc, path: Path): (e: Option<ValidationError>)
    ensures e.Some? ==> e.value.path == path
    // a required String path fails exactly when it is absent or empty
    ensures path in {PaymentId, BotName, TelegramUserId, Address, PaymentUrl} ==>
              (e.Some? <==> !Truthy(RequiredValue(d, path))) && (e.Some? ==> e.value == Missing(path))
    // a required number or date path fails exactly when it is absent
    ensures path == Amount ==> e == (if d.amount.None? then Some(Missing(path)) else None)
    ensures path == AmountInCrypto ==> e == (if d.amountInCrypto.None? then Some(Missing(path)) else None)
    ensures path == ExpiresAt ==> e == (if d.expiresAt.None? then Some(Missing(path)) else None)
    // currency: `required` is checked before the enum
    ensures path == Currency && !Truthy(d.currency) ==> e == Some(Missing(Currency))
    ensures path == Currency && Truthy(d.currency) && !IsCurrency(d.currency.value) ==>
              e == Some(NotInEnum(Currency, d.currency.value))
    ensures path == Currency && Truthy(d.currency) && IsCurrency(d.currency.value) ==> e.None?
    // status: not required, so only a name outside the enum fails
    ensures path == StatusPath && d.status.None? ==> e.None?
    ensures path == StatusPath && d.status.Some? ==>
              e == (if ParseStatus(d.status.value).None? then Some(NotInEnum(StatusPath, d.status.value)) else None)
  {
    match path
    case PaymentId => if RequiredString(d.paymentId) then None else Some(Missing(path))
    case BotName => if RequiredString(d.botName) then None else Some(Missing(path))
    case TelegramUserId => if RequiredString(d.telegramUserId) then None else Some(Missing(path))
    case Currency =>
      if !RequiredString(d.currency) then Some(Missing(path))
      else if !IsCurrency(d.currency.value) then Some(NotInEnum(path, d.currency.value))
      else None
    case Amount => if d.amount.Some? then None else Some(Missing(path))
    case AmountInCrypto => if d.amountInCrypto.Some? then None else Some(Missing(path))
    case Address => if RequiredString(d.address) then None else Some(Missing(path))
    case PaymentUrl => if RequiredString(d.paymentUrl) then None else Some(Missing(path))
    case StatusPath =>
      if d.status.Some? && ParseStatus(d.status.value).None? then Some(NotInEnum(path, d.status.value)) else None
    case ExpiresAt => if d.expiresAt.Some? then None else Some(Missing(path))
  }

  /** The errors of `paths`, in order. */
  function Collect(d: Doc, paths: seq<Path>): (v: seq<ValidationError>)
    ensures |v| <= |paths|
    ensures forall e :: e in v ==> e.path in paths && PathError(d, e.path) == Some(e)
    ensures forall p :: p in paths && PathError(d, p).Some? ==> PathError(d, p).value in v
    ensures (forall i, j :: 0 <= i < j < |paths| ==> paths[i] != paths[j]) ==>
              forall i, j :: 0 <= i < j < |v| ==> v[i].path != v[j].path
    decreases |paths|
  {
    if |paths| == 0 then []
    else
      var head := match PathError(d, paths[0]) case Some(e) => [e] case None => [];
      head + Collect(d, paths[1..])
  }

  /** The `errors` of the ValidationError `save` rejects `d` with: one entry
      per failing path, in schema order. */
  function Violations(d: Doc): (v: seq<ValidationError>)
    ensures |v| == 0 <==> Valid(d)
  {
    var v := Collect(d, SchemaPaths);
    if Valid(d) then
      ValidHasNoPathError(d);
      v
    else
      var p := FailingPath(d);
      AllPathsListed();
      assert PathError(d, p).value in v;
      v
  }

  /** Each entry is the error of its own path. */
  lemma ViolationsSound(d: Doc)
    ensures forall e :: e in Violations(d) ==> PathError(d, e.path) == Some(e)
  {
  }

  /** The errors are exactly the failing paths' errors: each entry is its
      path's error, and every path that fails has its entry. */
  lemma ViolationsExact(d: Doc)
    ensures forall e :: e in Violations(d) ==> PathError(d, e.path) == Some(e)
    ensures forall p: Path :: PathError(d, p).Some? ==> PathError(d, p).value in Violations(d)
  {
    AllPathsListed();
  }

  /** With the paths the caller always sets present, a document is valid
      exactly when its id, bot name, currency, address and URL pass. */
  lemma ValidityOfFilledDoc(d: Doc)
    requires RequiredString(d.telegramUserId) && d.amount.Some? && d.amountInCrypto.Some?
    requires d.status.Some? && ParseStatus(d.status.value).Some? && d.expiresAt.Some?
    ensures Valid(d) <==> RequiredString(d.paymentId) && RequiredString(d.botName) && RequiredString(d.currency)
                          && IsCurrency(d.currency.value) && RequiredString(d.address) && RequiredString(d.paymentUrl)
  {
  }

  /** The paths such a document fills all pass. */
  lemma FilledPathsPass(d: Doc)
    requires RequiredString(d.telegramUserId) && d.amount.Some? && d.amountInCrypto.Some?
    requires d.status.Some? && ParseStatus(d.status.value).Some? && d.expiresAt.Some?
    ensures PathError(d, TelegramUserId).None? && PathError(d, Amount).None?
    ensures PathError(d, AmountInCrypto).None? && PathError(d, StatusPath).None? && PathError(d, ExpiresAt).None?
  {
  }

  lemma AllPathsListed()
    ensures forall p: Path :: p in SchemaPaths
  {
    forall p: Path
      ensures p in SchemaPaths
    {
      match p
      case PaymentId => assert SchemaPaths[0] == p;
      case BotName => assert SchemaPaths[1] == p;
      case TelegramUserId => assert SchemaPaths[2] == p;
      case Currency => assert SchemaPaths[3] == p;
      case Amount => assert SchemaPaths[4] == p;
      case AmountInCrypto => assert SchemaPaths[5] == p;
      case Address => assert SchemaPaths[6] == p;
      case PaymentUrl => assert SchemaPaths[7] == p;
      case StatusPath => assert SchemaPaths[8] == p;
      case ExpiresAt => assert SchemaPaths[9] == p;
    }
  }

  lemma ValidHasNoPathError(d: Doc)
    requires Valid(d)
    ensures forall p: Path :: PathError(d, p).None?
  {
  }

  /** A path that fails whenever the document is not valid. */
  function FailingPath(d: Doc): (p: Path)
    requires !Valid(d)
    ensures PathError(d, p).Some?
  {
    if !RequiredString(d.paymentId) then PaymentId
    else if !RequiredString(d.botName) then BotName
    else if !RequiredString(d.telegramUserId) then TelegramUserId
    else if !RequiredString(d.currency) || !IsCurrency(d.currency.value) then Currency
    else if d.amount.None? then Amount
    else if d.amountInCrypto.None? then AmountInCrypto
    else if !RequiredString(d.address) then Address
    else if !RequiredString(d.paymentUrl) then PaymentUrl
    else if d.status.Some? && ParseStatus(d.status.value).None? then StatusPath
    else ExpiresAt
  }

  /** The message of one validator error, from Mongoose's default templates. */
  function ErrorMessage(e: ValidationError): string {
    match e
    case Missing(path) => "Path `" + PathName(path) + "` is required."
    case NotInEnum(path, value) => "`" + value + "` is not a valid enum value for path `" + PathName(path) + "`."
  }

  /** One `path: message` entry of the ValidationError's message. */
  function Entry(e: ValidationError): string {
    PathName(e.path) + ": " + ErrorMessage(e)
  }

  function Entries(v: seq<ValidationError>): (r: seq<string>)
    ensures |r| == |v| && forall i :: 0 <= i < |v| ==> r[i] == Entry(v[i])
  {
    seq(|v|, i requires 0 <= i < |v| => Entry(v[i]))
  }

  const ValidationFailedPrefix: string := "Payment validation failed: "

  /** `err.message` of the ValidationError: every failing path with its message. */
  function ValidationMessage(v: seq<ValidationError>): (m: string)
    ensures |ValidationFailedPrefix| <= |m| && m[..|ValidationFailedPrefix|] == ValidationFailedPrefix
  {
    ValidationFailedPrefix + Join(Entries(v), ", ")
  }

  /** The message names every failing path together with its message. */
  lemma ValidationMessageNamesEvery(v: seq<ValidationError>, i: nat)
    requires i < |v|
    ensures exists k :: OccursAt(ValidationMessage(v), Entry(v[i]), k)
  {
    var parts := Entries(v);
    JoinContains(parts, ", ", i);
    var k :| OccursAt(Join(parts, ", "), parts[i], k);
    OccursAfterPrefix(ValidationFailedPrefix, Join(parts, ", "), parts[i], k);
    assert ValidationMessage(v) == ValidationFailedPrefix + Join(parts, ", ");
    assert OccursAt(ValidationMessage(v), Entry(v[i]), |ValidationFailedPrefix| + k);
  }

  /** A fresh document as `new Payment({...})` builds it: `txHash` and
      `webhookData` take their null defaults and `createdAt` is the clock. */
  function NewDoc(paymentId: Option<string>, botName: Option<string>, telegramUserId: Option<string>,
                  currency: Option<string>, amount: Option<int>, amountInCrypto: Option<int>,
                  address: Option<string>, paymentUrl: Option<string>, status: Option<string>,
                  expiresAt: Option<int>, now: int): (d: Doc)
    ensures d.txHash.None? && d.webhookData.None?
    ensures d.createdAt == now
  {
    Doc(paymentId, botName, telegramUserId, currency, amount, amountInCrypto, address, paymentUrl,
        status, None, None, expiresAt, now)
  }

  /** A stored payment loaded back as a document. */
  function Load(p: Payment): Doc {
    Doc(Some(p.paymentId), Some(p.botName), Some(p.telegramUserId), Some(p.currency), Some(p.amount),
        Some(p.amountInCrypto), Some(p.address), Some(p.paymentUrl), Some(StatusName(p.status)),
        p.txHash, p.webhookData, Some(p.expiresAt), p.createdAt)
  }

  /** `doc.save()`: validation, then the pre-save hook that sets `updatedAt`.
      An unset `status` is stored without the path and reads back as the
      default. */
  function Save(d: Doc, now: int): (r: Result<Payment, seq<ValidationError>>)
    ensures r.Ok? <==> Valid(d)
    ensures r.Err? ==> r.error == Violations(d)
    ensures r.Ok? ==> WellFormed(r.value)
    ensures r.Ok? ==> r.value.updatedAt == now && r.value.createdAt == d.createdAt
    ensures r.Ok? ==> Load(r.value) == d.(status := Some(StatusName(r.value.status)))
    ensures r.Ok? && d.status.Some? ==> StatusName(r.value.status) == d.status.value
    ensures r.Ok? && d.status.None? ==> r.value.status == DefaultStatus
  {
    if !Valid(d) then Err(Violations(d))
    else
      Ok(Payment(d.paymentId.value, d.botName.value, d.telegramUserId.value, d.currency.value,
                 d.amount.value, d.amountInCrypto.value, d.address.value, d.paymentUrl.value,
                 if d.status.Some? then ParseStatus(d.status.value).value else DefaultStatus,
                 d.txHash, d.webhookData, d.expiresAt.value, d.createdAt, now))
  }

  /** Saving a loaded payment unchanged succeeds and changes only `updatedAt`. */
  lemma SaveLoadRoundTrip(p: Payment, now: int)
    requires WellFormed(p)
    ensures Save(Load(p), now) == Ok(p.(updatedAt := now))
  {
    StatusNameParses(p.status);
    assert Valid(Load(p));
  }

  /** Saving a document with a new status keeps every other field of the
      record it was loaded from, and takes the assigned status. */
  lemma SaveWithStatus(p: Payment, s: Status, now: int)
    ensures WellFormed(p) ==> Save(Load(p).(status := Some(StatusName(s))), now) == Ok(p.(status := s, updatedAt := now))
    ensures !WellFormed(p) ==> Save(Load(p).(status := Some(StatusName(s))), now).Err?
  {
    StatusNameParses(s);
    if WellFormed(p) {
      assert Valid(Load(p).(status := Some(StatusName(s))));
    }
  }

  /** A document whose status is outside the enum never saves. */
  lemma SaveRejectsUnknownStatus(d: Doc, now: int)
    requires d.status.Some? && ParseStatus(d.status.value).None?
    ensures Save(d, now).Err?
  {
  }
}
