/** The rows the bot keeps: payments, subscriptions and the trial latch, and
    the row-level rules every writer shares. */
module Model {

  /** Microseconds, the resolution of the timestamps in the database. */
  type Time = int

  const SECOND: Time := 1_000_000
  const DAY: Time := 86_400 * SECOND

  /** What a subscription gets when nobody bought a device count. */
  const DEFAULT_MAX_DEVICES: int := 2

  type UserId = int
  type PayId = nat
  type Token = string

  /** The panel's name for an account. */
  datatype PanelId = PanelId(name: string)

  datatype Option<+T> = None | Some(value: T)

  datatype PaymentStatus = Pending | Paid | Provisioned | Expired | Canceled
  datatype SubscriptionStatus = Pending | Active | Expired | Revoked
  datatype Origin = Trial | Purchase | AdminGrant
  datatype Stage = ThreeDays | OneDay

  /** Only the two columns that decide access; neither is ever edited. */
  datatype Tariff = Tariff(duration: nat, devices: int)

  datatype Payment = Payment(
    user: UserId,
    tariff: Tariff,
    created: Time,
    invoiceExpires: Option<Time>,
    status: PaymentStatus,
    target: Option<Time>,
    paidAt: Option<Time>,
    applied: Option<Time>,
    provisionedAt: Option<Time>)
  {
    /** The money has been seen; whether it was delivered is another matter. */
    predicate Settled() {
      status.Paid? || status.Provisioned?
    }
  }

  datatype Subscription = Subscription(
    status: SubscriptionStatus,
    origin: Origin,
    created: Time,
    expires: Time,
    devices: int,
    panelId: PanelId,
    token: Option<Token>,
    provisionedAt: Option<Time>,
    synced: Option<Time>,
    stage: Option<Stage>)
  {
    /** A row that must not give access: the reconciler never repairs it. */
    predicate Closed() {
      status.Revoked? || status.Expired?
    }
  }

  /** The three tables. A user's entry is `trial_used_at`. */
  datatype Db = Db(payments: map<PayId, Payment>, subs: map<UserId, Subscription>, users: map<UserId, Option<Time>>)

  function WithPayment(db: Db, p: PayId, row: Payment): Db {
    db.(payments := db.payments[p := row])
  }

  function WithSub(db: Db, u: UserId, row: Subscription): Db {
    db.(subs := db.subs[u := row])
  }

  function Max(a: int, b: int): int {
    if a < b then b else a
  }

  function Or<T>(a: Option<T>, b: Option<T>): Option<T> {
    if a.Some? then a else b
  }

  /** A row as create_pending writes it. */
  function NewSubscription(user: UserId, now: Time, expires: Time, origin: Origin, devices: int): Subscription {
    Subscription(SubscriptionStatus.Pending, origin, now, expires, devices, PanelId(Show(user)), None, None, None, None)
  }

  /** A purchase landing on an existing row. */
  function Renew(row: Subscription, now: Time, tariff: Tariff, newest: bool): Subscription {
    row.(expires := Max(now, row.expires) + tariff.duration,
         status := Active,
         stage := None,
         devices := if newest then tariff.devices else row.devices)
  }

  /** Moves the expiry forward only, and starts the reminder cycle over. */
  function ExtendTo(row: Subscription, until: Time): Subscription {
    row.(expires := Max(row.expires, until), status := Active, stage := None)
  }

  /** What provision writes once the panel has answered. */
  function AfterProvision(row: Subscription, token: Option<Token>, now: Time): Subscription {
    row.(token := token, status := Active, provisionedAt := Or(row.provisionedAt, Some(now)), synced := Some(now))
  }

  /** What push_state writes: an absent or empty token keeps the old one. */
  function AfterPush(row: Subscription, token: Option<Token>, now: Time): Subscription {
    row.(token := if token.Some? && token.value != "" then token else row.token, synced := Some(now))
  }

  /** The reconciler's last branch: the row catches up with a healthy account. */
  function AfterSettle(row: Subscription, token: Option<Token>, enabled: bool, now: Time): Subscription {
    var heal := row.status.Pending? && enabled;
    row.(status := if heal then Active else row.status,
         provisionedAt := if heal then Or(row.provisionedAt, Some(now)) else row.provisionedAt,
         synced := Some(now),
         token := token)
  }

  function ExpireRow(row: Subscription): Subscription {
    row.(status := SubscriptionStatus.Expired, stage := None)
  }

  // ---- expiry notices ------------------------------------------------------

  function Days(stage: Stage): int {
    if stage.OneDay? then 1 else 3
  }

  /** list_expiring_between, for one row: the last day of the stage's horizon. */
  predicate Expiring(row: Subscription, now: Time, stage: Stage) {
    var end := now + Days(stage) * DAY;
    row.status.Active? && Max(now, end - DAY) <= row.expires < end
  }

  /** A trial so short that the notice would arrive with the gift. */
  predicate ShortTrial(row: Subscription, stage: Stage) {
    row.origin.Trial? && (row.expires - row.created) / DAY <= Days(stage)
  }

  // ---- panel ids: the decimal form of the Telegram id ----------------------

  function ShowNat(n: nat): string {
    if n < 10 then [DIGITS[n]] else ShowNat(n / 10) + [DIGITS[n % 10]]
  }

  const DIGITS: string := "0123456789"

  function Show(n: int): string {
    if n < 0 then "-" + ShowNat(-n) else ShowNat(n)
  }

  lemma {:induction false} ShowNatIsDigits(n: nat)
    ensures ShowNat(n) != [] && ShowNat(n)[0] != '-'
  {
    if n >= 10 {
      ShowNatIsDigits(n / 10);
    }
  }

  function Value(digits: string): int {
    if digits == "" then 0
    else Value(digits[..|digits| - 1]) * 10 + (digits[|digits| - 1] as int - '0' as int)
  }

  /** The form is decimal: digits, the first of several not a zero, worth the number. */
  lemma {:induction false} ShowNatIsDecimal(n: nat)
    ensures Value(ShowNat(n)) == n && forall c | c in ShowNat(n) :: '0' <= c <= '9'
    ensures n > 0 ==> ShowNat(n)[0] != '0'
  {
    var s := ShowNat(n);
    assert forall i: nat | i < 10 :: DIGITS[i] as int - '0' as int == i;
    if n >= 10 {
      ShowNatIsDecimal(n / 10);
      assert s[..|s| - 1] == ShowNat(n / 10);
    } else {
      assert s[..0] == "";
    }
  }

  lemma {:induction false} ShowNatInjective(m: nat, n: nat)
    requires ShowNat(m) == ShowNat(n)
    ensures m == n
  {
    var a, b := ShowNat(m), ShowNat(n);
    assert a[|a| - 1] == DIGITS[m % 10] && b[|b| - 1] == DIGITS[n % 10];
    if m >= 10 && n >= 10 {
      assert a[..|a| - 1] == ShowNat(m / 10) && b[..|b| - 1] == ShowNat(n / 10);
      ShowNatInjective(m / 10, n / 10);
    } else {
      if m >= 10 { ShowNatIsDigits(m / 10); }
      if n >= 10 { ShowNatIsDigits(n / 10); }
    }
  }

  /** Every row drives the account named after its user. */
  ghost predicate NamedRows(rows: map<UserId, Subscription>) {
    forall u | u in rows :: rows[u].panelId == PanelId(Show(u))
  }

  /** Two users never share a panel account. */
  lemma PanelIdsAreDistinct(u: UserId, v: UserId)
    requires PanelId(Show(u)) == PanelId(Show(v))
    ensures u == v
  {
    if u < 0 && v < 0 {
      assert Show(u)[1..] == ShowNat(-u) && Show(v)[1..] == ShowNat(-v);
      ShowNatInjective(-u, -v);
    } else if u >= 0 && v >= 0 {
      ShowNatInjective(u, v);
    } else {
      ShowNatIsDigits(if u < 0 then v else u);
    }
  }
}
