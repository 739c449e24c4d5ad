/** Taking money and turning it into access, one job at a time. */
module Payments {
  import opened Model
  import opened Ledger
  import opened Book
  import opened Protocol
  import opened Safety
  import opened Refinement
  import opened Panel
  import opened UnitOfWork
  import opened Subscriptions

  /** The committed rows of some reachable state, with the ledger they stand for. */
  ghost predicate Consistent(db: Db, now: Time, b: Accounts) {
    DbOk(db, now) && Abstracts(db, b) && Sound(b)
  }

  lemma TimePasses(db: Db, now: Time, later: Time, b: Accounts)
    requires Consistent(db, now, b) && now <= later
    ensures Consistent(db, later, b)
  {
  }

  /** Whatever has raced, stalled and died before: the committed rows are rows a
      job may start from, with the book of exactly the grants committed so far. */
  lemma ReachableIsConsistent(s: State, b: Accounts)
    requires Reached(s, b)
    ensures Consistent(s.db, s.clock, b)
  {
    ReachedRefines(s, b);
  }

  /** The rows with the days of `p` added at `now`, latch and expiry together. */
  function WithDays(db: Db, p: PayId, now: Time): Db
    requires p in db.payments
  {
    var row := db.payments[p];
    var u := row.user;
    var sub :=
      if u in db.subs then Renew(db.subs[u], now, row.tariff, IsNewest(db, u, p))
      else NewSubscription(u, now, now + row.tariff.duration, Purchase, row.tariff.devices);
    Db(db.payments[p := row.(applied := Some(now))], db.subs[u := sub], db.users)
  }

  function InvoiceOf(db: Db, p: PayId): Ledger.Invoice
    requires p in db.payments
  {
    Ledger.Invoice(p, db.payments[p].tariff, db.payments[p].created)
  }

  function PurchaseWrites(db: Db, p: PayId, now: Time): Db
    requires p in db.payments
  {
    var row := db.payments[p];
    Db(map[p := row.(applied := Some(now))], map[row.user := WithDays(db, p, now).subs[row.user]], map[])
  }

  lemma PurchaseIsATransaction(db: Db, p: PayId, now: Time)
    requires DbOk(db, now) && IsSettled(db, p) && db.payments[p].applied.None?
    ensures var u := db.payments[p].user;
            TxOk(db, now, {UserLock(u), PayRow(p), SubRow(u)}, PurchaseWrites(db, p, now),
                 Some((u, Bought(InvoiceOf(db, p), now))))
  {
  }

  lemma PurchaseKeepsDb(db: Db, p: PayId, now: Time)
    requires DbOk(db, now) && IsSettled(db, p) && db.payments[p].applied.None?
    ensures DbOk(WithDays(db, p, now), now)
  {
    var u := db.payments[p].user;
    var held := {UserLock(u), PayRow(p), SubRow(u)};
    assert Overlay(db, PurchaseWrites(db, p, now)) == WithDays(db, p, now);
    PurchaseIsATransaction(db, p, now);
    TxKeepsDb(db, now, held, PurchaseWrites(db, p, now), Some((u, Bought(InvoiceOf(db, p), now))));
  }

  lemma PurchaseSimulates(db: Db, p: PayId, now: Time, b: Accounts)
    requires DbOk(db, now) && Abstracts(db, b) && IsSettled(db, p) && db.payments[p].applied.None?
    ensures var u, e := db.payments[p].user, Bought(InvoiceOf(db, p), now);
            MayCredit(b, u, e) && Abstracts(WithDays(db, p, now), Credit(b, u, e))
  {
    var u := db.payments[p].user;
    var held := {UserLock(u), PayRow(p), SubRow(u)};
    assert Overlay(db, PurchaseWrites(db, p, now)) == WithDays(db, p, now);
    PurchaseIsATransaction(db, p, now);
    CreditSimulates(db, now, held, PurchaseWrites(db, p, now), b, u, Bought(InvoiceOf(db, p), now));
  }

  /** One atomic step of the ledger. */
  lemma DaysAreCredited(db: Db, p: PayId, now: Time, b: Accounts)
    requires Consistent(db, now, b) && IsSettled(db, p) && db.payments[p].applied.None?
    ensures var u, e := db.payments[p].user, Bought(InvoiceOf(db, p), now);
            && MayCredit(b, u, e) && Consistent(WithDays(db, p, now), now, Credit(b, u, e))
  {
    PurchaseKeepsDb(db, p, now);
    PurchaseSimulates(db, p, now, b);
    AtomicStepKeepsSound(b, Credit(b, db.payments[p].user, Bought(InvoiceOf(db, p), now)));
  }

  /** A payment transition that touches no subscription leaves the ledger alone. */
  lemma PlainStepKeeps(db: Db, p: PayId, row: Payment, now: Time, b: Accounts)
    requires Consistent(db, now, b) && p in db.payments && PlainPayment(db.payments[p], row)
    ensures Consistent(db.(payments := db.payments[p := row]), now, b)
  {
    var writes := NOTHING.(payments := map[p := row]);
    assert Overlay(db, writes) == db.(payments := db.payments[p := row]);
    assert TxOk(db, now, {PayRow(p)}, writes, None);
    TxKeepsDb(db, now, {PayRow(p)}, writes, None);
    PlainTxKeepsFacts(db, now, {PayRow(p)}, writes);
    SameFactsSimulate(db, Overlay(db, writes), b);
  }

  /** Neither does telling a row what the panel answered. */
  lemma PlainSaveKeeps(db: Db, u: UserId, row: Subscription, now: Time, b: Accounts)
    requires Consistent(db, now, b) && u in db.subs && PlainSub(db.subs[u], row, now)
    ensures Consistent(db.(subs := db.subs[u := row]), now, b)
  {
    var writes := NOTHING.(subs := map[u := row]);
    assert Overlay(db, writes) == db.(subs := db.subs[u := row]);
    assert TxOk(db, now, {SubRow(u)}, writes, None);
    TxKeepsDb(db, now, {SubRow(u)}, writes, None);
    PlainTxKeepsFacts(db, now, {SubRow(u)}, writes);
    SameFactsSimulate(db, Overlay(db, writes), b);
  }

  /** A new invoice, before any money. */
  function FreshInvoice(u: UserId, tariff: Tariff, now: Time, ttl: nat): Payment {
    Payment(u, tariff, now, Some(now + ttl), PaymentStatus.Pending, None, None, None, None)
  }

  lemma InvoiceKeeps(db: Db, p: PayId, row: Payment, now: Time, b: Accounts)
    requires Consistent(db, now, b) && p !in db.payments
    requires row.applied.None? && row.target.None? && row.paidAt.None? && (row.status.Pending? || row.status.Expired?)
    ensures Consistent(db.(payments := db.payments[p := row]), now, b)
  {
    SameFactsSimulate(db, db.(payments := db.payments[p := row]), b);
  }

  datatype InvoiceOutcome = NotConfigured | NotIssued | Issued

  // ---- one payment ---------------------------------------------------------

  datatype FinalizeOutcome = Provisioned | PaidPendingProvisioning | NotPaid | Expired | Unknown | ProviderUnavailable

  /** The rows once the days of `p` are in, whoever put them there. */
  function Funded(db: Db, p: PayId, at: Time): Db
    requires p in db.payments
  {
    if db.payments[p].applied.Some? then db else WithDays(db, p, at)
  }

  ghost function FundedBook(db: Db, p: PayId, at: Time, b: Accounts): Accounts
    requires p in db.payments
  {
    if db.payments[p].applied.Some? then b else Credit(b, db.payments[p].user, Bought(InvoiceOf(db, p), at))
  }

  /** From `db` to `db'`, `p` was delivered as far as the panel allowed: its days
      are in, and nobody else's payment or subscription was touched. */
  ghost predicate Settles(db: Db, db': Db, p: PayId, at: Time, outcome: FinalizeOutcome)
    requires p in db.payments
  {
    var u, funded := db.payments[p].user, Funded(db, p, at);
    && db'.users == funded.users
    && db'.payments.Keys == db.payments.Keys && db'.subs.Keys == funded.subs.Keys && u in funded.subs
    && (forall q | q in db.payments && q != p :: db'.payments[q] == db.payments[q])
    && (forall v | v in funded.subs && v != u :: db'.subs[v] == funded.subs[v])
    && db'.payments[p].applied.Some? && PaymentGrows(db.payments[p], db'.payments[p])
    && (outcome.Provisioned? || outcome.PaidPendingProvisioning?)
    && (outcome.Provisioned? <==> db'.payments[p].status.Provisioned?)
    && SameAccess(funded.subs[u], db'.subs[u])
  }

  /** Nothing that decides access, and nothing the laws speak about, differs. */
  predicate SameAccess(row: Subscription, row': Subscription) {
    && row'.expires == row.expires && row'.devices == row.devices && row'.stage == row.stage
    && row'.panelId == row.panelId && row'.origin == row.origin && row'.created == row.created
  }

  /** A conversation with the panel about `u` moves no date and no limit. */
  ghost predicate Synced(db: Db, db': Db, u: UserId)
    requires u in db.subs
  {
    && db' == db.(subs := db'.subs) && db'.subs.Keys == db.subs.Keys
    && (forall v | v in db.subs && v != u :: db'.subs[v] == db.subs[v])
    && SameAccess(db.subs[u], db'.subs[u])
  }

  lemma SyncSettles(db: Db, after: Db, p: PayId, at: Time)
    requires p in db.payments && db.payments[p].status.Paid? && db.payments[p].user in Funded(db, p, at).subs
    requires Synced(Funded(db, p, at), after, db.payments[p].user)
    ensures Settles(db, after, p, at, PaidPendingProvisioning)
    ensures forall now ::
              var row := after.payments[p].(status := PaymentStatus.Provisioned, provisionedAt := Some(now));
              Settles(db, after.(payments := after.payments[p := row]), p, at, FinalizeOutcome.Provisioned)
  {
  }

  type Holdings = map<PanelId, Panel.Account>

  /** Only the account of `row` moved, and if the call succeeded it says what the row says. */
  ghost predicate PanelMoved(before: Holdings, after: Holdings, row: Subscription, done: bool) {
    && (forall id | id != row.panelId :: Lookup(after, id) == Lookup(before, id))
    && (done ==> AgreesWith(after, row))
  }

  /** The panel holds what the row says. */
  ghost predicate AgreesWith(accounts: Holdings, row: Subscription) {
    row.panelId in accounts && Agrees(accounts[row.panelId], row)
  }

  /** The account is as the row asks, and the row knows when it last was. */
  ghost predicate Served(row: Subscription, accounts: Holdings) {
    && row.panelId in accounts && row.synced.Some?
    && accounts[row.panelId].expires == Some(row.expires) && accounts[row.panelId].devices == row.devices
  }

  /** A row that had no token has one now: it is active and its account's token is its own. */
  ghost predicate MovedIn(was: Option<Subscription>, row: Subscription, accounts: Holdings) {
    && Served(row, accounts) && row.status.Active? && row.token == accounts[row.panelId].token
    && row.provisionedAt.Some?
    && (was.Some? && was.value.provisionedAt.Some? ==> row.provisionedAt == was.value.provisionedAt)
  }

  /** A row that had one keeps it unless the account names another, and the account is on. */
  ghost predicate CaughtUp(was: Subscription, row: Subscription, accounts: Holdings) {
    && Served(row, accounts) && accounts[row.panelId].enabled && row.provisionedAt == was.provisionedAt
    && var token := accounts[row.panelId].token;
       row.token == if token.None? || token == Some("") then was.token else token
  }

  /** What a delivered user's row says of access, given the row the user came with and
      whether days were granted on the way. */
  ghost predicate Welcomed(was: Option<Subscription>, granted: bool, row: Subscription, accounts: Holdings) {
    if was.None? || was.value.token.None? then MovedIn(was, row, accounts)
    else CaughtUp(was.value, row, accounts) && row.status == if granted then Active else was.value.status
  }

  /** And what it says when the panel could not be reached. */
  ghost predicate LeftWaiting(was: Option<Subscription>, granted: bool, row: Subscription) {
    match was
    case None => row.status.Pending? && row.token.None? && row.provisionedAt.None? && row.synced.None?
    case Some(it) =>
      && row.token == it.token && row.provisionedAt == it.provisionedAt && row.synced == it.synced
      && row.status == if granted then Active else it.status
  }

  lemma ProvisionMovesIn(row: Subscription, before: Holdings, now: Time)
    requires row.token.None?
    ensures var after := before[row.panelId := Matched(Lookup(before, row.panelId), row)];
            var row' := AfterProvision(row, after[row.panelId].token, now);
            && Welcomed(Some(row), false, row', after) && SameAccess(row, row') && PlainSub(row, row', now)
            && PanelMoved(before, after, row', true)
  {
  }

  lemma PushCatchesUp(row: Subscription, before: Holdings, now: Time)
    requires row.token.Some?
    ensures var after := before[row.panelId := Rewritten(Lookup(before, row.panelId), row)];
            var row' := AfterPush(row, after[row.panelId].token, now);
            && Welcomed(Some(row), false, row', after) && SameAccess(row, row') && PlainSub(row, row', now)
            && PanelMoved(before, after, row', true)
  {
  }

  function RowOf(db: Db, u: UserId): Option<Subscription> {
    if u in db.subs then Some(db.subs[u]) else None
  }

  lemma FundedRow(db: Db, p: PayId, at: Time)
    requires p in db.payments && db.payments[p].user in Funded(db, p, at).subs
    ensures var u, granted := db.payments[p].user, db.payments[p].applied.None?;
            var was, row := RowOf(db, u), Funded(db, p, at).subs[u];
            && LeftWaiting(was, granted, row)
            && forall row', accounts | Welcomed(Some(row), false, row', accounts) ::
                 Welcomed(was, granted, row', accounts)
  {
  }

  /** pending -> paid with the projected target. */
  function MarkedPaid(db: Db, p: PayId, now: Time): Db
    requires p in db.payments
  {
    var row := db.payments[p];
    var base := if row.user in db.subs then Max(now, db.subs[row.user].expires) else now;
    var target := base + row.tariff.duration;
    WithPayment(db, p, row.(status := Paid, paidAt := Some(now), target := Some(target)))
  }

  /** The projection is honest: if nothing else lands in between, applying the days at
      the moment the money was seen gives the row exactly the target. */
  lemma TargetIsProjected(db: Db, p: PayId, now: Time)
    requires p in db.payments
    ensures var u, mid := db.payments[p].user, MarkedPaid(db, p, now);
            && mid.payments[p].target == Some(WithDays(mid, p, now).subs[u].expires)
            && mid.payments[p].Settled() && mid.payments[p].paidAt == Some(now)
            && mid.payments[p].applied == db.payments[p].applied && mid.subs == db.subs
  {
  }

  predicate Refuses(v: Verdict) {
    v.SaysExpired? || v.SaysCanceled?
  }

  /** What one finalisation makes of a payment, given the provider's verdict; with
      the panel up, settled money is delivered money. */
  ghost predicate RowFinal(row: Payment, row': Payment, v: Verdict, up: bool) {
    if row.status.Paid? || (row.status.Pending? && v.SaysPaid?) then
      PaymentGrows(row, row') && row'.Settled() && row'.applied.Some? && (up ==> row'.status.Provisioned?)
    else if row.status.Pending? && (v.SaysExpired? || v.SaysCanceled?) then
      row' == row.(status := PaymentStatus.Expired)
    else row' == row
  }

  function OutcomeOf(row: Payment, row': Payment, v: Verdict): FinalizeOutcome {
    match row'.status
    case Provisioned => FinalizeOutcome.Provisioned
    case Paid => PaidPendingProvisioning
    case Expired => FinalizeOutcome.Expired
    case Canceled => FinalizeOutcome.Expired
    case Pending => if v.SaysPending? then NotPaid else ProviderUnavailable
  }

  /** The books only gained purchases. */
  ghost predicate BookGrows(b: Accounts, b': Accounts) {
    forall u :: OnlyBought(Entries(b, u), Entries(b', u))
  }

  ghost predicate OnlyBought(a: Ledger.Account, a': Ledger.Account) {
    a <= a' && forall i | |a| <= i < |a'| :: a'[i].Bought?
  }

  lemma FundedGrows(db: Db, p: PayId, at: Time, b: Accounts)
    requires p in db.payments
    ensures BookGrows(b, FundedBook(db, p, at, b))
  {
  }

  /** From `db` to `db'`, only `p` and its user's row moved, and only forward. */
  ghost predicate Finalized(db: Db, db': Db, p: PayId, v: Verdict, up: bool)
    requires p in db.payments
  {
    && OnlyMoved(db, db', {p})
    && var row, row' := db.payments[p], db'.payments[p];
       && RowFinal(row, row', v, up)
       && (row'.Settled() && !row.Settled() ==>
             row'.paidAt.Some? && row'.target == MarkedPaid(db, p, row'.paidAt.value).payments[p].target)
  }

  /** Nobody but the payments in `done` and their users moved, and no row went backwards. */
  ghost predicate OnlyMoved(db: Db, db': Db, done: set<PayId>) {
    && db'.users == db.users && db'.payments.Keys == db.payments.Keys
    && (forall q | q in db.payments && q !in done :: db'.payments[q] == db.payments[q])
    && (forall q | q in db.payments :: db'.payments[q].user == db.payments[q].user)
    && (forall u | u in db.subs :: u in db'.subs && SubGrows(db.subs[u], db'.subs[u]))
    && (forall u | u in db'.subs && Untouched(db, done, u) :: u in db.subs && db'.subs[u] == db.subs[u])
  }

  /** None of the payments in `done` is the user's. */
  ghost predicate Untouched(db: Db, done: set<PayId>, u: UserId) {
    forall q | q in db.payments && q in done :: db.payments[q].user != u
  }

  lemma MovesAccumulate(db: Db, mid: Db, db': Db, done: set<PayId>, p: PayId)
    requires OnlyMoved(db, mid, done) && OnlyMoved(mid, db', {p})
    ensures OnlyMoved(db, db', done + {p})
  {
    forall u | u in db'.subs && Untouched(db, done + {p}, u) ensures u in db.subs && db'.subs[u] == db.subs[u] {
      assert Untouched(mid, {p}, u) by {
        assert forall q | q in {p} :: q in done + {p};
      }
      assert Untouched(db, done, u) by {
        assert forall q | q in done :: q in done + {p};
      }
    }
  }

  /** The rows and the panel, at one moment. */
  datatype Scene = Scene(db: Db, accounts: Holdings)

  /** The buyer's row after a delivery that reached the panel, or did not. */
  ghost predicate Greeted(before: Scene, after: Scene, p: PayId, delivered: bool)
    requires p in before.db.payments
  {
    var u, granted := before.db.payments[p].user, before.db.payments[p].applied.None?;
    && u in after.db.subs
    && if delivered then Welcomed(RowOf(before.db, u), granted, after.db.subs[u], after.accounts)
       else LeftWaiting(RowOf(before.db, u), granted, after.db.subs[u])
  }

  /** One finalisation, on the rows and on the panel. */
  ghost predicate Settlement(before: Scene, after: Scene, p: PayId, v: Verdict, outcome: FinalizeOutcome, up: bool)
    requires p in before.db.payments
  {
    && Finalized(before.db, after.db, p, v, up)
    && var row, row' := before.db.payments[p], after.db.payments[p];
       && outcome == OutcomeOf(row, row', v)
       && if row'.Settled() && !row.status.Provisioned? then
            && row.user in after.db.subs
            && PanelMoved(before.accounts, after.accounts, after.db.subs[row.user], outcome.Provisioned?)
            && Greeted(before, after, p, outcome.Provisioned?)
          else after.accounts == before.accounts && after.db.subs == before.db.subs
  }

  /** What the caller is told, from the row it asked about and the provider's word. */
  lemma OutcomesSayWhatHappened(before: Scene, after: Scene, p: PayId, v: Verdict, outcome: FinalizeOutcome, up: bool)
    requires p in before.db.payments && Settlement(before, after, p, v, outcome, up)
    ensures var row := before.db.payments[p];
            && (outcome.NotPaid? <==> row.status.Pending? && v.SaysPending?)
            && (outcome.ProviderUnavailable? <==> row.status.Pending? && v.Unreachable?)
            && (outcome.Expired? <==> row.status.Expired? || row.status.Canceled?
                                      || (row.status.Pending? && (v.SaysExpired? || v.SaysCanceled?)))
            && (outcome.Provisioned? || outcome.PaidPendingProvisioning? <==>
                  row.status.Paid? || row.status.Provisioned? || (row.status.Pending? && v.SaysPaid?))
            && (outcome.PaidPendingProvisioning? ==> !up && after.db.payments[p].status.Paid?)
            && (outcome.Provisioned? ==> after.db.payments[p].status.Provisioned?)
  {
  }

  lemma SettlingMovesOnly(db: Db, mid: Db, db': Db, p: PayId, v: Verdict, t: Time, at: Time, outcome: FinalizeOutcome)
    requires p in db.payments
    requires if db.payments[p].status.Paid? then mid == db
             else db.payments[p].status.Pending? && v.SaysPaid? && mid == MarkedPaid(db, p, t)
    requires Settles(mid, db', p, at, outcome)
    ensures OnlyMoved(db, db', {p})
  {
    var u := db.payments[p].user;
    var funded := Funded(mid, p, at);
    assert forall v | v in db.subs :: v in funded.subs && SubGrows(db.subs[v], funded.subs[v]);
    assert forall v | v in funded.subs && v != u :: v in db.subs && funded.subs[v] == db.subs[v];
  }

  lemma SettlingFinalizes(db: Db, mid: Db, db': Db, p: PayId, v: Verdict, t: Time, at: Time, outcome: FinalizeOutcome,
                          up: bool)
    requires p in db.payments
    requires if db.payments[p].status.Paid? then mid == db
             else db.payments[p].status.Pending? && v.SaysPaid? && mid == MarkedPaid(db, p, t)
    requires Settles(mid, db', p, at, outcome) && (up ==> outcome.Provisioned?)
    ensures Finalized(db, db', p, v, up) && outcome == OutcomeOf(db.payments[p], db'.payments[p], v)
    ensures db'.payments[p].Settled() && db.payments[p].user in db'.subs && db'.payments[p].user == db.payments[p].user
  {
    SettlingMovesOnly(db, mid, db', p, v, t, at, outcome);
  }

  /** A payment that is not (or no longer) waiting for money or delivery. */
  lemma StandingStill(scene: Scene, p: PayId, v: Verdict, up: bool)
    requires p in scene.db.payments && !scene.db.payments[p].status.Paid?
    requires scene.db.payments[p].status.Pending? ==> !v.SaysPaid? && !Refuses(v)
    ensures Settlement(scene, scene, p, v, OutcomeOf(scene.db.payments[p], scene.db.payments[p], v), up)
  {
  }

  lemma ClosingFinalizes(scene: Scene, p: PayId, v: Verdict, up: bool)
    requires p in scene.db.payments && scene.db.payments[p].status.Pending? && Refuses(v)
    ensures var row := scene.db.payments[p].(status := PaymentStatus.Expired);
            var db' := scene.db.(payments := scene.db.payments[p := row]);
            Settlement(scene, scene.(db := db'), p, v, FinalizeOutcome.Expired, up)
  {
  }

  class PaymentService {
    const session: Session
    const subscriptions: SubscriptionService
    const clock: Clock
    const server: Server
    /** What the provider answers about each payment while this job runs. */
    const says: PayId -> Verdict

    constructor (subscriptions: SubscriptionService, says: PayId -> Verdict)
      ensures this.subscriptions == subscriptions && this.says == says && Wired()
    {
      this.subscriptions, this.says := subscriptions, says;
      session, clock, server := subscriptions.session, subscriptions.clock, subscriptions.client.server;
    }

    ghost predicate Wired() {
      subscriptions.session == session && subscriptions.clock == clock && subscriptions.client.server == server
    }

    ghost predicate Steady(b: Accounts)
      reads session, clock, server
    {
      Wired() && session.Clean() && server.db.Valid() && Consistent(session.work, clock.now, b)
    }

    /** What the job has in front of it. */
    function Now(): Scene
      reads session, server
    {
      Scene(session.work, server.db.accounts)
    }

    /** The row goes first: a crash after the provider's answer cannot leave a
        payable link without a row. A refused invoice is closed at once, so no
        queue chases it. */
    method CreateInvoice(p: PayId, u: UserId, tariff: Tariff, ttl: nat, configured: bool, issued: bool,
                         ghost b: Accounts)
      returns (outcome: InvoiceOutcome)
      requires Steady(b) && p !in session.work.payments
      modifies session, clock
      ensures Steady(b) && clock.now >= old(clock.now)
      ensures outcome == if !configured then NotConfigured else if issued then Issued else NotIssued
      ensures outcome.NotConfigured? ==> session.work == old(session.work)
      ensures !outcome.NotConfigured? ==>
                var status := if issued then PaymentStatus.Pending else PaymentStatus.Expired;
                session.work == WithPayment(old(session.work), p,
                                            FreshInvoice(u, tariff, clock.now, ttl).(status := status))
      ensures !outcome.NotConfigured? ==>
                var row := session.work.payments[p];
                && row.user == u && row.tariff == tariff && old(clock.now) <= row.created <= clock.now
                && row.invoiceExpires == Some(row.created + ttl)
                && row.status == (if issued then PaymentStatus.Pending else PaymentStatus.Expired)
                && row.target.None? && row.paidAt.None? && row.applied.None? && row.provisionedAt.None?
    {
      hide Consistent;
      if !configured {
        return NotConfigured;
      }
      ghost var before := session.work;
      var now := clock.Read();
      TimePasses(before, old(clock.now), now, b);
      InvoiceKeeps(before, p, FreshInvoice(u, tariff, now, ttl), now, b);
      session.AddPayment(p, FreshInvoice(u, tariff, now, ttl));
      session.Commit();
      outcome := Issued;
      if !issued {
        Close(p, b);
        outcome := NotIssued;
      }
    }

    /** func.max(created_at) over the user's other applied payments. */
    method NewestAppliedCreatedAt(u: UserId, exclude: PayId) returns (newest: Option<Time>)
      ensures newest.None? <==> OthersApplied(session.work, u, exclude) == {}
      ensures newest.Some? ==>
                && (forall q | q in OthersApplied(session.work, u, exclude) ::
                    session.work.payments[q].created <= newest.value)
                && (exists q ::
                    q in OthersApplied(session.work, u, exclude) && session.work.payments[q].created == newest.value)
    {
      newest := None;
      var rest := OthersApplied(session.work, u, exclude);
      ghost var all := rest;
      while rest != {}
        invariant rest <= all && (newest.None? ==> rest == all)
        invariant newest.Some? ==>
                    && (forall q | q in all && q !in rest :: session.work.payments[q].created <= newest.value)
                    && (exists q :: q in all && session.work.payments[q].created == newest.value)
        decreases rest
      {
        var q :| q in rest;
        var created := session.work.payments[q].created;
        if newest.None? || newest.value < created {
          newest := Some(created);
        }
        rest := rest - {q};
      }
    }

    /** The subscription's side of a claim that was won. */
    method CreditDays(p: PayId, now: Time, ghost before: Db)
      requires Wired() && p in before.payments
      requires session.work == before.(payments := before.payments[p := before.payments[p].(applied := Some(now))])
      modifies session
      ensures session.work == WithDays(before, p, now) && session.committed == old(session.committed)
    {
      var payment := session.work.payments[p];
      var u := payment.user;
      if u !in session.work.subs {
        subscriptions.CreatePending(u, now, now + payment.tariff.duration, Purchase, payment.tariff.devices, false);
      } else {
        var newest := NewestAppliedCreatedAt(u, p);
        assert OthersApplied(session.work, u, p) == OthersApplied(before, u, p);
        var isNewest := newest.None? || payment.created >= newest.value;
        session.Save(u, Renew(session.work.subs[u], now, payment.tariff, isNewest));
      }
    }

    /** Add the payment's days exactly once: the claim on the latch decides, and
        days and latch are committed together. */
    method ApplyDays(p: PayId, ghost b: Accounts) returns (ghost b': Accounts)
      requires Steady(b) && IsSettled(session.work, p)
      modifies session, clock
      ensures Steady(b') && clock.now >= old(clock.now)
      ensures session.work == Funded(old(session.work), p, clock.now)
      ensures old(session.work).payments[p].user in session.work.subs
      ensures b' == FundedBook(old(session.work), p, clock.now, b) && BookGrows(b, b')
    {
      ghost var before := session.work;
      var now := clock.Read();
      TimePasses(before, old(clock.now), now, b);
      b' := FundedBook(before, p, now, b);
      FundedGrows(before, p, now, b);
      var claimed := session.MarkDaysApplied(p, now);
      if claimed {
        DaysAreCredited(before, p, now, b);
        CreditDays(p, now, before);
      }
      session.Commit();
    }

    /** Push the row, or create the account if it never had one. The caller's copy
        of the row decides which. */
    method Sync(u: UserId, ghost b: Accounts) returns (r: Outcome)
      requires Steady(b) && u in session.work.subs
      modifies session, clock, server, subscriptions.client
      ensures Steady(b) && clock.now >= old(clock.now)
      ensures Synced(old(session.work), session.work, u)
      ensures PanelMoved(old(Now()).accounts, Now().accounts, session.work.subs[u], r.Done?)
      ensures if r.Done? then Welcomed(Some(old(session.work).subs[u]), false, session.work.subs[u], Now().accounts)
              else session.work == old(session.work)
      ensures old(subscriptions.PanelUp()) ==> r.Done? && subscriptions.PanelUp()
    {
      hide Consistent, Welcomed, AfterProvision, AfterPush, Matched, Rewritten, PlainSub;
      ghost var before, accounts := session.work, server.db.accounts;
      if session.work.subs[u].token.None? {
        r := subscriptions.Provision(u);
        ProvisionMovesIn(before.subs[u], accounts, clock.now);
      } else {
        r := subscriptions.PushState(u);
        PushCatchesUp(before.subs[u], accounts, clock.now);
      }
      TimePasses(before, old(clock.now), clock.now, b);
      if r.Done? {
        PlainSaveKeeps(before, u, session.work.subs[u], clock.now, b);
      }
    }

    /** paid -> provisioned, once the panel has the row. */
    method CloseDelivery(p: PayId, ghost b: Accounts)
      requires Steady(b) && p in session.work.payments
      requires session.work.payments[p].status.Paid? && session.work.payments[p].applied.Some?
      modifies session, clock
      ensures Steady(b) && clock.now >= old(clock.now)
      ensures var row := old(session.work).payments[p];
              session.work == WithPayment(old(session.work), p,
                                          row.(status := PaymentStatus.Provisioned, provisionedAt := Some(clock.now)))
    {
      hide Consistent;
      ghost var before := session.work;
      var now := clock.Read();
      TimePasses(before, old(clock.now), now, b);
      ghost var row := before.payments[p].(status := PaymentStatus.Provisioned, provisionedAt := Some(now));
      PlainStepKeeps(before, p, row, now, b);
      var updated := session.MarkProvisioned(p, now);
      session.Commit();
    }

    /** Deliver the days of a settled payment. Safe to repeat: the days are in
        after the first call whatever the panel does, and never twice. */
    method Deliver(p: PayId, ghost b: Accounts) returns (outcome: FinalizeOutcome, ghost at: Time, ghost b': Accounts)
      requires Steady(b) && p in session.work.payments && session.work.payments[p].status.Paid?
      modifies session, clock, server, subscriptions.client
      ensures Steady(b') && old(clock.now) <= at <= clock.now
      ensures Settles(old(session.work), session.work, p, at, outcome) && b' == FundedBook(old(session.work), p, at, b)
      ensures BookGrows(b, b')
      ensures PanelMoved(old(Now()).accounts, Now().accounts,
                         session.work.subs[old(session.work).payments[p].user], outcome.Provisioned?)
      ensures Greeted(old(Now()), Now(), p, outcome.Provisioned?)
      ensures old(subscriptions.PanelUp()) ==> outcome.Provisioned? && subscriptions.PanelUp()
    {
      hide Consistent;
      var u := session.work.payments[p].user;
      ghost var before := session.work;
      b' := ApplyDays(p, b);
      at := clock.now;
      FundedRow(before, p, at);
      var r := Sync(u, b');
      SyncSettles(old(session.work), session.work, p, at);
      if r.PanelError? {
        return PaidPendingProvisioning, at, b';
      }
      CloseDelivery(p, b');
      outcome := FinalizeOutcome.Provisioned;
    }

    /** _mark_paid: the status and the projected target are frozen together. */
    method MarkPaid(p: PayId, ghost b: Accounts) returns (paid: bool)
      requires Steady(b) && p in session.work.payments
      modifies session, clock
      ensures Steady(b) && clock.now >= old(clock.now)
      ensures paid <==> old(session.work).payments[p].status.Pending?
      ensures session.work == if paid then MarkedPaid(old(session.work), p, clock.now) else old(session.work)
    {
      hide Consistent;
      ghost var before := session.work;
      var now := clock.Read();
      TimePasses(before, old(clock.now), now, b);
      var row := session.work.payments[p];
      var start := now;
      if row.user in session.work.subs && session.work.subs[row.user].expires > now {
        start := session.work.subs[row.user].expires;
      }
      if row.status.Pending? {
        PlainStepKeeps(before, p, MarkedPaid(before, p, now).payments[p], now, b);
      }
      paid := session.MarkPaid(p, now, start + row.tariff.duration);
      session.Commit();
    }

    method Close(p: PayId, ghost b: Accounts)
      requires Steady(b) && p in session.work.payments && session.work.payments[p].status.Pending?
      modifies session
      ensures Steady(b)
      ensures session.work == WithPayment(old(session.work), p,
                                          old(session.work).payments[p].(status := PaymentStatus.Expired))
    {
      hide Consistent;
      PlainStepKeeps(session.work, p, session.work.payments[p].(status := PaymentStatus.Expired), clock.now, b);
      var closed := session.MarkExpired(p);
      session.Commit();
    }

    ghost predicate Known(p: PayId, who: Option<UserId>)
      reads session
    {
      p in session.work.payments && (who.Some? ==> session.work.payments[p].user == who.value)
    }

    /** The answer for a payment that needs no delivery. */
    method Dismiss(p: PayId, ghost b: Accounts, ghost up: bool) returns (outcome: FinalizeOutcome)
      requires Steady(b) && p in session.work.payments && !session.work.payments[p].status.Paid?
      requires session.work.payments[p].status.Pending? ==> !says(p).SaysPaid?
      modifies session
      ensures Steady(b)
      ensures Settlement(old(Now()), Now(), p, says(p), outcome, up)
    {
      hide Consistent, Settlement;
      if session.work.payments[p].status.Pending? && Refuses(says(p)) {
        ClosingFinalizes(Now(), p, says(p), up);
        Close(p, b);
        return FinalizeOutcome.Expired;
      }
      StandingStill(Now(), p, says(p), up);
      match session.work.payments[p].status {
        case Provisioned => outcome := FinalizeOutcome.Provisioned;
        case Pending => outcome := if says(p).SaysPending? then NotPaid else ProviderUnavailable;
        case _ => outcome := FinalizeOutcome.Expired;
      }
    }

    /** Money that has been seen: mark it if nobody did, then deliver. */
    method Settle(p: PayId, ghost b: Accounts) returns (outcome: FinalizeOutcome, ghost b': Accounts)
      requires Steady(b) && p in session.work.payments
      requires session.work.payments[p].status.Paid? || (session.work.payments[p].status.Pending? && says(p).SaysPaid?)
      modifies session, clock, server, subscriptions.client
      ensures Steady(b') && BookGrows(b, b') && clock.now >= old(clock.now)
      ensures Settlement(old(Now()), Now(), p, says(p), outcome, old(subscriptions.PanelUp()))
      ensures old(subscriptions.PanelUp()) ==> subscriptions.PanelUp()
    {
      hide Consistent;
      ghost var before, up := session.work, subscriptions.PanelUp();
      if session.work.payments[p].status.Pending? {
        var paid := MarkPaid(p, b);
      }
      ghost var mid, t := session.work, clock.now;
      ghost var at;
      outcome, at, b' := Deliver(p, b);
      SettlingFinalizes(before, mid, session.work, p, says(p), t, at, outcome, up);
    }

    /** The single funnel from "invoice" to "access granted". A user's request
        reaches only that user's payments. */
    method CheckAndFinalize(p: PayId, who: Option<UserId>, ghost b: Accounts)
      returns (outcome: FinalizeOutcome, ghost b': Accounts)
      requires Steady(b)
      modifies session, clock, server, subscriptions.client
      ensures Steady(b') && BookGrows(b, b') && clock.now >= old(clock.now)
      ensures outcome.Unknown? <==> !old(Known(p, who))
      ensures outcome.Unknown? ==> session.work == old(session.work) && server.db == old(server.db) && b' == b
      ensures !outcome.Unknown? ==>
                Settlement(old(Now()), Now(), p, says(p), outcome, old(subscriptions.PanelUp()))
      ensures old(subscriptions.PanelUp()) ==> subscriptions.PanelUp()
    {
      hide Consistent, Finalized, PanelMoved;
      b' := b;
      if p !in session.work.payments || (who.Some? && session.work.payments[p].user != who.value) {
        return FinalizeOutcome.Unknown, b;
      }
      var status := session.work.payments[p].status;
      if status.Paid? || (status.Pending? && says(p).SaysPaid?) {
        outcome, b' := Settle(p, b);
      } else {
        outcome := Dismiss(p, b, subscriptions.PanelUp());
      }
    }
  }
}
