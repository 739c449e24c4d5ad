/** The other writers of a subscription row: the trial button, the admin's grant
    and revoke, and the expiry sync. */
module Access {
  import opened Model
  import opened Ledger
  import opened Book
  import opened Protocol
  import opened Safety
  import opened Refinement
  import opened Subscriptions
  import opened Sorting
  import opened Payments

  /** The rows with `e` granted to `u`: a trial spends the latch in the same
      transaction, an admin's grant moves the date and never the device count. */
  function WithGift(db: Db, u: UserId, e: Entry): Db
    requires !e.Bought?
  {
    var row :=
      if u in db.subs then ExtendTo(db.subs[u], Max(e.at, db.subs[u].expires) + e.days)
      else NewSubscription(u, e.at, e.at + e.days, e.Origin(), DEFAULT_MAX_DEVICES);
    Db(db.payments, db.subs[u := row], if e.Tried? then db.users[u := Some(e.at)] else db.users)
  }

  /** A trial opens the account of a registered user; a grant is always possible. */
  ghost predicate MayGive(db: Db, u: UserId, e: Entry) {
    !e.Bought? && (e.Tried? ==> u !in db.subs && u in db.users && db.users[u].None?)
  }

  function GiftWrites(db: Db, u: UserId, e: Entry): Db
    requires !e.Bought?
  {
    Db(map[], map[u := WithGift(db, u, e).subs[u]], if e.Tried? then map[u := Some(e.at)] else map[])
  }

  function GiftLocks(u: UserId): set<Lock> {
    {UserLock(u), SubRow(u), UserRow(u)}
  }

  lemma GiftIsATransaction(db: Db, u: UserId, e: Entry, now: Time)
    requires DbOk(db, now) && MayGive(db, u, e) && e.at <= now
    ensures TxOk(db, now, GiftLocks(u), GiftWrites(db, u, e), Some((u, e)))
    ensures Overlay(db, GiftWrites(db, u, e)) == WithGift(db, u, e)
  {
  }

  lemma GiftKeepsDb(db: Db, u: UserId, e: Entry, now: Time)
    requires DbOk(db, now) && MayGive(db, u, e) && e.at <= now
    ensures DbOk(WithGift(db, u, e), now)
  {
    GiftIsATransaction(db, u, e, now);
    TxKeepsDb(db, now, GiftLocks(u), GiftWrites(db, u, e), Some((u, e)));
  }

  lemma GiftSimulates(db: Db, u: UserId, e: Entry, now: Time, b: Accounts)
    requires DbOk(db, now) && Abstracts(db, b) && MayGive(db, u, e) && e.at <= now
    ensures MayCredit(b, u, e) && Abstracts(WithGift(db, u, e), Credit(b, u, e))
  {
    GiftIsATransaction(db, u, e, now);
    CreditSimulates(db, now, GiftLocks(u), GiftWrites(db, u, e), b, u, e);
  }

  /** One atomic step of the ledger. */
  lemma GiftIsCredited(db: Db, u: UserId, e: Entry, now: Time, b: Accounts)
    requires Consistent(db, now, b) && MayGive(db, u, e) && e.at <= now
    ensures MayCredit(b, u, e) && Consistent(WithGift(db, u, e), now, Credit(b, u, e))
  {
    GiftKeepsDb(db, u, e, now);
    GiftSimulates(db, u, e, now, b);
    AtomicStepKeepsSound(b, Credit(b, u, e));
  }

  // ---- the trial -----------------------------------------------------------

  datatype TrialOutcome = GotTrial | AlreadyUsed | HasSubscription | PendingProvisioning

  /** An earlier trial that died before the panel answered. */
  predicate Unfinished(row: Subscription) {
    row.token.None? && row.status.Pending? && row.origin.Trial?
  }

  /** _finish: the panel hears of the row; the latch stays spent either way. */
  method Finish(service: PaymentService, u: UserId, ghost b: Accounts) returns (outcome: TrialOutcome)
    requires service.Steady(b) && u in service.session.work.subs && service.session.work.subs[u].token.None?
    modifies service.session, service.clock, service.server, service.subscriptions.client
    ensures service.Steady(b) && service.clock.now >= old(service.clock.now)
    ensures Synced(old(service.session.work), service.session.work, u)
    ensures PanelMoved(old(service.Now()).accounts, service.Now().accounts, service.session.work.subs[u],
                       outcome.GotTrial?)
    ensures if outcome.GotTrial? then
              MovedIn(RowOf(old(service.session.work), u), service.session.work.subs[u], service.Now().accounts)
            else service.session.work == old(service.session.work)
    ensures outcome.GotTrial? || outcome.PendingProvisioning?
    ensures old(service.subscriptions.PanelUp()) ==> outcome.GotTrial? && service.subscriptions.PanelUp()
  {
    hide Consistent;
    var r := service.Sync(u, b);
    outcome := if r.Done? then GotTrial else PendingProvisioning;
  }

  /** The rows once a trial of `u` exists. */
  function Opened(db: Db, u: UserId, at: Time, days: nat): Db {
    if u in db.subs then db else WithGift(db, u, Tried(at, days))
  }

  /** The latch and the row land together; whoever has a row already is told so,
      unless it is a trial of their own that never reached the panel. */
  method Grant(service: PaymentService, u: UserId, days: nat, ghost b: Accounts)
    returns (outcome: TrialOutcome, ghost at: Time, ghost b': Accounts)
    requires service.Steady(b)
    modifies service.session, service.clock, service.server, service.subscriptions.client
    ensures service.Steady(b') && old(service.clock.now) <= at <= service.clock.now
    ensures outcome.HasSubscription? <==>
              && u in old(service.session.work).subs
              && var row := old(service.session.work).subs[u];
                 row.token.Some? || !row.status.Pending? || !row.origin.Trial?
    ensures outcome.AlreadyUsed? <==> u !in old(service.session.work).subs && u !in old(service.session.work).users
    ensures outcome.HasSubscription? || outcome.AlreadyUsed? ==>
              service.session.work == old(service.session.work) && service.server.db == old(service.server.db)
    ensures b' ==
            if u !in old(service.session.work).subs && !outcome.AlreadyUsed? then Credit(b, u, Tried(at, days)) else b
    ensures outcome.GotTrial? || outcome.PendingProvisioning? ==>
              && Synced(Opened(old(service.session.work), u, at, days), service.session.work, u)
              && PanelMoved(old(service.Now()).accounts, service.Now().accounts, service.session.work.subs[u],
                            outcome.GotTrial?)
    ensures outcome.GotTrial? ==>
              MovedIn(RowOf(old(service.session.work), u), service.session.work.subs[u], service.Now().accounts)
    ensures outcome.PendingProvisioning? ==>
              && u in service.session.work.subs && service.session.work.subs[u].status.Pending?
              && service.session.work.subs[u].token.None?
    ensures outcome.GotTrial? || outcome.PendingProvisioning? ==>
              u in service.session.work.subs && service.session.work.subs[u].origin.Trial?
    ensures old(service.subscriptions.PanelUp()) ==> !outcome.PendingProvisioning? && service.subscriptions.PanelUp()
  {
    hide Consistent;
    ghost var was := service.session.work;
    at, b' := service.clock.now, b;
    if u in service.session.work.subs {
      var existing := service.session.work.subs[u];
      service.session.Commit();
      if Unfinished(existing) {
        outcome := Finish(service, u, b);
      } else {
        outcome := HasSubscription;
      }
      return;
    }
    var started := Open(service, u, days, b);
    if !started.Some? {
      outcome := AlreadyUsed;
      return;
    }
    at, b' := started.value, Credit(b, u, Tried(started.value, days));
    outcome := Finish(service, u, b');
  }

  /** Spend the latch and insert the row, in one transaction. */
  method Open(service: PaymentService, u: UserId, days: nat, ghost b: Accounts) returns (at: Option<Time>)
    requires service.Steady(b) && u !in service.session.work.subs
    modifies service.session, service.clock
    ensures at.Some? <==> u in old(service.session.work).users
    ensures at.None? ==>
              service.Steady(b) && service.session.work == old(service.session.work)
              && service.clock.now >= old(service.clock.now)
    ensures at.Some? ==>
              && service.Steady(Credit(b, u, Tried(at.value, days)))
              && service.session.work == WithGift(old(service.session.work), u, Tried(at.value, days))
              && old(service.clock.now) <= at.value == service.clock.now
  {
    ghost var was := service.session.work;
    var now := service.clock.Read();
    TimePasses(was, old(service.clock.now), now, b);
    var latched := service.session.MarkTrialUsed(u, now);
    if !latched {
      service.session.Commit();
      return None;
    }
    GiftIsCredited(was, u, Tried(now, days), now, b);
    Insert(service, u, now, days, was, Credit(b, u, Tried(now, days)));
    at := Some(now);
  }

  /** The second half of the transaction. */
  method Insert(service: PaymentService, u: UserId, now: Time, days: nat, ghost was: Db, ghost b: Accounts)
    requires service.Wired() && service.server.db.Valid() && u !in was.subs
    requires service.session.work == was.(users := was.users[u := Some(now)])
    requires Consistent(WithGift(was, u, Tried(now, days)), service.clock.now, b)
    modifies service.session
    ensures service.Steady(b) && service.session.work == WithGift(was, u, Tried(now, days))
  {
    hide Consistent;
    service.subscriptions.CreatePending(u, now, now + days, Trial, DEFAULT_MAX_DEVICES, false);
    service.session.Commit();
  }

  // ---- the admin -----------------------------------------------------------

  /** The days are committed before the panel hears of them, so they are granted
      whatever the panel answers, and granted once. */
  method HandleGrant(service: PaymentService, u: UserId, days: nat, ghost b: Accounts)
    returns (r: Outcome, ghost at: Time, ghost b': Accounts)
    requires service.Steady(b)
    modifies service.session, service.clock, service.server, service.subscriptions.client
    ensures service.Steady(b') && old(service.clock.now) <= at <= service.clock.now
    ensures b' == Credit(b, u, Granted(at, days))
    ensures Synced(WithGift(old(service.session.work), u, Granted(at, days)), service.session.work, u)
    ensures PanelMoved(old(service.Now()).accounts, service.Now().accounts, service.session.work.subs[u], r.Done?)
    ensures GrantHeard(RowOf(old(service.session.work), u), service.session.work.subs[u], service.Now().accounts, r)
    ensures old(service.subscriptions.PanelUp()) ==> r.Done? && service.subscriptions.PanelUp()
  {
    hide Consistent;
    ghost var was := service.session.work;
    var now := service.clock.Read();
    at, b' := now, Credit(b, u, Granted(now, days));
    TimePasses(was, old(service.clock.now), now, b);
    GiftIsCredited(was, u, Granted(now, days), now, b);
    if u !in service.session.work.subs {
      r := Start(service, u, now, days, b');
    } else {
      r := Prolong(service, u, Max(now, service.session.work.subs[u].expires) + days,
                   WithGift(was, u, Granted(now, days)), b');
    }
  }

  /** A first grant is provisioned; an older row is pushed as it stands, with or
      without a token. */
  ghost predicate GrantHeard(was: Option<Subscription>, row: Subscription, accounts: Holdings, r: Outcome) {
    if r.PanelError? then LeftWaiting(was, true, row)
    else if was.None? then MovedIn(None, row, accounts)
    else row.status.Active? && CaughtUp(was.value, row, accounts)
  }

  /** A grant to somebody who never had a row. */
  method Start(service: PaymentService, u: UserId, now: Time, days: nat, ghost b: Accounts) returns (r: Outcome)
    requires service.Wired() && service.server.db.Valid() && u !in service.session.work.subs
    requires Consistent(WithGift(service.session.work, u, Granted(now, days)), service.clock.now, b)
    modifies service.session, service.clock, service.server, service.subscriptions.client
    ensures service.Steady(b) && service.clock.now >= old(service.clock.now)
    ensures Synced(WithGift(old(service.session.work), u, Granted(now, days)), service.session.work, u)
    ensures PanelMoved(old(service.Now()).accounts, service.Now().accounts, service.session.work.subs[u], r.Done?)
    ensures GrantHeard(None, service.session.work.subs[u], service.Now().accounts, r)
    ensures old(service.subscriptions.PanelUp()) ==> r.Done? && service.subscriptions.PanelUp()
  {
    hide Consistent;
    service.subscriptions.CreatePending(u, now, now + days, AdminGrant, DEFAULT_MAX_DEVICES, true);
    r := service.Sync(u, b);
  }

  /** extend, seen from the ledger: the date is committed, then pushed. */
  method Prolong(service: PaymentService, u: UserId, until: Time, ghost given: Db, ghost b: Accounts)
    returns (r: Outcome)
    requires service.Wired() && service.server.db.Valid() && u in service.session.work.subs
    requires given == WithSub(service.session.work, u, ExtendTo(service.session.work.subs[u], until))
    requires Consistent(given, service.clock.now, b)
    modifies service.session, service.clock, service.server, service.subscriptions.client
    ensures service.Steady(b) && service.clock.now >= old(service.clock.now)
    ensures Synced(given, service.session.work, u)
    ensures PanelMoved(old(service.Now()).accounts, service.Now().accounts, service.session.work.subs[u], r.Done?)
    ensures GrantHeard(Some(old(service.session.work).subs[u]), service.session.work.subs[u], service.Now().accounts, r)
    ensures old(service.subscriptions.PanelUp()) ==> r.Done? && service.subscriptions.PanelUp()
  {
    hide Consistent;
    r := service.subscriptions.Extend(u, until);
    TimePasses(given, old(service.clock.now), service.clock.now, b);
    if r.Done? {
      var row := service.session.work.subs[u];
      PlainSaveKeeps(given, u, row, service.clock.now, b);
      assert given.subs[u := row] == service.session.work.subs;
    }
  }

  datatype RevokeOutcome = NoSuchUser | Revoked | PanelPending

  /** Withdrawn as far as the bot is concerned, whatever the panel answers; no
      days are touched. */
  method HandleRevoke(service: PaymentService, u: UserId, ghost b: Accounts) returns (outcome: RevokeOutcome)
    requires service.Steady(b)
    modifies service.session, service.clock, service.server, service.subscriptions.client
    ensures service.Steady(b) && service.clock.now >= old(service.clock.now)
    ensures outcome.NoSuchUser? <==> u !in old(service.session.work).subs
    ensures outcome.NoSuchUser? ==>
              service.session.work == old(service.session.work) && service.server.db == old(service.server.db)
    ensures !outcome.NoSuchUser? ==>
              && Synced(old(service.session.work), service.session.work, u)
              && service.session.work.subs[u] ==
                 old(service.session.work).subs[u].(status := SubscriptionStatus.Revoked,
                                                    synced := service.session.work.subs[u].synced)
              && (outcome.Revoked? ==> var id := service.session.work.subs[u].panelId;
                                       id in service.server.db.accounts && !service.server.db.accounts[id].enabled)
              && (forall id | id != PanelId(Show(u)) ::
                  Lookup(service.server.db.accounts, id) == Lookup(old(service.server.db).accounts, id))
    ensures old(service.subscriptions.PanelUp()) ==>
              && service.subscriptions.PanelUp()
              && (u in old(service.session.work).subs && PanelId(Show(u)) in old(service.server.db).accounts ==>
                    outcome.Revoked?)
  {
    if u !in service.session.work.subs {
      return NoSuchUser;
    }
    ghost var was := service.session.work;
    var r := service.subscriptions.Revoke(u);
    TimePasses(was, old(service.clock.now), service.clock.now, b);
    PlainSaveKeeps(was, u, service.session.work.subs[u], service.clock.now, b);
    outcome := if r.Done? then RevokeOutcome.Revoked else PanelPending;
  }

  // ---- the expiry sync -----------------------------------------------------

  function Due(db: Db, moment: Time): set<UserId> {
    set u | u in db.subs && db.subs[u].status.Active? && db.subs[u].expires <= moment
  }

  function WithExpired(db: Db, gone: set<UserId>): Db {
    db.(subs := map u | u in db.subs :: if u in gone then ExpireRow(db.subs[u]) else db.subs[u])
  }

  /** sync_expired: one conditional update per due row, one commit for all of them.
      A statement that raises leaves the transaction as it is. */
  method SyncExpired(service: PaymentService, broken: UserId -> bool, ghost b: Accounts)
    returns (raised: bool, ghost moment: Time)
    requires service.Steady(b)
    modifies service.session, service.clock
    ensures old(service.clock.now) <= moment == service.clock.now
    ensures var due := Due(old(service.session.work), moment);
            && (raised <==> exists u :: u in due && broken(u))
            && (raised ==> service.session.committed == old(service.session.committed))
            && (!raised ==> service.Steady(b) && service.session.work == WithExpired(old(service.session.work), due))
  {
    hide Consistent;
    ghost var db := service.session.work;
    var now := service.clock.Read();
    TimePasses(db, old(service.clock.now), now, b);
    moment := now;
    var rest := Due(service.session.work, now);
    ghost var done := {};
    assert WithExpired(db, {}).subs == db.subs;
    while rest != {}
      invariant done + rest == Due(db, now) && done !! rest && forall u | u in done :: !broken(u)
      invariant service.Wired() && service.server.db.Valid() && service.clock.now == now
      invariant service.session.committed == old(service.session.committed)
      invariant service.session.work == WithExpired(db, done) && Consistent(service.session.work, now, b)
      decreases rest
    {
      var u := AnyOf(rest);
      if broken(u) {
        return true, now;
      }
      PlainSaveKeeps(service.session.work, u, ExpireRow(service.session.work.subs[u]), now, b);
      var expired := service.session.MarkSubscriptionExpired(u, now);
      assert WithExpired(db, done + {u}).subs == service.session.work.subs;
      rest, done := rest - {u}, done + {u};
    }
    service.session.Commit();
    raised := false;
  }

  /** The job runner's shape: a failure rolls back, so the job is all or nothing, and
      afterwards no active row has run out unless the job failed. */
  method RunSyncExpired(service: PaymentService, broken: UserId -> bool, ghost b: Accounts)
    returns (failed: bool, ghost moment: Time)
    requires service.Steady(b)
    modifies service.session, service.clock
    ensures service.Steady(b) && old(service.clock.now) <= moment == service.clock.now
    ensures failed <==>
              exists u :: u in old(service.session.work).subs && broken(u)
                && old(service.session.work).subs[u].status.Active?
                   && old(service.session.work).subs[u].expires <= moment
    ensures failed ==> service.session.work == old(service.session.work)
    ensures !failed ==>
              && service.session.work == WithExpired(old(service.session.work), Due(old(service.session.work), moment))
              && service.session.work.subs.Keys == old(service.session.work).subs.Keys
              && (forall u | u in old(service.session.work).subs ::
                    var row, row' := old(service.session.work).subs[u], service.session.work.subs[u];
                    row' == if row.status.Active? && row.expires <= moment then
                              row.(status := SubscriptionStatus.Expired, stage := None)
                            else row)
              && Due(service.session.work, moment) == {}
  {
    ghost var db := service.session.work;
    hide Consistent;
    failed, moment := SyncExpired(service, broken, b);
    if failed {
      service.session.Rollback();
      TimePasses(db, old(service.clock.now), moment, b);
    } else {
      NobodyIsDue(db, moment);
    }
  }

  lemma NobodyIsDue(db: Db, moment: Time)
    ensures Due(WithExpired(db, Due(db, moment)), moment) == {}
  {
    var due := Due(db, moment);
    var after := WithExpired(db, due);
    forall u | u in after.subs ensures !(after.subs[u].status.Active? && after.subs[u].expires <= moment) {
      assert u in due ==> after.subs[u] == ExpireRow(db.subs[u]);
    }
  }
}
