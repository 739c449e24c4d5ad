/** The background jobs over payments: each walks one queue and sends every entry
    through the same funnel. */
module Sweeps {
  import opened Model
  import opened Ledger
  import opened Book
  import opened Protocol
  import opened Safety
  import opened Refinement
  import opened Guarantees
  import opened Subscriptions
  import opened Sorting
  import opened Queues
  import opened Payments

  // ---- what a sweep leaves behind ------------------------------------------

  ghost predicate NewlyDelivered(db: Db, db': Db, p: PayId)
    requires p in db.payments
  {
    p in db'.payments && db'.payments[p].status.Provisioned? && !db.payments[p].status.Provisioned?
  }

  ghost predicate UserAgrees(here: Scene, u: UserId) {
    u in here.db.subs && AgreesWith(here.accounts, here.db.subs[u])
  }

  /** No payment in `done` is paid for by the user of this account. */
  ghost predicate AccountUntouched(db: Db, done: set<PayId>, id: PanelId) {
    forall q | q in db.payments && q in done :: id != PanelId(Show(db.payments[q].user))
  }

  /** From `start` to `here`, only payments in `done`, their users and their users'
      accounts moved; with the panel up, whoever was delivered has the account the
      row describes. */
  ghost predicate SweptOver(start: Scene, here: Scene, done: set<PayId>, up: bool) {
    && OnlyMoved(start.db, here.db, done)
    && (forall id | AccountUntouched(start.db, done, id) :: Lookup(here.accounts, id) == Lookup(start.accounts, id))
    && (up ==> forall q | q in start.db.payments && q in done && NewlyDelivered(start.db, here.db, q) ::
          UserAgrees(here, start.db.payments[q].user))
  }

  lemma SettlementMoves(mid: Scene, here: Scene, p: PayId, v: Verdict, outcome: FinalizeOutcome, up: bool)
    requires p in mid.db.payments && NamedRows(here.db.subs) && Settlement(mid, here, p, v, outcome, up)
    ensures OnlyMoved(mid.db, here.db, {p})
    ensures var u := mid.db.payments[p].user;
            && (forall id | id != PanelId(Show(u)) :: Lookup(here.accounts, id) == Lookup(mid.accounts, id))
            && ((here.accounts == mid.accounts && here.db.subs == mid.db.subs && !NewlyDelivered(mid.db, here.db, p))
                || (u in here.db.subs && (here.db.payments[p].status.Provisioned? ==> UserAgrees(here, u))))
    ensures up && here.db.payments[p].Settled() ==> here.db.payments[p].status.Provisioned?
  {
  }

  /** What was delivered earlier in the sweep still agrees after another settlement. */
  lemma StaysDelivered(mid: Scene, here: Scene, q: PayId, p: PayId, v: Verdict, outcome: FinalizeOutcome)
    requires p in mid.db.payments && q in mid.db.payments && NamedRows(here.db.subs)
    requires Settlement(mid, here, p, v, outcome, true) && UserAgrees(mid, mid.db.payments[q].user)
    ensures UserAgrees(here, mid.db.payments[q].user)
  {
    SettlementMoves(mid, here, p, v, outcome, true);
    var u, w := mid.db.payments[q].user, mid.db.payments[p].user;
    if u != w {
      assert Untouched(mid.db, {p}, u);
      if PanelId(Show(u)) == PanelId(Show(w)) {
        PanelIdsAreDistinct(u, w);
      }
      assert Lookup(here.accounts, PanelId(Show(u))) == Lookup(mid.accounts, PanelId(Show(u)));
    }
  }

  lemma SmallerTouchesLess(db: Db, done: set<PayId>, p: PayId, id: PanelId)
    requires AccountUntouched(db, done + {p}, id)
    ensures AccountUntouched(db, done, id) && (p in db.payments ==> id != PanelId(Show(db.payments[p].user)))
  {
    assert p in done + {p};
    assert forall q | q in done :: q in done + {p};
  }

  lemma SweepsAccumulate(start: Scene, mid: Scene, here: Scene, done: set<PayId>, p: PayId, v: Verdict,
                         outcome: FinalizeOutcome, up: bool)
    requires SweptOver(start, mid, done, up) && p in start.db.payments && p in mid.db.payments
    requires NamedRows(here.db.subs) && Settlement(mid, here, p, v, outcome, up)
    ensures SweptOver(start, here, done + {p}, up)
  {
    SettlementMoves(mid, here, p, v, outcome, up);
    MovesAccumulate(start.db, mid.db, here.db, done, p);
    forall id | AccountUntouched(start.db, done + {p}, id)
      ensures Lookup(here.accounts, id) == Lookup(start.accounts, id)
    {
      SmallerTouchesLess(start.db, done, p, id);
    }
    if up {
      forall q | q in start.db.payments && q in done + {p} && NewlyDelivered(start.db, here.db, q)
        ensures UserAgrees(here, start.db.payments[q].user)
      {
        if q != p || mid.db.payments[p].status.Provisioned? {
          StaysDelivered(mid, here, q, p, v, outcome);
        }
      }
    }
  }

  lemma BooksAccumulate(a: Accounts, b: Accounts, c: Accounts)
    requires BookGrows(a, b) && BookGrows(b, c)
    ensures BookGrows(a, c)
  {
    forall u ensures OnlyBought(Entries(a, u), Entries(c, u)) {
      var x, y, z := Entries(a, u), Entries(b, u), Entries(c, u);
      assert OnlyBought(x, y) && OnlyBought(y, z);
      assert forall i | |x| <= i < |y| :: z[i] == y[i];
    }
  }

  // ---- what a sweep adds ---------------------------------------------------

  /** Money taken, days not yet given. */
  function Owed(db: Db, u: UserId): set<Ledger.Invoice> {
    set p | p in db.payments && db.payments[p].user == u && db.payments[p].status.Paid? && db.payments[p].applied.None?
      :: Ledger.Invoice(p, db.payments[p].tariff, db.payments[p].created)
  }

  /** The account of `u` gained exactly the invoices owed to it, and the expiry
      moved by exactly their durations and the gap, if any, it had lapsed for. */
  ghost predicate GainedExactly(db: Db, db': Db, b: Accounts, b': Accounts, u: UserId) {
    var was, has := Entries(b, u), Entries(b', u);
    && was <= has && Invoices(has[|was|..]) == multiset(Owed(db, u))
    && (u in db.subs ==>
          u in db'.subs && Lapses(was) <= Lapses(has)
          && db'.subs[u].expires == db.subs[u].expires + Total(has[|was|..]) + (Lapses(has) - Lapses(was)))
  }

  lemma {:induction false} TotalsSplit(a: Ledger.Account, b: Ledger.Account)
    ensures Total(a + b) == Total(a) + Total(b)
    ensures Lapses(a) <= Lapses(a + b)
  {
    if b == [] {
      assert a + b == a;
    } else {
      var n := |b| - 1;
      TotalsSplit(a, b[..n]);
      assert (a + b)[..|a + b| - 1] == a + b[..n];
    }
  }

  /** All money taken in `db` has its days in `db'`, and nothing else moved. */
  ghost predicate DaysLanded(db: Db, db': Db) {
    && db'.payments.Keys == db.payments.Keys
    && (forall p | p in db.payments && !db.payments[p].status.Paid? :: db'.payments[p] == db.payments[p])
    && (forall p | p in db.payments && db.payments[p].status.Paid? ::
          PaymentGrows(db.payments[p], db'.payments[p]) && db'.payments[p].applied.Some?)
  }

  lemma AppliedPlusOwed(db: Db, db': Db, u: UserId)
    requires DaysLanded(db, db')
    ensures AppliedInvoices(db', u) == AppliedInvoices(db, u) + Owed(db, u)
    ensures AppliedInvoices(db, u) !! Owed(db, u)
  {
    forall x ensures x in AppliedInvoices(db', u) <==> x in AppliedInvoices(db, u) || x in Owed(db, u) {
      var p := x.pay;
      if p in db.payments && db.payments[p].user == u
         && x == Ledger.Invoice(p, db.payments[p].tariff, db.payments[p].created)
      {
        assert x in AppliedInvoices(db', u) <==> db'.payments[p].applied.Some?;
      }
    }
  }

  lemma OwedIsGained(db: Db, db': Db, b: Accounts, b': Accounts, u: UserId)
    requires Abstracts(db, b) && Sound(b) && Abstracts(db', b') && Sound(b')
    requires DaysLanded(db, db') && Entries(b, u) <= Entries(b', u)
    ensures Invoices(Entries(b', u)[|Entries(b, u)|..]) == multiset(Owed(db, u))
  {
    hide Abstracts, Sound;
    AccountHoldsAppliedOnce(db, b, u);
    AccountHoldsAppliedOnce(db', b', u);
    AppliedPlusOwed(db, db', u);
    RestOfTheAccount(Entries(b, u), Entries(b', u), AppliedInvoices(db, u), Owed(db, u));
  }

  lemma RestOfTheAccount(was: Ledger.Account, has: Ledger.Account, before: set<Ledger.Invoice>,
                         added: set<Ledger.Invoice>)
    requires was <= has && before !! added
    requires Invoices(was) == multiset(before) && Invoices(has) == multiset(before + added)
    ensures Invoices(has[|was|..]) == multiset(added)
  {
    assert has == was + has[|was|..];
    InvoicesAppend(was, has[|was|..]);
    assert Invoices(has[|was|..]) == multiset(before + added) - multiset(before);
  }

  lemma ExpiryGain(was: Ledger.Account, has: Ledger.Account)
    requires was != [] && was <= has
    ensures Lapses(was) <= Lapses(has)
    ensures Expiry(has) == Expiry(was) + Total(has[|was|..]) + (Lapses(has) - Lapses(was))
  {
    assert has == was + has[|was|..];
    TotalsSplit(was, has[|was|..]);
    DaysAreConserved(was);
    DaysAreConserved(has);
  }

  /** Everyone gets exactly what they had paid for and not received. */
  lemma SweepGains(db: Db, db': Db, now: Time, later: Time, b: Accounts, b': Accounts)
    requires Consistent(db, now, b) && Consistent(db', later, b') && BookGrows(b, b') && DaysLanded(db, db')
    ensures forall u :: GainedExactly(db, db', b, b', u)
  {
    forall u ensures GainedExactly(db, db', b, b', u) {
      assert OnlyBought(Entries(b, u), Entries(b', u));
      OwedIsGained(db, db', b, b', u);
      if u in db.subs {
        ExpiryGain(b[u], b'[u]);
      }
    }
  }

  // ---- a job in the middle of its queue ------------------------------------

  /** Where a job began, whether the panel is up, and, for the one that asks the
      provider before it reopens anything, the answers it got. */
  datatype Job = Job(start: Scene, book: Accounts, up: bool, asked: Option<PayId -> Verdict>)

  /** What the job makes of one payment. Late money is reopened and takes the normal
      path, where the provider is asked again: unless it says paid a second time, the
      row stays reopened or is closed as refused. Anything else is left closed. */
  ghost predicate EntryFinal(job: Job, p: PayId, row': Payment, v: Verdict)
    requires p in job.start.db.payments
  {
    var row := job.start.db.payments[p];
    match job.asked
    case None => RowFinal(row, row', v, job.up)
    case Some(answer) =>
      if answer(p).SaysPaid? then RowFinal(row.(status := PaymentStatus.Pending), row', v, job.up) else row' == row
  }

  /** The second answer decides over reopened money: without it the invoice is left
      open, or closed again if the provider refuses it. */
  lemma SecondAnswerDecides(job: Job, p: PayId, row': Payment, v: Verdict)
    requires p in job.start.db.payments && job.start.db.payments[p].status.Expired?
    requires job.asked.Some? && job.asked.value(p).SaysPaid? && EntryFinal(job, p, row', v)
    ensures v.SaysPaid? <==> row'.applied.Some? && row'.Settled()
    ensures v.SaysPending? || v.Unreachable? ==> row' == job.start.db.payments[p].(status := PaymentStatus.Pending)
    ensures Refuses(v) ==> row' == job.start.db.payments[p]
  {
  }

  /** A walk over a queue that has got as far as `done`: each of these payments has
      had its turn once. */
  ghost predicate Walked(job: Job, here: Scene, done: set<PayId>, says: PayId -> Verdict) {
    && SweptOver(job.start, here, done, job.up)
    && forall q | q in job.start.db.payments && q in done ::
         q in here.db.payments && EntryFinal(job, q, here.db.payments[q], says(q))
  }

  /** `list` has each delivered payment of the queue once, and nothing else. */
  ghost predicate ListsDelivered(db: Db, queue: set<PayId>, list: seq<PayId>) {
    && (forall i, j | 0 <= i < j < |list| :: list[i] != list[j])
    && (forall p :: p in list <==> p in queue && p in db.payments && db.payments[p].status.Provisioned?)
  }

  /** The list so far, extended if `p` was delivered. */
  function Extended(list: seq<PayId>, p: PayId, provisioned: bool): seq<PayId> {
    if provisioned then list + [p] else list
  }

  ghost predicate OthersStand(db: Db, mid: Db, db': Db, p: PayId) {
    forall q | q in db.payments && q != p :: q in db'.payments && q in mid.payments
           && db'.payments[q] == mid.payments[q]
  }

  lemma ListGoesOn(db: Db, mid: Db, db': Db, done: set<PayId>, list: seq<PayId>, p: PayId)
    requires ListsDelivered(mid, done, list) && p !in done && p in db'.payments && done <= db.payments.Keys
    requires OthersStand(db, mid, db', p)
    ensures ListsDelivered(db', done + {p}, Extended(list, p, db'.payments[p].status.Provisioned?))
  {
    forall i | 0 <= i < |list| ensures list[i] in done {
      assert list[i] in list;
    }
  }

  /** The job so far: consistent rows, the walk, and the list it will return. */
  ghost predicate Underway(service: PaymentService, job: Job, done: set<PayId>, list: seq<PayId>, b: Accounts)
    reads service.session, service.clock, service.server, service.subscriptions.client
  {
    && service.Steady(b) && BookGrows(job.book, b) && (job.up ==> service.subscriptions.PanelUp())
    && Walked(job, service.Now(), done, service.says)
    && ListsDelivered(service.session.work, done, list) && done <= job.start.db.payments.Keys
  }

  /** A job that starts here and now. */
  ghost function Begun(service: PaymentService, b: Accounts, asked: Option<PayId -> Verdict>): Job
    reads service.session, service.server, service.subscriptions.client, service.subscriptions.client.server
  {
    Job(service.Now(), b, service.subscriptions.PanelUp(), asked)
  }

  lemma JobBegins(service: PaymentService, b: Accounts, asked: Option<PayId -> Verdict>)
    requires service.Steady(b)
    ensures Underway(service, Begun(service, b, asked), {}, [], b)
  {
    hide Consistent;
  }

  lemma UpIsOptional(mid: Scene, here: Scene, p: PayId, v: Verdict, outcome: FinalizeOutcome, up: bool, claimed: bool)
    requires p in mid.db.payments && Settlement(mid, here, p, v, outcome, up) && (claimed ==> up)
    ensures Settlement(mid, here, p, v, outcome, claimed)
  {
  }

  /** One more settlement, of a payment that comes straight from the queue. */
  lemma WalkOn(job: Job, mid: Scene, here: Scene, done: set<PayId>, p: PayId, says: PayId -> Verdict,
               outcome: FinalizeOutcome, up: bool)
    requires job.asked.None? && Walked(job, mid, done, says) && (job.up ==> up)
    requires p in job.start.db.payments && p in mid.db.payments && p !in done
    requires NamedRows(here.db.subs) && Settlement(mid, here, p, says(p), outcome, up)
    ensures Walked(job, here, done + {p}, says) && OthersStand(job.start.db, mid.db, here.db, p)
    ensures p in here.db.payments && (outcome.Provisioned? <==> here.db.payments[p].status.Provisioned?)
  {
    UpIsOptional(mid, here, p, says(p), outcome, up, job.up);
    SweepsAccumulate(job.start, mid, here, done, p, says(p), outcome, job.up);
  }

  /** What has not had its turn is as the job found it. */
  lemma EntryIsThere(job: Job, mid: Scene, done: set<PayId>, p: PayId, says: PayId -> Verdict)
    requires Walked(job, mid, done, says) && p in job.start.db.payments && p !in done
    ensures p in mid.db.payments && mid.db.payments[p] == job.start.db.payments[p]
  {
  }

  lemma RowsAreNamed(db: Db, now: Time, b: Accounts)
    requires Consistent(db, now, b)
    ensures NamedRows(db.subs)
  {
  }

  /** One entry of a queue. */
  method FinalizeNext(service: PaymentService, p: PayId, list: seq<PayId>, ghost job: Job, ghost done: set<PayId>,
                      ghost b: Accounts)
    returns (provisioned: bool, ghost b': Accounts)
    requires Underway(service, job, done, list, b) && job.asked.None? && p in job.start.db.payments && p !in done
    modifies service.session, service.clock, service.server, service.subscriptions.client
    ensures Underway(service, job, done + {p}, Extended(list, p, provisioned), b')
    ensures service.clock.now >= old(service.clock.now)
  {
    ghost var mid, really := service.Now(), service.subscriptions.PanelUp();
    hide Consistent, Settlement, Walked, BookGrows, ListsDelivered;
    EntryIsThere(job, mid, done, p, service.says);
    var outcome;
    outcome, b' := service.CheckAndFinalize(p, None, b);
    RowsAreNamed(service.session.work, service.clock.now, b');
    BooksAccumulate(job.book, b, b');
    hide NamedRows;
    EntryWalked(job, mid, service.Now(), done, list, p, service.says, outcome, really);
    provisioned := outcome.Provisioned?;
  }

  lemma EntryWalked(job: Job, mid: Scene, here: Scene, done: set<PayId>, list: seq<PayId>, p: PayId,
                    says: PayId -> Verdict, outcome: FinalizeOutcome, up: bool)
    requires job.asked.None? && Walked(job, mid, done, says) && ListsDelivered(mid.db, done, list)
    requires p in job.start.db.payments && p in mid.db.payments && p !in done && done <= job.start.db.payments.Keys
    requires NamedRows(here.db.subs) && Settlement(mid, here, p, says(p), outcome, up) && (job.up ==> up)
    ensures Walked(job, here, done + {p}, says)
    ensures ListsDelivered(here.db, done + {p}, Extended(list, p, outcome.Provisioned?))
  {
    hide Walked, Settlement, ListsDelivered;
    WalkOn(job, mid, here, done, p, says, outcome, up);
    ListGoesOn(job.start.db, mid.db, here.db, done, list, p);
  }

  /** A commit that only gives back the locks. */
  method ReleaseLocks(service: PaymentService, list: seq<PayId>, ghost job: Job, ghost done: set<PayId>,
                      ghost b: Accounts)
    requires Underway(service, job, done, list, b)
    modifies service.session
    ensures Underway(service, job, done, list, b)
  {
    hide Consistent, Walked, ListsDelivered;
    service.session.Commit();
  }

  // ---- the poller and the watcher ------------------------------------------

  /** Advance every live invoice. */
  method PollPending(service: PaymentService, ghost b: Accounts)
    returns (delivered: seq<PayId>, ghost moment: Time, ghost b': Accounts)
    requires service.Steady(b)
    modifies service.session, service.clock, service.server, service.subscriptions.client
    ensures old(service.clock.now) <= moment <= service.clock.now
    ensures Underway(service, old(Begun(service, b, None)), Live(old(service.session.work), moment), delivered, b')
  {
    hide Consistent;
    ghost var job := Begun(service, b, None);
    var now := service.clock.Read();
    TimePasses(service.session.work, old(service.clock.now), now, b);
    JobBegins(service, b, None);
    moment, b', delivered := now, b, [];
    var rest := Live(service.session.work, now);
    ghost var queue, done := rest, {};
    hide Underway, Live;
    while rest != {}
      invariant queue == done + rest && done !! rest && moment <= service.clock.now
      invariant queue <= job.start.db.payments.Keys && Underway(service, job, done, delivered, b')
      decreases rest
    {
      var p := AnyOf(rest);
      var provisioned;
      provisioned, b' := FinalizeNext(service, p, delivered, job, done, b');
      delivered := Extended(delivered, p, provisioned);
      rest, done := rest - {p}, done + {p};
      ReleaseLocks(service, delivered, job, done, b');
    }
  }

  /** The order of the retry queue: money seen first is delivered first. */
  predicate PaidBefore(payments: map<PayId, Payment>, p: PayId, q: PayId) {
    PaidMoment(payments, p) < PaidMoment(payments, q) || (PaidMoment(payments, p) == PaidMoment(payments, q) && p < q)
  }

  function PaidMoment(payments: map<PayId, Payment>, p: PayId): Time {
    if p in payments && payments[p].paidAt.Some? then payments[p].paidAt.value else 0
  }

  ghost predicate OldestFirst(payments: map<PayId, Payment>, list: seq<PayId>) {
    forall i, j | 0 <= i < j < |list| :: PaidBefore(payments, list[i], list[j])
  }

  /** What the order is: by the moment the money was seen. */
  lemma OldestByPaidAt(payments: map<PayId, Payment>, list: seq<PayId>)
    requires OldestFirst(payments, list) && forall p | p in list :: p in payments && payments[p].paidAt.Some?
    ensures forall i, j | 0 <= i < j < |list| ::
              list[i] != list[j] && payments[list[i]].paidAt.value <= payments[list[j]].paidAt.value
  {
    assert forall i | 0 <= i < |list| :: list[i] in list;
  }

  lemma PaidIsDated(db: Db, now: Time, b: Accounts, list: seq<PayId>)
    requires Consistent(db, now, b) && forall p | p in list :: p in Awaiting(db)
    ensures forall i | 0 <= i < |list| :: list[i] in list
    ensures forall p | p in list :: p in db.payments && db.payments[p].paidAt.Some?
  {
  }

  method ListAwaiting(db: Db) returns (queue: seq<PayId>)
    ensures OldestFirst(db.payments, queue) && Members(queue) == Awaiting(db)
    ensures forall p :: p in queue <==> p in Awaiting(db)
    ensures Awaiting(db) == {} ==> queue == []
  {
    var payments := db.payments;
    queue := Sort((p: PayId, q: PayId) => PaidBefore(payments, p, q), Awaiting(db));
  }

  /** Retry payments stuck at "money taken, access not delivered". All their days
      are in afterwards, panel or no panel. With the panel up nothing stays stuck,
      and every buyer's account says what the row says; a run that finds nothing
      stuck changes nothing. */
  method FinishProvisioning(service: PaymentService, ghost b: Accounts)
    returns (delivered: seq<PayId>, ghost b': Accounts)
    requires service.Steady(b)
    modifies service.session, service.clock, service.server, service.subscriptions.client
    ensures service.clock.now >= old(service.clock.now)
    ensures Underway(service, old(Begun(service, b, None)), Awaiting(old(service.session.work)), delivered, b')
    ensures OldestFirst(old(service.session.work).payments, delivered)
    ensures forall i | 0 <= i < |delivered| ::
              delivered[i] in old(service.session.work).payments
              && old(service.session.work).payments[delivered[i]].paidAt.Some?
    ensures forall i, j | 0 <= i < j < |delivered| ::
              old(service.session.work).payments[delivered[i]].paidAt.value
              <= old(service.session.work).payments[delivered[j]].paidAt.value
    ensures forall u :: GainedExactly(old(service.session.work), service.session.work, b, b', u)
    ensures old(service.subscriptions.PanelUp()) ==> Awaiting(service.session.work) == {}
    ensures Awaiting(old(service.session.work)) == {} ==>
              service.Now() == old(service.Now()) && service.server.db == old(service.server.db) && delivered == []
  {
    ghost var job := Begun(service, b, None);
    var queue := ListAwaiting(service.session.work);
    hide Consistent, GainedExactly, Walked, OldestFirst, ListsDelivered;
    delivered, b' := WalkQueue(service, queue, b);
    FilteringKeepsOrder(job.start.db.payments, delivered, queue);
    PaidIsDated(job.start.db, old(service.clock.now), b, delivered);
    OldestByPaidAt(job.start.db.payments, delivered);
    WalkLandsDays(job, service.Now(), service.says);
    SweepGains(job.start.db, service.session.work, old(service.clock.now), service.clock.now, b, b');
  }

  /** Send the queue through the funnel in its order. */
  method WalkQueue(service: PaymentService, queue: seq<PayId>, ghost b: Accounts)
    returns (delivered: seq<PayId>, ghost b': Accounts)
    requires service.Steady(b) && (forall p | p in queue :: p in service.session.work.payments)
    requires forall i, j | 0 <= i < j < |queue| :: queue[i] != queue[j]
    modifies service.session, service.clock, service.server, service.subscriptions.client
    ensures Underway(service, old(Begun(service, b, None)), Members(queue), delivered, b')
    ensures service.clock.now >= old(service.clock.now) && Filtered(delivered, queue)
    ensures queue == [] ==> service.Now() == old(service.Now()) && service.server.db == old(service.server.db)
    ensures queue == [] ==> delivered == []
  {
    ghost var job := Begun(service, b, None);
    JobBegins(service, b, None);
    b', delivered := b, [];
    ghost var done := {};
    hide Underway, Members, Filtered;
    NothingWalked(queue);
    for i := 0 to |queue|
      invariant done == Members(queue[..i]) && Filtered(delivered, queue[..i])
      invariant Underway(service, job, done, delivered, b') && service.clock.now >= old(service.clock.now)
      invariant i == 0 ==>
                  service.Now() == old(service.Now()) && service.server.db == old(service.server.db) && delivered == []
    {
      OneMoreMember(queue, i);
      var provisioned;
      provisioned, b' := FinalizeNext(service, queue[i], delivered, job, done, b');
      FilterGoesOn(delivered, queue, i, provisioned);
      delivered := Extended(delivered, queue[i], provisioned);
      done := done + {queue[i]};
    }
    assert queue[..|queue|] == queue;
  }

  lemma NothingWalked(queue: seq<PayId>)
    ensures Members(queue[..0]) == {} && Filtered([], queue[..0])
  {
  }

  function Members(xs: seq<PayId>): set<PayId> {
    set p | p in xs
  }

  lemma OneMoreMember(xs: seq<PayId>, i: nat)
    requires i < |xs| && forall j, k | 0 <= j < k < |xs| :: xs[j] != xs[k]
    ensures xs[..i + 1] == xs[..i] + [xs[i]]
    ensures Members(xs[..i + 1]) == Members(xs[..i]) + {xs[i]} && xs[i] !in Members(xs[..i])
    ensures xs[i] in xs
  {
  }

  /** `xs` is `ys` with some entries left out. */
  ghost predicate Filtered(xs: seq<PayId>, ys: seq<PayId>) {
    if xs == [] then true
    else if ys == [] then false
    else Filtered(xs, ys[..|ys| - 1]) || (xs[|xs| - 1] == ys[|ys| - 1] && Filtered(xs[..|xs| - 1], ys[..|ys| - 1]))
  }

  lemma FilterGoesOn(xs: seq<PayId>, ys: seq<PayId>, i: nat, kept: bool)
    requires i < |ys| && Filtered(xs, ys[..i])
    ensures Filtered(Extended(xs, ys[i], kept), ys[..i + 1])
  {
    assert ys[..i + 1][..i] == ys[..i] && (xs + [ys[i]])[..|xs|] == xs;
  }

  lemma {:induction false} FilteringKeepsOrder(payments: map<PayId, Payment>, xs: seq<PayId>, ys: seq<PayId>)
    requires Filtered(xs, ys) && OldestFirst(payments, ys)
    ensures OldestFirst(payments, xs) && forall x | x in xs :: x in ys
  {
    if xs != [] {
      var n, m := |xs| - 1, |ys| - 1;
      if Filtered(xs, ys[..m]) {
        FilteringKeepsOrder(payments, xs, ys[..m]);
      } else {
        FilteringKeepsOrder(payments, xs[..n], ys[..m]);
        forall i | 0 <= i < n ensures PaidBefore(payments, xs[i], xs[n]) {
          assert xs[..n][i] in ys[..m];
          var k :| 0 <= k < m && ys[k] == xs[i];
        }
        assert xs == xs[..n] + [xs[n]];
      }
    }
  }

  lemma WalkLandsDays(job: Job, here: Scene, says: PayId -> Verdict)
    requires job.asked.None? && Walked(job, here, Awaiting(job.start.db), says)
    ensures DaysLanded(job.start.db, here.db)
    ensures job.up ==> Awaiting(here.db) == {}
  {
  }

  // ---- closing and reopening -----------------------------------------------

  /** The rows with exactly the invoices in `stale` closed. */
  function WithClosed(db: Db, stale: set<PayId>): Db {
    db.(payments := map p | p in db.payments ::
      if p in stale then db.payments[p].(status := PaymentStatus.Expired) else db.payments[p])
  }

  /** Close invoices whose time ran out, without touching paid money. */
  method ExpireStale(service: PaymentService, ghost b: Accounts) returns (expired: set<PayId>, ghost moment: Time)
    requires service.Steady(b)
    modifies service.session, service.clock
    ensures service.Steady(b) && old(service.clock.now) <= moment <= service.clock.now
    ensures expired == Stale(old(service.session.work), moment)
    ensures forall p :: p in expired <==>
              && p in old(service.session.work).payments
              && var row := old(service.session.work).payments[p];
                 row.status.Pending? && row.invoiceExpires.Some? && row.invoiceExpires.value <= moment
    ensures service.session.work == WithClosed(old(service.session.work), expired)
    ensures Stale(service.session.work, moment) == {}
  {
    hide Consistent;
    ghost var db := service.session.work;
    var now := service.clock.Read();
    TimePasses(db, old(service.clock.now), now, b);
    moment, expired := now, {};
    var rest := Stale(service.session.work, now);
    assert WithClosed(db, {}).payments == db.payments;
    while rest != {}
      invariant expired + rest == Stale(db, now) && expired !! rest
      invariant service.Wired() && service.server.db.Valid() && service.clock.now == now
      invariant service.session.work == WithClosed(db, expired) && Consistent(service.session.work, now, b)
      decreases rest
    {
      var p :| p in rest;
      ghost var before := service.session.work;
      PlainStepKeeps(before, p, before.payments[p].(status := PaymentStatus.Expired), now, b);
      var closed := service.session.MarkExpired(p);
      assert WithClosed(db, expired + {p}).payments == service.session.work.payments;
      if closed {
        expired := expired + {p};
      }
      rest := rest - {p};
    }
    service.session.Commit();
  }

  function Reopened(here: Scene, p: PayId): Scene
    requires p in here.db.payments
  {
    here.(db := here.db.(payments := here.db.payments[p := here.db.payments[p].(status := PaymentStatus.Pending)]))
  }

  /** A candidate that is left alone counts as done. */
  lemma PassBy(start: Scene, mid: Scene, done: set<PayId>, p: PayId, up: bool)
    requires SweptOver(start, mid, done, up) && p in start.db.payments && p !in done
    ensures SweptOver(start, mid, done + {p}, up)
  {
    assert OnlyMoved(mid.db, mid.db, {p});
    MovesAccumulate(start.db, mid.db, mid.db, done, p);
    forall id | AccountUntouched(start.db, done + {p}, id)
      ensures Lookup(mid.accounts, id) == Lookup(start.accounts, id)
    {
      SmallerTouchesLess(start.db, done, p, id);
    }
  }

  lemma ReopenOnTheWay(start: Scene, mid: Scene, done: set<PayId>, p: PayId, up: bool)
    requires SweptOver(start, mid, done, up) && p in start.db.payments && p in mid.db.payments && p !in done
    ensures SweptOver(start, Reopened(mid, p), done + {p}, up)
  {
    PassBy(start, mid, done, p, up);
    assert OnlyMoved(mid.db, Reopened(mid, p).db, {p});
    MovesAccumulate(start.db, mid.db, Reopened(mid, p).db, done, p);
    assert done + {p} == done + {p} + {p};
  }

  /** One more settlement, of a payment the job has just reopened. */
  lemma RescueOn(job: Job, mid: Scene, here: Scene, done: set<PayId>, p: PayId, says: PayId -> Verdict,
                 outcome: FinalizeOutcome, up: bool)
    requires job.asked.Some? && job.asked.value(p).SaysPaid? && Walked(job, mid, done, says) && (job.up ==> up)
    requires p in job.start.db.payments && p in mid.db.payments && p !in done
    requires NamedRows(here.db.subs) && Settlement(Reopened(mid, p), here, p, says(p), outcome, up)
    ensures Walked(job, here, done + {p}, says) && OthersStand(job.start.db, mid.db, here.db, p)
    ensures p in here.db.payments && (outcome.Provisioned? <==> here.db.payments[p].status.Provisioned?)
  {
    UpIsOptional(Reopened(mid, p), here, p, says(p), outcome, up, job.up);
    ReopenOnTheWay(job.start, mid, done, p, job.up);
    SweepsAccumulate(job.start, Reopened(mid, p), here, done + {p}, p, says(p), outcome, job.up);
    assert done + {p} + {p} == done + {p};
    RescuedRows(job, mid, here, done, p, says, outcome);
  }

  lemma RescuedRows(job: Job, mid: Scene, here: Scene, done: set<PayId>, p: PayId, says: PayId -> Verdict,
                    outcome: FinalizeOutcome)
    requires job.asked.Some? && job.asked.value(p).SaysPaid? && Walked(job, mid, done, says)
    requires p in job.start.db.payments && p in mid.db.payments && p !in done
    requires Settlement(Reopened(mid, p), here, p, says(p), outcome, job.up)
    ensures forall q | q in job.start.db.payments && q in done + {p} ::
              q in here.db.payments && EntryFinal(job, q, here.db.payments[q], says(q))
    ensures OthersStand(job.start.db, mid.db, here.db, p)
    ensures p in here.db.payments && (outcome.Provisioned? <==> here.db.payments[p].status.Provisioned?)
  {
    hide AccountUntouched, UserAgrees, PanelMoved, SubGrows;
    assert mid.db.payments[p] == job.start.db.payments[p];
  }

  method Reopen(service: PaymentService, p: PayId, ghost b: Accounts)
    requires service.Steady(b) && p in service.session.work.payments && service.session.work.payments[p].status.Expired?
    modifies service.session
    ensures service.Steady(b) && service.Now() == Reopened(old(service.Now()), p)
  {
    hide Consistent;
    PlainStepKeeps(service.session.work, p, Reopened(service.Now(), p).db.payments[p], service.clock.now, b);
    var reopened := service.session.Reopen(p);
    service.session.Commit();
  }

  /** Settle one late payment: reopen, commit, and run the normal path. */
  method RescueNext(service: PaymentService, p: PayId, list: seq<PayId>, ghost job: Job, ghost done: set<PayId>,
                    ghost b: Accounts)
    returns (provisioned: bool, ghost b': Accounts)
    requires Underway(service, job, done, list, b) && p in job.start.db.payments && p !in done
    requires job.asked.Some? && job.asked.value(p).SaysPaid? && job.start.db.payments[p].status.Expired?
    modifies service.session, service.clock, service.server, service.subscriptions.client
    ensures Underway(service, job, done + {p}, Extended(list, p, provisioned), b')
    ensures service.clock.now >= old(service.clock.now)
  {
    ghost var mid, really := service.Now(), service.subscriptions.PanelUp();
    hide Consistent, Settlement, Walked, BookGrows, ListsDelivered;
    EntryIsThere(job, mid, done, p, service.says);
    Reopen(service, p, b);
    var outcome;
    outcome, b' := service.CheckAndFinalize(p, None, b);
    RowsAreNamed(service.session.work, service.clock.now, b');
    BooksAccumulate(job.book, b, b');
    hide NamedRows;
    EntryRescued(job, mid, service.Now(), done, list, p, service.says, outcome, really);
    provisioned := outcome.Provisioned?;
  }

  lemma EntryRescued(job: Job, mid: Scene, here: Scene, done: set<PayId>, list: seq<PayId>, p: PayId,
                     says: PayId -> Verdict, outcome: FinalizeOutcome, up: bool)
    requires job.asked.Some? && job.asked.value(p).SaysPaid? && Walked(job, mid, done, says)
             && ListsDelivered(mid.db, done, list)
    requires p in job.start.db.payments && p in mid.db.payments && p !in done && done <= job.start.db.payments.Keys
    requires NamedRows(here.db.subs) && Settlement(Reopened(mid, p), here, p, says(p), outcome, up) && (job.up ==> up)
    ensures Walked(job, here, done + {p}, says)
    ensures ListsDelivered(here.db, done + {p}, Extended(list, p, outcome.Provisioned?))
  {
    hide Walked, Settlement, ListsDelivered;
    RescueOn(job, mid, here, done, p, says, outcome, up);
    ListGoesOn(job.start.db, mid.db, here.db, done, list, p);
  }

  /** Nothing was paid on this one: it stays closed. */
  lemma RescueSkips(service: PaymentService, job: Job, done: set<PayId>, list: seq<PayId>, b: Accounts, p: PayId)
    requires Underway(service, job, done, list, b) && p in job.start.db.payments && p !in done
    requires job.asked.Some? && !job.asked.value(p).SaysPaid? && job.start.db.payments[p].status.Expired?
    ensures Underway(service, job, done + {p}, list, b)
  {
    hide Consistent;
    PassBy(job.start, service.Now(), done, p, job.up);
    assert p in service.session.work.payments && service.session.work.payments[p] == job.start.db.payments[p];
  }

  /** One candidate: the provider is asked before anything is written. */
  method Recheck(service: PaymentService, answer: PayId -> Verdict, p: PayId, list: seq<PayId>, ghost job: Job,
                 ghost done: set<PayId>, ghost b: Accounts)
    returns (list': seq<PayId>, ghost b': Accounts)
    requires Underway(service, job, done, list, b) && job.asked == Some(answer)
    requires p in job.start.db.payments && p !in done && job.start.db.payments[p].status.Expired?
    modifies service.session, service.clock, service.server, service.subscriptions.client
    ensures Underway(service, job, done + {p}, list', b')
    ensures service.clock.now >= old(service.clock.now)
  {
    hide Underway;
    if answer(p).SaysPaid? {
      var provisioned;
      provisioned, b' := RescueNext(service, p, list, job, done, b);
      list' := Extended(list, p, provisioned);
    } else {
      RescueSkips(service, job, done, list, b, p);
      list', b' := list, b;
    }
  }

  /** Re-check recently expired invoices for money that arrived late. The provider is
      asked twice, here and in the funnel, and may answer differently. */
  method SweepLatePayments(service: PaymentService, answer: PayId -> Verdict, ghost b: Accounts)
    returns (delivered: seq<PayId>, ghost moment: Time, ghost b': Accounts)
    requires service.Steady(b)
    modifies service.session, service.clock, service.server, service.subscriptions.client
    ensures old(service.clock.now) <= moment <= service.clock.now
    ensures var queue := Late(old(service.session.work), moment - LOOKBACK, moment);
            Underway(service, old(Begun(service, b, Some(answer))), queue, delivered, b')
  {
    hide Consistent;
    ghost var job := Begun(service, b, Some(answer));
    var now := service.clock.Read();
    TimePasses(service.session.work, old(service.clock.now), now, b);
    JobBegins(service, b, Some(answer));
    moment, b', delivered := now, b, [];
    var rest := Late(service.session.work, now - LOOKBACK, now);
    ghost var queue, done := rest, {};
    assert forall p | p in queue :: p in job.start.db.payments && job.start.db.payments[p].status.Expired?;
    hide Underway, Late;
    while rest != {}
      invariant queue == done + rest && done !! rest && moment <= service.clock.now
      invariant Underway(service, job, done, delivered, b')
      decreases rest
    {
      var p := AnyOf(rest);
      delivered, b' := Recheck(service, answer, p, delivered, job, done, b');
      rest, done := rest - {p}, done + {p};
    }
  }
}
