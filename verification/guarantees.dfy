/** The protocol's promises, each over every schedule: any number of workers, any
    interleaving, stale caches, lost answers and crashes anywhere. */
module Guarantees {
  import opened Model
  import opened Ledger
  import opened Book
  import opened Protocol
  import opened Safety
  import opened Refinement

  /** The invoices whose days are latched as applied for `u`. */
  function AppliedInvoices(db: Db, u: UserId): set<Ledger.Invoice> {
    set p | p in db.payments && db.payments[p].user == u && db.payments[p].applied.Some?
      :: Ledger.Invoice(p, db.payments[p].tariff, db.payments[p].created)
  }

  lemma AccountHoldsAppliedOnce(db: Db, b: Accounts, u: UserId)
    requires Abstracts(db, b) && Sound(b)
    ensures Invoices(Entries(b, u)) == multiset(AppliedInvoices(db, u))
  {
    var a, applied := Entries(b, u), AppliedInvoices(db, u);
    forall x ensures Invoices(a)[x] == multiset(applied)[x] {
      forall i, j | 0 <= i < j < |a| && a[i].Bought? && a[j].Bought? ensures a[i].invoice.pay != a[j].invoice.pay {
        assert Holds(b, u, i, a[i].invoice.pay) && Holds(b, u, j, a[j].invoice.pay);
      }
      InvoicesAreDistinct(a, x);
      InvoicesAreBought(a, x);
      if x in Invoices(a) {
        var i :| 0 <= i < |a| && a[i].Bought? && a[i].invoice == x;
        assert Holds(b, u, i, x.pay);
        assert x in applied;
      }
      if x in applied {
        assert IsApplied(db, x.pay);
        var i: nat :| Holds(b, u, i, x.pay);
        assert a[i].invoice == x;
      }
    }
  }

  /** Exactly once: in every reachable state a user's account holds each payment
      latched as applied once, and no other; and the expiry of the row is that
      account, so the latch and the days can never part. */
  lemma DaysLandExactlyOnce(s: State, b: Accounts, u: UserId)
    requires Reached(s, b)
    ensures Invoices(Entries(b, u)) == multiset(AppliedInvoices(s.db, u))
    ensures u in s.db.subs <==> Entries(b, u) != []
    ensures u in s.db.subs ==> s.db.subs[u].expires == Expiry(Entries(b, u))
  {
    ReachedRefines(s, b);
    AccountHoldsAppliedOnce(s.db, b, u);
  }

  // ---- conservation --------------------------------------------------------

  ghost predicate Past(b: Accounts, now: Time) {
    forall u, i | u in b && 0 <= i < |b[u]| :: b[u][i].at <= now
  }

  lemma RecordsThePast(s: State, a: Action, b: Accounts)
    requires Inv(s) && Past(b, s.clock)
    ensures Past(Record(s, a, b), s.clock)
  {
    if Record(s, a, b) != b {
      AtItsPc(s, a.worker);
      var u, e := WorkerOf(s, a.worker).credit.value.0, WorkerOf(s, a.worker).credit.value.1;
      assert e.at <= s.clock;
    }
  }

  lemma {:induction false} MomentsArePast(clock: Time, schedule: seq<Action>)
    ensures Past(RunBook(clock, schedule), Run(Start0(clock), schedule).clock)
  {
    if schedule != [] {
      var before, a := schedule[..|schedule| - 1], schedule[|schedule| - 1];
      MomentsArePast(clock, before);
      RunKeepsInv(clock, before);
      RecordsThePast(Run(Start0(clock), before), a, RunBook(clock, before));
      AdvanceKeepsInv(Run(Start0(clock), before), a);
    }
  }

  /** Conservation: opening moment, plus every duration bought, tried or granted,
      plus the gaps in which the subscription had run out. Nothing else moves it. */
  lemma ExpiryIsConserved(s: State, b: Accounts, u: UserId)
    requires Reached(s, b) && u in s.db.subs
    ensures var a := Entries(b, u);
            && a != []
            && s.db.subs[u].expires == a[0].at + Total(a) + Lapses(a)
            && a[0].at + Total(a) <= s.db.subs[u].expires <= Latest(a) + Total(a)
            && Latest(a) <= s.clock
  {
    ReachedRefines(s, b);
    var clock, schedule :| s == Run(Start0(clock), schedule) && b == RunBook(clock, schedule);
    MomentsArePast(clock, schedule);
    DaysAreConserved(Entries(b, u));
    LatestIsBounded(Entries(b, u), s.clock);
  }

  // ---- device count --------------------------------------------------------

  ghost predicate NewestApplied(db: Db, u: UserId, p: PayId) {
    && IsApplied(db, p) && db.payments[p].user == u
    && forall q | IsApplied(db, q) && db.payments[q].user == u :: db.payments[q].created <= db.payments[p].created
  }

  /** The device count is that of an applied payment no other applied payment is
      newer than, in whatever order they were applied; without one it is the default. */
  lemma DevicesFollowNewestPurchase(s: State, b: Accounts, u: UserId)
    requires Reached(s, b) && u in s.db.subs
    ensures if AppliedInvoices(s.db, u) == {} then s.db.subs[u].devices == DEFAULT_MAX_DEVICES
            else exists p :: NewestApplied(s.db, u, p) && s.db.subs[u].devices == s.db.payments[p].tariff.devices
  {
    DaysLandExactlyOnce(s, b, u);
    ReachedRefines(s, b);
    var db, a := s.db, Entries(b, u);
    if AppliedInvoices(db, u) == {} {
      forall j | 0 <= j < |a| ensures !a[j].Bought? {
        if a[j].Bought? {
          InvoicesAreBought(a, a[j].invoice);
        }
      }
      DevicesWithoutPurchase(a);
    } else {
      var y :| y in AppliedInvoices(db, u);
      assert y in Invoices(a);
      var x := NewestDecides(a);
      assert x in AppliedInvoices(db, u);
      forall q | IsApplied(db, q) && db.payments[q].user == u ensures db.payments[q].created <= x.created {
        assert Ledger.Invoice(q, db.payments[q].tariff, db.payments[q].created) in AppliedInvoices(db, u);
      }
      assert NewestApplied(db, u, x.pay);
    }
  }

  // ---- order of application ------------------------------------------------

  /** Two histories that applied the same payments to a user agree on the device
      count, whatever the order, the racing and the grants in between, unless two
      newest invoices of the same moment disagree. */
  lemma DevicesIgnoreTheSchedule(s: State, b: Accounts, s': State, b': Accounts, u: UserId)
    requires Reached(s, b) && Reached(s', b')
    requires AppliedInvoices(s.db, u) == AppliedInvoices(s'.db, u) != {}
             && NewestAgree(multiset(AppliedInvoices(s.db, u)))
    ensures u in s.db.subs && u in s'.db.subs && s.db.subs[u].devices == s'.db.subs[u].devices
  {
    DaysLandExactlyOnce(s, b, u);
    DaysLandExactlyOnce(s', b', u);
    ReachedRefines(s, b);
    ReachedRefines(s', b');
    var x :| x in AppliedInvoices(s.db, u);
    assert x in multiset(AppliedInvoices(s.db, u));
    DevicesIgnoreOrder(Entries(b, u), Entries(b', u));
  }

  /** And two histories that granted the same durations from the same first moment
      agree on the expiry, if in neither the subscription ever lapsed. */
  lemma ExpiryIgnoresTheSchedule(s: State, b: Accounts, s': State, b': Accounts, u: UserId)
    requires Reached(s, b) && Reached(s', b') && u in s.db.subs && u in s'.db.subs
    requires Entries(b, u) != [] && Entries(b', u) != [] && Entries(b, u)[0].at == Entries(b', u)[0].at
    requires multiset(Durations(Entries(b, u))) == multiset(Durations(Entries(b', u)))
    requires Lapses(Entries(b, u)) == 0 && Lapses(Entries(b', u)) == 0
    ensures s.db.subs[u].expires == s'.db.subs[u].expires
  {
    DaysLandExactlyOnce(s, b, u);
    DaysLandExactlyOnce(s', b', u);
    ExpiryIgnoresOrder(Entries(b, u), Entries(b', u));
  }

  // ---- state invariants ----------------------------------------------------

  /** Provisioned means applied, applied means settled with a subscription to show
      for it, and the target is there exactly for settled money. */
  lemma PaymentsAreConsistent(s: State, b: Accounts, p: PayId)
    requires Reached(s, b) && p in s.db.payments
    ensures var row := s.db.payments[p];
            && (row.status.Provisioned? ==> row.applied.Some?)
            && (row.applied.Some? ==> row.Settled() && row.user in s.db.subs)
            && (row.target.Some? <==> row.Settled())
  {
    ReachedRefines(s, b);
  }

  /** Neither "applied without a subscription" nor a second row for a user is ever
      reached, nor a row vanishing under a worker. */
  lemma NoWorkerEverRaises(s: State, b: Accounts, w: Wid)
    requires Reached(s, b)
    ensures !WorkerOf(s, w).pc.Raised?
  {
    ReachedRefines(s, b);
    NeverRaised(s, w);
  }

  /** A subscription called EXPIRED has really run out. */
  lemma ExpiredHasRunOut(s: State, b: Accounts, u: UserId)
    requires Reached(s, b) && u in s.db.subs && s.db.subs[u].status.Expired?
    ensures s.db.subs[u].expires <= s.clock
  {
    ReachedRefines(s, b);
  }

  /** The trial latch is spent exactly by those whose row began as a trial. */
  lemma TrialLatchIsHonest(s: State, b: Accounts, u: UserId)
    requires Reached(s, b)
    ensures (u in s.db.users && s.db.users[u].Some?) <==> (u in s.db.subs && s.db.subs[u].origin.Trial?)
  {
    ReachedRefines(s, b);
  }

  /** So the "already used" answer is never given to a registered user: whoever
      spent the latch is told about the subscription it bought. */
  lemma TrialIsNeverRefusedToTheRegistered(s: State, b: Accounts, w: Wid)
    requires Reached(s, b) && WorkerOf(s, w).pc.Latching? && WorkerOf(s, w).pc.user in s.db.users
    ensures s.db.users[WorkerOf(s, w).pc.user].None?
  {
    ReachedRefines(s, b);
    AtItsPc(s, w);
  }

  // ---- histories -----------------------------------------------------------

  lemma GrowthIsTransitive(a: Db, b: Db, c: Db)
    requires DbGrows(a, b) && DbGrows(b, c)
    ensures DbGrows(a, c)
  {
  }

  /** Between any two points of any run: settled money stays settled with the same
      target and moment, a latch stays as claimed, a delivery stays delivered, an
      expiry never decreases and no row disappears. */
  lemma {:induction false} HistoryIsNeverRewritten(clock: Time, schedule: seq<Action>, k: nat)
    requires k <= |schedule|
    ensures DbGrows(Run(Start0(clock), schedule[..k]).db, Run(Start0(clock), schedule).db)
    decreases |schedule| - k
  {
    if k == |schedule| {
      assert schedule[..k] == schedule;
    } else {
      HistoryIsNeverRewritten(clock, schedule, k + 1);
      assert schedule[..k + 1][..k] == schedule[..k];
      RunKeepsInv(clock, schedule[..k]);
      AdvanceKeepsInv(Run(Start0(clock), schedule[..k]), schedule[k]);
      GrowthIsTransitive(Run(Start0(clock), schedule[..k]).db, Run(Start0(clock), schedule[..k + 1]).db,
                         Run(Start0(clock), schedule).db);
    }
  }
}
