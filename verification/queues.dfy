/** The four job queues over payments, and why no money falls between them. */
module Queues {
  import opened Model
  import opened Protocol
  import opened Safety
  import opened Refinement
  import opened Guarantees

  /** How far back the late-payment sweep looks. */
  const LOOKBACK: Time := 7 * DAY

  /** list_pending: no row without a time to live is ever listed. */
  function Live(db: Db, now: Time): set<PayId> {
    set p | p in db.payments && db.payments[p].status.Pending? && Deadline(db.payments[p], x => x > now)
  }

  function Stale(db: Db, now: Time): set<PayId> {
    set p | p in db.payments && db.payments[p].status.Pending? && Deadline(db.payments[p], x => x <= now)
  }

  function Awaiting(db: Db): set<PayId> {
    set p | p in db.payments && db.payments[p].status.Paid?
  }

  function Late(db: Db, since: Time, until: Time): set<PayId> {
    set p | p in db.payments && db.payments[p].status.Expired? && Deadline(db.payments[p], x => since <= x < until)
  }

  /** A comparison with NULL selects nothing. */
  predicate Deadline(row: Payment, test: Time -> bool) {
    row.invoiceExpires.Some? && test(row.invoiceExpires.value)
  }

  /** The queries, by status and by the end of the invoice: what is polled runs out
      later, what is closed has run out, what is swept ran out in the past seven days. */
  lemma QueriesExactly(db: Db, now: Time, p: PayId)
    requires p in db.payments
    ensures var row := db.payments[p];
            && (p in Awaiting(db) <==> row.status.Paid?)
            && (row.invoiceExpires.None? ==>
                  p !in Live(db, now) && p !in Stale(db, now) && p !in Late(db, now - LOOKBACK, now))
            && (row.invoiceExpires.Some? ==>
                  var end := row.invoiceExpires.value;
                  && (p in Live(db, now) <==> row.status.Pending? && now < end)
                  && (p in Stale(db, now) <==> row.status.Pending? && end <= now)
                  && (p in Late(db, now - LOOKBACK, now) <==> row.status.Expired? && now - 7 * DAY <= end < now))
  {
  }

  // ---- every payment has one place -----------------------------------------

  datatype Place = Polled | Closed | Retried | Swept | NotYetLate | GivenUp

  /** The queue that will look at `p` next, or why none does. */
  ghost predicate Sits(db: Db, now: Time, p: PayId, place: Place) {
    match place
    case Polled => p in Live(db, now)
    case Closed => p in Stale(db, now)
    case Retried => p in Awaiting(db)
    case Swept => p in Late(db, now - LOOKBACK, now)
    case NotYetLate => p in db.payments && db.payments[p].status.Expired? && Deadline(db.payments[p], x => x >= now)
    case GivenUp =>
      p in db.payments && db.payments[p].status.Expired? && Deadline(db.payments[p], x => x < now - LOOKBACK)
  }

  ghost predicate HasOnePlace(db: Db, now: Time, p: PayId) {
    exists place :: Sits(db, now, p, place) && forall other | Sits(db, now, p, other) :: other == place
  }

  /** In one place exactly when undelivered money can concern the payment: it was
      paid and not delivered, or it is pending or expired with a time to live. */
  lemma OnePlaceExactly(db: Db, now: Time, p: PayId)
    requires p in db.payments
    ensures var row := db.payments[p];
            HasOnePlace(db, now, p) <==>
              row.status.Paid? || ((row.status.Pending? || row.status.Expired?) && row.invoiceExpires.Some?)
  {
    var row := db.payments[p];
    if row.status.Paid? {
      assert Sits(db, now, p, Retried);
    } else if row.invoiceExpires.Some? {
      var x := row.invoiceExpires.value;
      if row.status.Pending? {
        assert Sits(db, now, p, if x > now then Polled else Closed);
      } else if row.status.Expired? {
        assert Sits(db, now, p, if x >= now then NotYetLate else if x < now - LOOKBACK then GivenUp else Swept);
      }
    }
  }

  lemma NothingNewIsCommitted(s: State, w: Wid)
    requires Inv(s)
    ensures View(s, w).payments.Keys == s.db.payments.Keys
  {
    AtItsPc(s, w);
  }

  lemma InvoicesAlwaysExpire(s: State, a: Action, p: PayId)
    requires Inv(s) && p in Advance(s, a).db.payments && p !in s.db.payments
    ensures Advance(s, a).db.payments[p].invoiceExpires.Some?
  {
    if a.Act? && !a.choice.Crash? {
      var w, pc := a.worker, WorkerOf(s, a.worker).pc;
      if pc.Idle? {
        OnlyInvoicesAppear(s, w, a.choice, p);
      } else if pc.Committing? {
        NothingNewIsCommitted(s, w);
        CommittedDb(s, w, a.choice);
      } else {
        WorkerStep(s, w, a.choice);
      }
    }
  }

  lemma OnlyInvoicesAppear(s: State, w: Wid, c: Choice, p: PayId)
    requires Inv(s) && WorkerOf(s, w).pc.Idle? && p in Step(s, w, c).db.payments && p !in s.db.payments
    ensures Step(s, w, c).db.payments[p].invoiceExpires.Some?
  {
    NothingNewIsCommitted(s, w);
    hide Inv, Begin, View;
    if c.Start? {
      BeginAddsInvoices(s, w, c.program, p);
    }
  }

  lemma BeginAddsInvoices(s: State, w: Wid, program: Program, p: PayId)
    ensures p in Begin(s, w, program).db.payments && p !in s.db.payments ==>
              Begin(s, w, program).db.payments[p].invoiceExpires.Some?
  {
  }

  /** And every invoice the protocol ever writes has a time to live. */
  lemma {:induction false} NoMoneyFallsBetween(clock: Time, schedule: seq<Action>, p: PayId)
    requires p in Run(Start0(clock), schedule).db.payments
    ensures var s := Run(Start0(clock), schedule);
            var row := s.db.payments[p];
            && row.invoiceExpires.Some?
            && (row.status.Pending? || row.status.Paid? || row.status.Expired? ==> HasOnePlace(s.db, s.clock, p))
  {
    var before, a := schedule[..|schedule| - 1], schedule[|schedule| - 1];
    RunKeepsInv(clock, before);
    var s := Run(Start0(clock), before);
    if p in s.db.payments {
      NoMoneyFallsBetween(clock, before, p);
      AdvanceKeepsInv(s, a);
    } else {
      InvoicesAlwaysExpire(s, a, p);
    }
    OnePlaceExactly(Run(Start0(clock), schedule).db, Run(Start0(clock), schedule).clock, p);
  }

  // ---- sweeps overlap ------------------------------------------------------

  /** One late-payment sweep: the moment it read and the rows it queried. */
  datatype Sweep = Sweep(at: Time, db: Db)

  /** How many of the sweeps have `p` among their candidates. */
  function Listings(sweeps: seq<Sweep>, p: PayId): nat {
    if sweeps == [] then 0
    else Listings(sweeps[1..], p) + if p in Late(sweeps[0].db, sweeps[0].at - LOOKBACK, sweeps[0].at) then 1 else 0
  }

  ghost predicate Paced(sweeps: seq<Sweep>, gap: nat) {
    forall i | 0 < i < |sweeps| :: sweeps[i - 1].at <= sweeps[i].at <= sweeps[i - 1].at + gap
  }

  /** An invoice that runs out at `ttl` and is found EXPIRED from `delay` later on,
      by the time the expirer has surely closed it. */
  ghost predicate ClosedBy(sweeps: seq<Sweep>, p: PayId, ttl: Time, delay: nat) {
    forall i | 0 <= i < |sweeps| ::
      var Sweep(at, db) := sweeps[i];
      && p in db.payments && db.payments[p].invoiceExpires == Some(ttl)
      && (ttl + delay < at <= ttl + LOOKBACK ==> db.payments[p].status.Expired?)
  }

  /** Sweeping began before that, and goes on until the lookback is over. */
  ghost predicate Spans(sweeps: seq<Sweep>, ttl: Time, delay: nat) {
    sweeps != [] && sweeps[0].at <= ttl + delay && sweeps[|sweeps| - 1].at >= ttl + LOOKBACK
  }

  /** A sweep in the window finds the closed invoice in its queue. */
  lemma WindowIsTheQueue(sweeps: seq<Sweep>, p: PayId, ttl: Time, delay: nat, i: nat)
    requires ClosedBy(sweeps, p, ttl, delay) && i < |sweeps| && ttl + delay < sweeps[i].at <= ttl + LOOKBACK
    ensures p in Late(sweeps[i].db, sweeps[i].at - LOOKBACK, sweeps[i].at)
  {
  }

  lemma {:induction false} ListedFromInside(sweeps: seq<Sweep>, p: PayId, gap: nat, k: nat, ttl: Time, delay: nat)
    requires sweeps != [] && Paced(sweeps, gap) && gap > 0 && ClosedBy(sweeps, p, ttl, delay)
    requires ttl + delay < sweeps[0].at && sweeps[|sweeps| - 1].at >= ttl + LOOKBACK
    requires k > 0 ==> sweeps[0].at + (k - 1) * gap <= ttl + LOOKBACK
    ensures Listings(sweeps, p) >= k
  {
    if k > 0 {
      assert (k - 1) * gap >= 0;
      WindowIsTheQueue(sweeps, p, ttl, delay, 0);
    }
    if k > 1 {
      assert (k - 1) * gap == (k - 2) * gap + gap;
      assert (k - 2) * gap >= 0;
      ListedFromInside(sweeps[1..], p, gap, k - 1, ttl, delay);
    }
  }

  lemma {:induction false} ListedFromBefore(sweeps: seq<Sweep>, p: PayId, gap: nat, k: nat, ttl: Time, delay: nat)
    requires Paced(sweeps, gap) && Spans(sweeps, ttl, delay) && gap > 0 && ClosedBy(sweeps, p, ttl, delay)
    requires delay < LOOKBACK && k * gap + delay <= LOOKBACK
    ensures Listings(sweeps, p) >= k
  {
    if sweeps[1].at <= ttl + delay {
      ListedFromBefore(sweeps[1..], p, gap, k, ttl, delay);
    } else {
      assert k > 0 ==> (k - 1) * gap == k * gap - gap;
      ListedFromInside(sweeps[1..], p, gap, k, ttl, delay);
    }
  }

  lemma {:induction false} ListingsSplit(a: seq<Sweep>, b: seq<Sweep>, p: PayId)
    ensures Listings(a + b, p) == Listings(a, p) + Listings(b, p)
    ensures Listings(a, p) <= |a|
  {
    if a == [] {
      assert a + b == b;
    } else {
      ListingsSplit(a[1..], b, p);
      assert (a + b)[1..] == a[1..] + b;
    }
  }

  /** The invoice, pending until the moment by which it must be closed. */
  function Watched(ttl: Time, delay: nat, at: Time): Db {
    var status := if at <= ttl + delay then PaymentStatus.Pending else PaymentStatus.Expired;
    Db(map[0 := Payment(0, Tariff(0, 0), ttl, Some(ttl), status, None, None, None, None)], map[], map[])
  }

  /** Sweeps a full gap apart, the first at the last moment before the closing. */
  function Regular(ttl: Time, delay: nat, gap: nat, n: nat): seq<Sweep> {
    seq(n, i requires 0 <= i < n => var at := ttl + delay + i * gap; Sweep(at, Watched(ttl, delay, at)))
  }

  lemma RegularIsPaced(ttl: Time, delay: nat, gap: nat, n: nat)
    ensures Paced(Regular(ttl, delay, gap, n), gap)
  {
    var sweeps := Regular(ttl, delay, gap, n);
    forall i | 0 < i < n ensures sweeps[i - 1].at <= sweeps[i].at <= sweeps[i - 1].at + gap {
      assert i * gap == (i - 1) * gap + gap;
    }
  }

  lemma OutsideIsMissed(ttl: Time, delay: nat, at: Time)
    requires at <= ttl + delay || at > ttl + LOOKBACK
    ensures Listings([Sweep(at, Watched(ttl, delay, at))], 0) == 0
  {
    assert Listings([], 0) == 0;
  }

  lemma RegularIsWatched(ttl: Time, delay: nat, gap: nat, n: nat)
    ensures ClosedBy(Regular(ttl, delay, gap, n), 0, ttl, delay)
  {
  }

  lemma RegularMissesTheEnds(ttl: Time, delay: nat, gap: nat, k: nat)
    requires k > 0 && k * gap + delay > LOOKBACK
    ensures var sweeps := Regular(ttl, delay, gap, k + 1);
            Spans(sweeps, ttl, delay) && Listings(sweeps, 0) < k
  {
    hide Watched, Listings;
    var sweeps := Regular(ttl, delay, gap, k + 1);
    var late := ttl + delay + k * gap;
    assert sweeps[..1] == [Sweep(ttl + delay, Watched(ttl, delay, ttl + delay))];
    assert sweeps[k..] == [Sweep(late, Watched(ttl, delay, late))];
    OutsideIsMissed(ttl, delay, ttl + delay);
    OutsideIsMissed(ttl, delay, late);
    assert sweeps == sweeps[..1] + (sweeps[1..k] + sweeps[k..]);
    ListingsSplit(sweeps[..1], sweeps[1..k] + sweeps[k..], 0);
    ListingsSplit(sweeps[1..k], sweeps[k..], 0);
  }

  /** Whatever the pace allows, an invoice is looked at `k` times: exactly when `k`
      gaps and the expirer's delay fit into the lookback. A day-wide window on a
      daily job would give one look at best. */
  lemma EveryInvoiceIsSweptEnough(gap: nat, k: nat, ttl: Time, delay: nat)
    requires gap > 0 && k > 0 && delay < LOOKBACK
    ensures (forall sweeps, p | Paced(sweeps, gap) && Spans(sweeps, ttl, delay) && ClosedBy(sweeps, p, ttl, delay) ::
               Listings(sweeps, p) >= k)
            <==> k * gap + delay <= LOOKBACK
  {
    if k * gap + delay <= LOOKBACK {
      forall sweeps, p | Paced(sweeps, gap) && Spans(sweeps, ttl, delay) && ClosedBy(sweeps, p, ttl, delay)
        ensures Listings(sweeps, p) >= k
      {
        ListedFromBefore(sweeps, p, gap, k, ttl, delay);
      }
    } else {
      RegularIsPaced(ttl, delay, gap, k + 1);
      RegularIsWatched(ttl, delay, gap, k + 1);
      RegularMissesTheEnds(ttl, delay, gap, k);
    }
  }

  // ---- the sweeps of a run -------------------------------------------------

  /** The sweeps that a run makes after its first `points[0]`, `points[1]`, ... steps. */
  ghost function SweepsOf(clock: Time, schedule: seq<Action>, points: seq<nat>): seq<Sweep>
    requires forall i | 0 <= i < |points| :: points[i] <= |schedule|
  {
    seq(|points|, i requires 0 <= i < |points| =>
      var s := Run(Start0(clock), schedule[..points[i]]);
      Sweep(s.clock, s.db))
  }

  /** In any run of the protocol, whatever else happens: an invoice that is closed
      within `delay` of its end and stays closed is a candidate of `k` sweeps. */
  lemma RunsSweepEnough(clock: Time, schedule: seq<Action>, points: seq<nat>, p: PayId, gap: nat, k: nat, delay: nat)
    requires forall i | 0 <= i < |points| :: points[i] <= |schedule|
    requires forall i, j | 0 <= i < j < |points| :: points[i] <= points[j]
    requires points != [] && p in Run(Start0(clock), schedule[..points[0]]).db.payments
    requires gap > 0 && delay < LOOKBACK && k * gap + delay <= LOOKBACK && Paced(SweepsOf(clock, schedule, points), gap)
    requires var row := Run(Start0(clock), schedule[..points[0]]).db.payments[p];
             && row.invoiceExpires.Some? && Spans(SweepsOf(clock, schedule, points), row.invoiceExpires.value, delay)
             && forall i | 0 <= i < |points| ::
                  var s := Run(Start0(clock), schedule[..points[i]]);
                  row.invoiceExpires.value + delay < s.clock <= row.invoiceExpires.value + LOOKBACK
                    && p in s.db.payments ==>
                    s.db.payments[p].status.Expired?
    ensures Listings(SweepsOf(clock, schedule, points), p) >= k
  {
    var sweeps := SweepsOf(clock, schedule, points);
    var ttl := Run(Start0(clock), schedule[..points[0]]).db.payments[p].invoiceExpires.value;
    forall i | 0 <= i < |sweeps|
      ensures p in sweeps[i].db.payments && sweeps[i].db.payments[p].invoiceExpires == Some(ttl)
    {
      HistoryIsNeverRewritten(clock, schedule[..points[i]], points[0]);
      assert schedule[..points[i]][..points[0]] == schedule[..points[0]];
    }
    ListedFromBefore(sweeps, p, gap, k, ttl, delay);
  }
}
