/** The step machine implements the atomic ledger. */
module Refinement {
  import opened Model
  import opened Ledger
  import opened Book
  import opened Protocol
  import opened Safety

  /** The committed rows are exactly what the accounts say. */
  ghost predicate Abstracts(db: Db, b: Accounts) {
    && b.Keys == db.subs.Keys
    && (forall u | u in b :: AccountMatches(db.subs[u], b[u]))
    && (forall u, i: nat, p: PayId | Holds(b, u, i, p) :: EntryMatches(db, u, b[u][i], p))
    && (forall p | IsApplied(db, p) :: exists i :: Holds(b, db.payments[p].user, i, p))
  }

  ghost predicate AccountMatches(row: Subscription, a: Account) {
    a != [] && row.expires == Expiry(a) && row.devices == Devices(a) && row.origin == a[0].Origin()
  }

  ghost predicate EntryMatches(db: Db, u: UserId, e: Entry, p: PayId)
    requires e.Bought?
  {
    && p in db.payments && db.payments[p].user == u && db.payments[p].applied == Some(e.at)
    && e.invoice == Ledger.Invoice(p, db.payments[p].tariff, db.payments[p].created)
  }

  /** The only steps that move the ledger are commits that carry a credit. */
  function Record(s: State, a: Action, b: Accounts): Accounts {
    match a
    case Tick(_) => b
    case Act(w, c) =>
      var me := WorkerOf(s, w);
      if !c.Crash? && me.pc.Committing? && me.credit.Some? then Credit(b, me.credit.value.0, me.credit.value.1) else b
  }

  function RunBook(clock: Time, schedule: seq<Action>): Accounts {
    if schedule == [] then map[]
    else
      var before := schedule[..|schedule| - 1];
      Record(Run(Start0(clock), before), schedule[|schedule| - 1], RunBook(clock, before))
  }

  // ---- simulation ----------------------------------------------------------

  lemma NewestMatchesTop(db: Db, b: Accounts, u: UserId, p: PayId)
    requires Abstracts(db, b) && u in b
    requires p in db.payments && db.payments[p].applied.None?
    ensures IsNewest(db, u, p) <==> TopCreated(b[u]).None? || db.payments[p].created >= TopCreated(b[u]).value
  {
    TopIsNewest(b[u]);
    if IsNewest(db, u, p) && TopCreated(b[u]).Some? {
      var j :| 0 <= j < |b[u]| && b[u][j].Bought? && b[u][j].invoice.created == TopCreated(b[u]).value;
      var q := b[u][j].invoice.pay;
      assert Holds(b, u, j, q) && q in OthersApplied(db, u, p);
    }
    if TopCreated(b[u]).None? || db.payments[p].created >= TopCreated(b[u]).value {
      forall q | q in OthersApplied(db, u, p) ensures db.payments[q].created <= db.payments[p].created {
        var i :| Holds(b, u, i, q);
      }
    }
  }

  lemma MayBeCredited(db: Db, clock: Time, held: set<Lock>, writes: Db, b: Accounts, u: UserId, e: Entry)
    requires Abstracts(db, b) && TxOk(db, clock, held, writes, Some((u, e)))
    ensures MayCredit(b, u, e)
  {
  }

  /** The row of the transaction is the account with the entry at its end. */
  lemma RowIsAccount(db: Db, b: Accounts, u: UserId, e: Entry, row: Subscription)
    requires Abstracts(db, b)
    requires e.Bought? ==> e.invoice.pay in db.payments && db.payments[e.invoice.pay].applied.None?
                           && e.invoice == Ledger.Invoice(e.invoice.pay, db.payments[e.invoice.pay].tariff,
                                                          db.payments[e.invoice.pay].created)
    requires RowOk(db, u, e, row)
    ensures AccountMatches(row, Entries(b, u) + [e])
  {
    var a := Entries(b, u) + [e];
    assert a[..|a| - 1] == Entries(b, u);
    if u in b && e.Bought? {
      NewestMatchesTop(db, b, u, e.invoice.pay);
    }
  }

  lemma CreditedAccount(db: Db, clock: Time, held: set<Lock>, writes: Db, b: Accounts, u: UserId, e: Entry)
    requires Abstracts(db, b) && TxOk(db, clock, held, writes, Some((u, e)))
    ensures MayCredit(b, u, e)
    ensures u in Overlay(db, writes).subs && AccountMatches(Overlay(db, writes).subs[u], Entries(b, u) + [e])
  {
    hide Abstracts;
    MayBeCredited(db, clock, held, writes, b, u, e);
    RowIsAccount(db, b, u, e, if u in writes.subs then writes.subs[u] else db.subs[u]);
  }

  lemma EntriesStillMatch(db: Db, clock: Time, held: set<Lock>, writes: Db, b: Accounts, u: UserId, e: Entry)
    requires Abstracts(db, b) && TxOk(db, clock, held, writes, Some((u, e)))
    ensures forall v, i: nat, p: PayId | Holds(Credit(b, u, e), v, i, p) ::
              EntryMatches(Overlay(db, writes), v, Credit(b, u, e)[v][i], p)
  {
    hide RowOk, AccountMatches;
    var db', b' := Overlay(db, writes), Credit(b, u, e);
    forall v, i: nat, p: PayId | Holds(b', v, i, p) ensures EntryMatches(db', v, b'[v][i], p) {
      if v != u || i < |Entries(b, u)| {
        assert Holds(b, v, i, p);
      }
    }
  }

  lemma AppliedStillHeld(db: Db, clock: Time, held: set<Lock>, writes: Db, b: Accounts, u: UserId, e: Entry, p: PayId)
    requires Abstracts(db, b) && TxOk(db, clock, held, writes, Some((u, e))) && IsApplied(Overlay(db, writes), p)
    ensures exists i :: Holds(Credit(b, u, e), Overlay(db, writes).payments[p].user, i, p)
  {
    hide RowOk, AccountMatches, EntryMatches;
    var db', b' := Overlay(db, writes), Credit(b, u, e);
    if IsApplied(db, p) {
      var i :| Holds(b, db.payments[p].user, i, p);
      assert Holds(b', db.payments[p].user, i, p);
    } else {
      assert Holds(b', u, |Entries(b, u)|, p);
    }
  }

  lemma CreditSimulates(db: Db, clock: Time, held: set<Lock>, writes: Db, b: Accounts, u: UserId, e: Entry)
    requires Abstracts(db, b) && TxOk(db, clock, held, writes, Some((u, e)))
    ensures MayCredit(b, u, e) && Abstracts(Overlay(db, writes), Credit(b, u, e))
  {
    hide RowOk, EntryMatches, Holds, MayCredit, CreditOk;
    var db', b' := Overlay(db, writes), Credit(b, u, e);
    CreditedAccount(db, clock, held, writes, b, u, e);
    EntriesStillMatch(db, clock, held, writes, b, u, e);
    assert b'.Keys == db'.subs.Keys;
    forall p | IsApplied(db', p) ensures exists i :: Holds(b', db'.payments[p].user, i, p) {
      AppliedStillHeld(db, clock, held, writes, b, u, e, p);
    }
  }

  /** Nothing the ledger speaks about differs between the two. */
  ghost predicate SameFacts(a: Db, b: Db) {
    && a.subs.Keys == b.subs.Keys
    && (forall u | u in a.subs ::
          a.subs[u].expires == b.subs[u].expires && a.subs[u].devices == b.subs[u].devices
            && a.subs[u].origin == b.subs[u].origin)
    && (forall p | p in a.payments ::
          && p in b.payments && a.payments[p].user == b.payments[p].user && a.payments[p].tariff == b.payments[p].tariff
          && a.payments[p].created == b.payments[p].created && a.payments[p].applied == b.payments[p].applied)
    && (forall p | IsApplied(b, p) :: p in a.payments)
  }

  lemma SameFactsSimulate(db: Db, db': Db, b: Accounts)
    requires Abstracts(db, b) && SameFacts(db, db')
    ensures Abstracts(db', b)
  {
    forall p | IsApplied(db', p) ensures exists i :: Holds(b, db'.payments[p].user, i, p) {
      assert IsApplied(db, p);
    }
  }

  lemma PlainPaymentKeepsFacts(a: Payment, b: Payment)
    requires PlainPayment(a, b)
    ensures a.user == b.user && a.tariff == b.tariff && a.created == b.created && a.applied == b.applied
  {
  }

  lemma PlainTxKeepsFacts(db: Db, clock: Time, held: set<Lock>, writes: Db)
    requires TxOk(db, clock, held, writes, None)
    ensures SameFacts(db, Overlay(db, writes))
  {
    var db' := Overlay(db, writes);
    forall u ensures u in db.subs <==> u in db'.subs {
    }
    forall p | p in db.payments
      ensures p in db'.payments
      ensures db.payments[p].user == db'.payments[p].user && db.payments[p].tariff == db'.payments[p].tariff
      ensures db.payments[p].created == db'.payments[p].created && db.payments[p].applied == db'.payments[p].applied
    {
      if p in writes.payments {
        PlainPaymentKeepsFacts(db.payments[p], writes.payments[p]);
      }
    }
  }

  lemma CommittedDb(s: State, w: Wid, c: Choice)
    requires !c.Crash? && WorkerOf(s, w).pc.Committing?
    ensures Step(s, w, c).db == View(s, w)
  {
  }

  lemma CommitSimulates(s: State, w: Wid, c: Choice, b: Accounts)
    requires Inv(s) && Abstracts(s.db, b) && !c.Crash? && WorkerOf(s, w).pc.Committing?
    ensures AtomicStep(b, Record(s, Act(w, c), b)) && Abstracts(View(s, w), Record(s, Act(w, c), b))
  {
    hide Abstracts;
    AtItsPc(s, w);
    var me := WorkerOf(s, w);
    if me.credit.Some? {
      CreditSimulates(s.db, s.clock, Held(s, w), me.writes, b, me.credit.value.0, me.credit.value.1);
    } else {
      PlainTxKeepsFacts(s.db, s.clock, Held(s, w), me.writes);
      SameFactsSimulate(s.db, View(s, w), b);
    }
  }

  lemma SameDbSameFacts(db: Db)
    ensures SameFacts(db, db)
  {
  }

  lemma RegisterKeepsFacts(db: Db, u: UserId)
    ensures SameFacts(db, db.(users := db.users[u := None]))
  {
  }

  lemma InvoiceKeepsFacts(db: Db, p: PayId, row: Payment)
    requires p !in db.payments && row.applied.None?
    ensures SameFacts(db, db.(payments := db.payments[p := row]))
  {
  }

  lemma BeginKeepsFacts(s: State, w: Wid, program: Program)
    ensures SameFacts(s.db, Begin(s, w, program).db)
  {
    hide SameFacts;
    SameDbSameFacts(s.db);
    var t := Begin(s, w, program);
    if program.Register? && t != s {
      RegisterKeepsFacts(s.db, program.user);
    } else if program.Invoice? && t != s {
      InvoiceKeepsFacts(s.db, program.pay, t.db.payments[program.pay]);
    }
  }

  /** A worker that commits nothing, or starts a program. */
  lemma IdleKeepsFacts(s: State, w: Wid, c: Choice)
    requires Quiet(WorkerOf(s, w)) && !c.Crash? && WorkerOf(s, w).pc.Idle?
    ensures SameFacts(s.db, Step(s, w, c).db)
  {
    hide SameFacts, Begin;
    QuietView(s, w);
    SameDbSameFacts(s.db);
    if c.Start? {
      BeginKeepsFacts(s, w, c.program);
    }
  }

  lemma IdleSimulates(s: State, w: Wid, c: Choice, b: Accounts)
    requires Inv(s) && Abstracts(s.db, b) && !c.Crash? && WorkerOf(s, w).pc.Idle?
    ensures Abstracts(Step(s, w, c).db, b)
  {
    hide Abstracts, SameFacts;
    AtItsPc(s, w);
    IdleKeepsFacts(s, w, c);
    SameFactsSimulate(s.db, Step(s, w, c).db, b);
  }

  /** Forward simulation: every step of the machine is one step of the ledger, or none. */
  lemma StepSimulates(s: State, a: Action, b: Accounts)
    requires Inv(s) && Abstracts(s.db, b)
    ensures AtomicStep(b, Record(s, a, b)) && Abstracts(Advance(s, a).db, Record(s, a, b))
  {
    if a.Act? && !a.choice.Crash? {
      var w, c := a.worker, a.choice;
      if WorkerOf(s, w).pc.Committing? {
        CommitSimulates(s, w, c, b);
        CommittedDb(s, w, c);
      } else if WorkerOf(s, w).pc.Idle? {
        IdleSimulates(s, w, c, b);
      } else {
        WorkerStep(s, w, c);
      }
    }
  }

  /** Refinement over whole runs. */
  lemma {:induction false} RunRefinesLedger(clock: Time, schedule: seq<Action>)
    ensures Inv(Run(Start0(clock), schedule))
    ensures Abstracts(Run(Start0(clock), schedule).db, RunBook(clock, schedule)) && Sound(RunBook(clock, schedule))
    ensures schedule != [] ==> AtomicStep(RunBook(clock, schedule[..|schedule| - 1]), RunBook(clock, schedule))
  {
    if schedule != [] {
      var before, a := schedule[..|schedule| - 1], schedule[|schedule| - 1];
      RunRefinesLedger(clock, before);
      StepSimulates(Run(Start0(clock), before), a, RunBook(clock, before));
      AtomicStepKeepsSound(RunBook(clock, before), RunBook(clock, schedule));
      AdvanceKeepsInv(Run(Start0(clock), before), a);
    }
  }

  /** `s` ends some run, and `b` is the book of the grants committed on the way. */
  ghost predicate Reached(s: State, b: Accounts) {
    exists clock, schedule :: s == Run(Start0(clock), schedule) && b == RunBook(clock, schedule)
  }

  /** Every reachable state keeps the invariant and is what its book says. */
  lemma ReachedRefines(s: State, b: Accounts)
    requires Reached(s, b)
    ensures Inv(s) && Abstracts(s.db, b) && Sound(b)
  {
    var clock, schedule :| s == Run(Start0(clock), schedule) && b == RunBook(clock, schedule);
    RunRefinesLedger(clock, schedule);
  }
}
