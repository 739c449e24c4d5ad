/** The reconciler as one of the jobs: it starts from the committed rows of any
    reachable state and leaves the ledger as it found it. */
module Upkeep {
  import opened Model
  import opened Book
  import opened Protocol
  import opened Safety
  import opened Refinement
  import opened Subscriptions
  import opened Payments
  import Reconcile

  /** Consistent rows, in particular those of every reachable state, never share an
      account. */
  lemma ConsistentRowsAreSeparate(db: Db, now: Time, b: Accounts)
    requires Consistent(db, now, b)
    ensures NamedRows(db.subs) && Reconcile.Separate(db.subs)
  {
    Reconcile.NamedRowsAreSeparate(db.subs);
  }

  /** Rows that only changed in what grants nothing stand for the same book. */
  lemma KeptRowsKeepTheLedger(db: Db, subs: map<UserId, Subscription>, now: Time, b: Accounts)
    requires Consistent(db, now, b) && subs.Keys == db.subs.Keys
    requires forall u | u in subs :: Reconcile.Kept(db.subs[u], subs[u])
    ensures Consistent(db.(subs := subs), now, b)
  {
    var writes := NOTHING.(subs := subs);
    var held := set u | u in subs :: SubRow(u);
    assert Overlay(db, writes) == db.(subs := subs);
    KeptRowsArePlain(db, subs, now);
    hide Abstracts, Sound;
    TxKeepsDb(db, now, held, writes, None);
    PlainTxKeepsFacts(db, now, held, writes);
    SameFactsSimulate(db, db.(subs := subs), b);
  }

  lemma KeptRowsArePlain(db: Db, subs: map<UserId, Subscription>, now: Time)
    requires DbOk(db, now) && subs.Keys == db.subs.Keys
    requires forall u | u in subs :: Reconcile.Kept(db.subs[u], subs[u])
    ensures var held := set u | u in subs :: SubRow(u);
            WritesLocked(db, held, NOTHING.(subs := subs)) && TxOk(db, now, held, NOTHING.(subs := subs), None)
  {
  }

  /** One reconciler run grants nothing and takes nothing, whatever the panel does:
      the same book before and after, so the next job may start from what it left. */
  method ReconcileJob(service: PaymentService, reconciler: Reconcile.ReconcileService, ghost b: Accounts)
    returns (r: Outcome, report: Reconcile.Report)
    requires service.Steady(b) && reconciler.Wired() && reconciler.subscriptions == service.subscriptions
    modifies service.session, service.clock, service.server, service.subscriptions.client
    ensures service.Steady(b) && service.clock.now >= old(service.clock.now)
    ensures service.session.work == old(service.session.work).(subs := service.session.work.subs)
    ensures service.session.work.subs.Keys == old(service.session.work).subs.Keys
    ensures forall u | u in service.session.work.subs ::
              Reconcile.Kept(old(service.session.work).subs[u], service.session.work.subs[u])
  {
    ghost var db := service.session.work;
    ConsistentRowsAreSeparate(db, service.clock.now, b);
    hide Consistent;
    ghost var failed;
    r, report, failed := reconciler.Run();
    TimePasses(db, old(service.clock.now), service.clock.now, b);
    KeptRowsKeepTheLedger(db, service.session.work.subs, service.clock.now, b);
  }
}
