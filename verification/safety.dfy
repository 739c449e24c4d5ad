/** What every reachable state of the protocol keeps, whatever the interleaving,
    the staleness of the caches and the moments at which workers die. */
module Safety {
  import opened Model
  import opened Ledger
  import opened Protocol

  // ---- committed rows ------------------------------------------------------

  ghost predicate PaymentOk(p: Payment, subs: map<UserId, Subscription>, clock: Time) {
    && (p.applied.Some? ==> p.Settled() && p.user in subs && p.applied.value <= clock)
    && (p.status.Provisioned? ==> p.applied.Some?)
    && (p.target.Some? <==> p.Settled())
    && (p.paidAt.Some? <==> p.Settled())
  }

  ghost predicate DbOk(db: Db, clock: Time) {
    && (forall p | p in db.payments :: PaymentOk(db.payments[p], db.subs, clock))
    && (forall u | u in db.subs && db.subs[u].status.Expired? :: db.subs[u].expires <= clock)
    && (forall u | u in db.users :: db.users[u].Some? <==> u in db.subs && db.subs[u].origin.Trial?)
    && (forall u | u in db.subs && db.subs[u].origin.Trial? :: u in db.users)
    && NamedRows(db.subs)
  }

  ghost predicate IsSettled(db: Db, p: PayId) {
    p in db.payments && db.payments[p].Settled()
  }

  ghost predicate IsApplied(db: Db, p: PayId) {
    p in db.payments && db.payments[p].applied.Some?
  }

  // ---- one worker ----------------------------------------------------------

  function Held(s: State, w: Wid): set<Lock> {
    set k | k in s.locks && s.locks[k] == w
  }

  /** The payment transitions that touch no subscription. */
  ghost predicate PlainPayment(a: Payment, b: Payment) {
    || (a.status.Pending? && exists now, target :: b == a.(status := Paid, paidAt := Some(now), target := Some(target)))
    || (a.status.Paid? && a.applied.Some? && exists now :: b == a.(status := Provisioned, provisionedAt := Some(now)))
    || (a.status.Pending? && b == a.(status := PaymentStatus.Expired))
    || (a.status.Expired? && b == a.(status := PaymentStatus.Pending))
  }

  /** The subscription writes that grant nothing. */
  ghost predicate PlainSub(a: Subscription, b: Subscription, clock: Time) {
    && b.expires == a.expires && b.devices == a.devices
    && b.origin == a.origin && b.created == a.created && b.panelId == a.panelId
    && (b.stage.None? || b.stage == a.stage || b == a.(stage := b.stage))
    && (b.status.Expired? ==> a.status.Expired? || a.expires <= clock)
  }

  /** The open transaction of a worker that is granting `e` to `u`. */
  ghost predicate CreditOk(db: Db, clock: Time, held: set<Lock>, u: UserId, e: Entry, writes: Db) {
    && UserLock(u) in held
    && e.at <= clock
    && match e
       case Bought(invoice, at) =>
         && IsSettled(db, invoice.pay)
         && db.payments[invoice.pay].user == u
         && db.payments[invoice.pay].applied.None?
         && invoice == Ledger.Invoice(invoice.pay, db.payments[invoice.pay].tariff, db.payments[invoice.pay].created)
         && writes.payments == map[invoice.pay := db.payments[invoice.pay].(applied := Some(at))]
         && writes.users == map[]
       case Tried(at, _) =>
         u !in db.subs && u in db.users && db.users[u].None? && writes.payments == map[]
           && writes.users == map[u := Some(at)]
       case Granted(_, _) => writes.payments == map[] && writes.users == map[]
  }

  /** `row` is the subscription of `u` with `e` added to it. */
  ghost predicate RowOk(db: Db, u: UserId, e: Entry, row: Subscription)
    requires e.Bought? ==> e.invoice.pay in db.payments
  {
    if u in db.subs then
      && !e.Tried?
      && row.expires == Max(e.at, db.subs[u].expires) + e.Duration()
      && row.origin == db.subs[u].origin && row.created == db.subs[u].created && row.panelId == db.subs[u].panelId
      && row.status.Active? && row.stage.None?
      && row.devices ==
         if e.Bought? && IsNewest(db, u, e.invoice.pay) then e.invoice.tariff.devices else db.subs[u].devices
    else
      && row.expires == e.at + e.Duration()
      && row.origin == e.Origin() && row.panelId == PanelId(Show(u)) && row.stage.None? && row.created == e.at
      && row.token.None? && row.provisionedAt.None? && row.synced.None?
      && row.status.Pending?
      && row.devices == if e.Bought? then e.invoice.tariff.devices else DEFAULT_MAX_DEVICES
  }

  ghost predicate WritesLocked(db: Db, held: set<Lock>, writes: Db) {
    && (forall p | p in writes.payments :: PayRow(p) in held && p in db.payments)
    && (forall u | u in writes.subs :: SubRow(u) in held)
    && (forall u | u in writes.users :: UserRow(u) in held && u in db.users)
  }

  /** No reminder marker is set by these writes. */
  ghost predicate Unmarked(db: Db, writes: Db) {
    forall u | u in writes.subs ::
      writes.subs[u].stage.None? || (u in db.subs && writes.subs[u].stage == db.subs[u].stage)
  }

  /** A reminder's claim: one marker, and nothing else. */
  ghost predicate IsMark(db: Db, writes: Db, u: UserId, stage: Stage) {
    && u in db.subs && db.subs[u].stage != Some(stage)
    && writes == NOTHING.(subs := map[u := db.subs[u].(stage := Some(stage))])
  }

  /** A transaction that may commit. */
  ghost predicate TxOk(db: Db, clock: Time, held: set<Lock>, writes: Db, credit: Option<(UserId, Entry)>) {
    match credit
    case Some(c) =>
      && CreditOk(db, clock, held, c.0, c.1, writes)
      && writes.subs.Keys <= {c.0}
      && (c.0 in writes.subs || (c.0 in db.subs && SubRow(c.0) in held))
      && RowOk(db, c.0, c.1, if c.0 in writes.subs then writes.subs[c.0] else db.subs[c.0])
    case None =>
      && writes.users == map[]
      && (forall p | p in writes.payments :: p in db.payments && PlainPayment(db.payments[p], writes.payments[p]))
      && (forall u | u in writes.subs :: u in db.subs && PlainSub(db.subs[u], writes.subs[u], clock))
  }

  /** What must hold of the committed rows when `next` resumes. */
  ghost predicate NextOk(db: Db, next: Next) {
    match next
    case ToIdle => true
    case ToLock(_) => true
    case ToApply(p) => IsSettled(db, p)
    case ToSync(u, _, p) => u in db.subs && (p.Some? ==> IsApplied(db, p.value))
    case ToBlock(u, _) => u in db.subs
    case ToDeliver(p) => IsApplied(db, p)
    case ToRaise => false
    case ToMark(_, _) => false
  }

  ghost predicate JobOk(db: Db, clock: Time, u: UserId, job: Job) {
    match job
    case Buy(p, now) => IsSettled(db, p) && db.payments[p].user == u && now <= clock
    case Try => true
    case Grant(_, now) => now <= clock
  }

  /** A copy read under the user's lock is the row, and stays the row. */
  ghost predicate CopyOk(db: Db, held: set<Lock>, u: UserId, copy: Option<Subscription>) {
    && UserLock(u) in held
    && (copy.None? ==> u !in db.subs)
    && (copy.Some? ==> SubRow(u) in held && u in db.subs && copy.value == db.subs[u])
  }

  ghost predicate Quiet(worker: Worker) {
    worker.writes == NOTHING && worker.credit.None?
  }

  /** Program counters at which nothing is written yet, with what they know. */
  ghost predicate QuietOk(db: Db, clock: Time, held: set<Lock>, pc: Pc) {
    match pc
    case Idle => true
    case Locking(_) => true
    case Asking(p) => p in db.payments
    case Pricing(p) => p in db.payments
    case Marking(p, _, _) => p in db.payments
    case Applying(p) => IsSettled(db, p)
    case Waiting(u, job) => JobOk(db, clock, u, job)
    case Reading(u, job) => JobOk(db, clock, u, job) && UserLock(u) in held
    case Claiming(u, p, now, copy) => JobOk(db, clock, u, Buy(p, now)) && CopyOk(db, held, u, copy)
    case Latching(u, now, _) => now <= clock && CopyOk(db, held, u, None)
    case Refreshing(u, call, p) => NextOk(db, ToSync(u, call, p))
    case Calling(u, call, _, p) => NextOk(db, ToSync(u, call, p))
    case Delivering(p) => IsApplied(db, p)
    case Invoiced(p) => p in db.payments
    case Reopening(_) => true
    case Examining(_) => true
    case Repairing(u, _) => u in db.subs
    case Noticing(u, _, _) => u in db.subs
    case _ => false
  }

  ghost predicate CreditingOk(db: Db, clock: Time, held: set<Lock>, writes: Db, u: UserId, p: PayId, now: Time,
                              copy: Option<Subscription>) {
    && writes.subs == map[]
    && JobOk(db, clock, u, Buy(p, now)) && CopyOk(db, held, u, copy)
    && CreditOk(db, clock, held, u, Bought(Ledger.Invoice(p, db.payments[p].tariff, db.payments[p].created), now),
                writes)
  }

  ghost predicate InsertingOk(db: Db, clock: Time, held: set<Lock>, writes: Db, u: UserId, e: Entry, row: Subscription,
                              next: Next) {
    && writes.subs == map[]
    && CreditOk(db, clock, held, u, e, writes)
    && CopyOk(db, held, u, None)
    && RowOk(db, u, e, row)
    && NextOk(Overlay(db, writes.(subs := map[u := row])), next)
  }

  ghost predicate RenewingOk(db: Db, clock: Time, held: set<Lock>, writes: Db, u: UserId, e: Entry,
                             loaded: Subscription, edited: Subscription, next: Next) {
    && u in db.subs && writes.subs == map[]
    && CreditOk(db, clock, held, u, e, writes)
    && CopyOk(db, held, u, Some(loaded))
    && RowOk(db, u, e, edited)
    && NextOk(Overlay(db, writes), next)
  }

  ghost predicate EditingOk(db: Db, u: UserId, loaded: Subscription, edited: Subscription, next: Next) {
    && u in db.subs && NextOk(db, next)
    && edited.expires == loaded.expires && edited.devices == loaded.devices
    && (edited.stage.None? || edited.stage == loaded.stage)
    && (edited.status.Expired? ==> edited.status == loaded.status)
  }

  /** Program counters at which the transaction may hold uncommitted writes. */
  predicate Busy(pc: Pc) {
    pc.Crediting? || pc.Inserting? || pc.Flushing? || pc.Committing? || pc.Closing? || pc.Syncing?
  }

  ghost predicate BusyOk(db: Db, clock: Time, held: set<Lock>, worker: Worker)
    requires Busy(worker.pc)
  {
    var pc, writes, credit := worker.pc, worker.writes, worker.credit;
    if pc.Crediting? then
      credit.None? && CreditingOk(db, clock, held, writes, pc.user, pc.pay, pc.now, pc.found)
    else if pc.Inserting? then
      && credit.Some? && credit.value.0 == pc.user
      && InsertingOk(db, clock, held, writes, pc.user, credit.value.1, pc.row, pc.next)
    else if pc.Flushing? then
      if credit.Some? then
        && credit.value.0 == pc.user
        && RenewingOk(db, clock, held, writes, pc.user, credit.value.1, pc.loaded, pc.edited, pc.next)
      else writes == NOTHING && EditingOk(db, pc.user, pc.loaded, pc.edited, pc.next)
    else if pc.Committing? then
      && TxOk(db, clock, held, writes, credit)
      && if pc.next.ToMark? then credit.None? && IsMark(db, writes, pc.next.user, pc.next.stage)
         else Unmarked(db, writes) && NextOk(Overlay(db, writes), pc.next)
    else if pc.Closing? then
      && TxOk(db, clock, held, writes, credit) && credit.None? && writes.subs == map[]
      && forall p | p in writes.payments :: writes.payments[p].status.Expired?
    else
      && TxOk(db, clock, held, writes, credit) && credit.None? && pc.moment <= clock
      && writes.payments == map[]
      && forall u | u in writes.subs :: writes.subs[u].status.Expired? && writes.subs[u].stage.None?
  }

  ghost predicate PcOk(db: Db, clock: Time, held: set<Lock>, worker: Worker) {
    if Busy(worker.pc) then BusyOk(db, clock, held, worker)
    else Quiet(worker) && QuietOk(db, clock, held, worker.pc)
  }

  ghost predicate WorkerOk(db: Db, clock: Time, held: set<Lock>, worker: Worker) {
    match worker
    case Worker(_, writes, _, _) => WritesLocked(db, held, writes) && PcOk(db, clock, held, worker)
  }

  ghost predicate Inv(s: State) {
    DbOk(s.db, s.clock) && forall w: Wid :: WorkerOk(s.db, s.clock, Held(s, w), WorkerOf(s, w))
  }

  // ---- rely and guarantee --------------------------------------------------

  /** What a payment's history may look like: facts are added, never withdrawn. */
  ghost predicate PaymentGrows(a: Payment, b: Payment) {
    && b.user == a.user && b.tariff == a.tariff && b.created == a.created && b.invoiceExpires == a.invoiceExpires
    && (a.Settled() ==> b.Settled() && b.target == a.target && b.paidAt == a.paidAt)
    && (a.status.Provisioned? ==> b.status.Provisioned? && b.provisionedAt == a.provisionedAt)
    && (a.applied.Some? ==> b.applied == a.applied)
  }

  ghost predicate SubGrows(a: Subscription, b: Subscription) {
    b.expires >= a.expires && b.origin == a.origin && b.created == a.created && b.panelId == a.panelId
  }

  ghost predicate DbGrows(a: Db, b: Db) {
    && (forall p | p in a.payments :: p in b.payments && PaymentGrows(a.payments[p], b.payments[p]))
    && (forall u | u in a.subs :: u in b.subs && SubGrows(a.subs[u], b.subs[u]))
    && (forall u | u in a.users :: u in b.users && (a.users[u].Some? ==> b.users[u] == a.users[u]))
  }

  /** What a worker holding `held` may rely on while others commit. */
  ghost predicate Rely(a: Db, b: Db, held: set<Lock>) {
    DbGrows(a, b) && forall k | k in held :: Spares(a, b, k)
  }

  /** A commit that respects the lock `k` of somebody else. */
  ghost predicate Spares(a: Db, b: Db, k: Lock)
    requires DbGrows(a, b)
  {
    match k
    case PayRow(p) => p in a.payments ==> b.payments[p] == a.payments[p]
    case SubRow(u) => u in a.subs ==> b.subs[u] == a.subs[u]
    case UserRow(u) => u in a.users ==> b.users[u] == a.users[u]
    case UserLock(u) =>
      && (u !in a.subs ==> u !in b.subs)
      && (u in a.subs ==> b.subs[u].expires == a.subs[u].expires && b.subs[u].devices == a.subs[u].devices)
      && (forall p | p in b.payments && b.payments[p].applied.Some? && b.payments[p].user == u ::
            p in a.payments && a.payments[p].applied.Some?)
  }

  lemma NewestIsStable(a: Db, b: Db, held: set<Lock>, u: UserId, p: PayId)
    requires Rely(a, b, held) && UserLock(u) in held && p in a.payments
    ensures p in b.payments && (IsNewest(a, u, p) <==> IsNewest(b, u, p))
  {
    assert OthersApplied(a, u, p) == OthersApplied(b, u, p);
  }

  lemma RowIsStable(a: Db, b: Db, held: set<Lock>, u: UserId, e: Entry, row: Subscription)
    requires Rely(a, b, held) && UserLock(u) in held
    requires e.Bought? ==> e.invoice.pay in a.payments
    requires RowOk(a, u, e, row)
    ensures e.Bought? ==> e.invoice.pay in b.payments
    ensures RowOk(b, u, e, row)
  {
    if e.Bought? {
      NewestIsStable(a, b, held, u, e.invoice.pay);
    }
  }

  lemma CreditIsStable(a: Db, b: Db, clock: Time, held: set<Lock>, u: UserId, e: Entry, writes: Db)
    requires Rely(a, b, held) && WritesLocked(a, held, writes) && CreditOk(a, clock, held, u, e, writes)
    ensures CreditOk(b, clock, held, u, e, writes)
  {
    if e.Bought? {
      assert e.invoice.pay in writes.payments;
    }
    if e.Tried? {
      assert u in writes.users;
    }
  }

  lemma NextIsStable(a: Db, b: Db, held: set<Lock>, writes: Db, next: Next)
    requires DbGrows(a, b) && NextOk(Overlay(a, writes), next)
    ensures NextOk(Overlay(b, writes), next)
  {
  }

  lemma QuietIsStable(a: Db, b: Db, clock: Time, held: set<Lock>, pc: Pc)
    requires Rely(a, b, held) && QuietOk(a, clock, held, pc)
    ensures QuietOk(b, clock, held, pc)
  {
  }

  lemma TxIsStable(a: Db, b: Db, clock: Time, held: set<Lock>, writes: Db, credit: Option<(UserId, Entry)>)
    requires Rely(a, b, held) && WritesLocked(a, held, writes) && TxOk(a, clock, held, writes, credit)
    ensures TxOk(b, clock, held, writes, credit)
  {
    if credit.Some? {
      CreditIsStable(a, b, clock, held, credit.value.0, credit.value.1, writes);
      var u := credit.value.0;
      RowIsStable(a, b, held, u, credit.value.1, if u in writes.subs then writes.subs[u] else a.subs[u]);
    }
  }

  lemma GrantIsStable(a: Db, b: Db, clock: Time, held: set<Lock>, writes: Db, u: UserId, e: Entry, row: Subscription,
                      next: Next)
    requires Rely(a, b, held) && WritesLocked(a, held, writes) && CreditOk(a, clock, held, u, e, writes)
    requires RowOk(a, u, e, row)
    ensures CreditOk(b, clock, held, u, e, writes) && RowOk(b, u, e, row)
  {
    CreditIsStable(a, b, clock, held, u, e, writes);
    RowIsStable(a, b, held, u, e, row);
  }

  lemma GrantingIsStable(a: Db, b: Db, clock: Time, held: set<Lock>, worker: Worker)
    requires worker.pc.Crediting? || worker.pc.Inserting? || worker.pc.Flushing?
    requires Rely(a, b, held) && WritesLocked(a, held, worker.writes) && BusyOk(a, clock, held, worker)
    ensures BusyOk(b, clock, held, worker)
  {
    match worker.pc
    case Crediting(u, p, now, _) =>
      CreditIsStable(a, b, clock, held, u, Bought(Ledger.Invoice(p, a.payments[p].tariff, a.payments[p].created), now),
                     worker.writes);
    case Inserting(u, row, next) =>
      GrantIsStable(a, b, clock, held, worker.writes, u, worker.credit.value.1, row, next);
      NextIsStable(a, b, held, worker.writes.(subs := map[u := row]), next);
    case Flushing(u, _, edited, next) =>
      if worker.credit.Some? {
        GrantIsStable(a, b, clock, held, worker.writes, u, worker.credit.value.1, edited, next);
        NextIsStable(a, b, held, worker.writes, next);
      }
  }

  /** The rows under a transaction's own writes stay what they are. */
  lemma MarksAreStable(a: Db, b: Db, held: set<Lock>, writes: Db)
    requires Rely(a, b, held) && WritesLocked(a, held, writes)
    ensures DbGrows(a, b)
    ensures Unmarked(a, writes) ==> Unmarked(b, writes)
    ensures forall u, stage | IsMark(a, writes, u, stage) :: IsMark(b, writes, u, stage)
  {
    forall u, stage | IsMark(a, writes, u, stage) ensures IsMark(b, writes, u, stage) {
      assert u in writes.subs;
    }
  }

  lemma ClosingIsStable(a: Db, b: Db, clock: Time, held: set<Lock>, worker: Worker)
    requires worker.pc.Committing? || worker.pc.Closing? || worker.pc.Syncing?
    requires Rely(a, b, held) && WritesLocked(a, held, worker.writes) && BusyOk(a, clock, held, worker)
    ensures BusyOk(b, clock, held, worker)
  {
    TxIsStable(a, b, clock, held, worker.writes, worker.credit);
    MarksAreStable(a, b, held, worker.writes);
    hide TxOk, Rely, DbGrows, Unmarked;
    if worker.pc.Committing? && !worker.pc.next.ToMark? {
      NextIsStable(a, b, held, worker.writes, worker.pc.next);
    }
  }

  lemma WorkerIsStable(a: Db, b: Db, clock: Time, held: set<Lock>, worker: Worker)
    requires Rely(a, b, held) && WorkerOk(a, clock, held, worker)
    ensures WorkerOk(b, clock, held, worker)
  {
    if Busy(worker.pc) {
      if worker.pc.Crediting? || worker.pc.Inserting? || worker.pc.Flushing? {
        GrantingIsStable(a, b, clock, held, worker);
      } else {
        ClosingIsStable(a, b, clock, held, worker);
      }
    } else {
      QuietIsStable(a, b, clock, held, worker.pc);
    }
  }

  // ---- steps that do not commit --------------------------------------------

  /** A step that changes nothing but the worker's own record and its locks. */
  ghost predicate OwnStep(s: State, t: State, w: Wid) {
    && t.db == s.db && t.clock == s.clock
    && (forall v | v != w :: WorkerOf(t, v) == WorkerOf(s, v) && Held(t, v) == Held(s, v))
    && WorkerOk(t.db, t.clock, Held(t, w), WorkerOf(t, w))
  }

  lemma OwnStepKeepsInv(s: State, t: State, w: Wid)
    requires Inv(s) && OwnStep(s, t, w)
    ensures Inv(t)
  {
    forall v: Wid ensures WorkerOk(t.db, t.clock, Held(t, v), WorkerOf(t, v)) {
      if v != w {
        assert WorkerOk(s.db, s.clock, Held(s, v), WorkerOf(s, v));
      }
    }
  }

  lemma PutStep(s: State, w: Wid, worker: Worker)
    requires WorkerOk(s.db, s.clock, Held(s, w), worker)
    ensures OwnStep(s, Put(s, w, worker), w)
  {
    assert forall v :: Held(Put(s, w, worker), v) == Held(s, v);
  }

  lemma TakePutStep(s: State, w: Wid, k: Lock, worker: Worker)
    requires CanTake(s, w, k)
    requires WorkerOk(s.db, s.clock, Held(s, w) + {k}, worker)
    ensures OwnStep(s, Put(Take(s, w, k), w, worker), w)
  {
    var t := Put(Take(s, w, k), w, worker);
    assert Held(t, w) == Held(s, w) + {k};
    assert forall v | v != w :: Held(t, v) == Held(s, v);
  }

  lemma QuietView(s: State, w: Wid)
    requires Quiet(WorkerOf(s, w))
    ensures View(s, w) == s.db
  {
  }

  /** What every step below may assume of the worker that takes it. */
  ghost predicate At(s: State, w: Wid, pc: Pc) {
    match WorkerOf(s, w)
    case Worker(at, _, _, _) => at == pc && DbOk(s.db, s.clock) && WorkerOk(s.db, s.clock, Held(s, w), WorkerOf(s, w))
  }

  lemma LockForFinalizeStep(s: State, w: Wid, p: PayId)
    requires At(s, w, Locking(p))
    ensures OwnStep(s, LockForFinalize(s, w, p), w)
  {
    QuietView(s, w);
    if p !in s.db.payments || !CanTake(s, w, PayRow(p)) {
      PutStep(s, w, WorkerOf(s, w).(pc := Idle));
    } else {
      var status := s.db.payments[p].status;
      var pc := if status.Paid? then Applying(p) else if status.Pending? then Asking(p) else Idle;
      TakePutStep(s, w, PayRow(p), WorkerOf(s, w).(pc := pc));
    }
  }

  /** UPDATE payments from a worker that has written nothing so far. */
  lemma UpdatePaymentStep(s: State, w: Wid, p: PayId, hit: bool, row: Payment, yes: Pc, no: Pc)
    requires DbOk(s.db, s.clock) && WritesLocked(s.db, Held(s, w), WorkerOf(s, w).writes)
    requires hit ==> p in s.db.payments
    requires !hit ==> PcOk(s.db, s.clock, Held(s, w), WorkerOf(s, w).(pc := no))
    requires hit ==>
               var me := WorkerOf(s, w);
               PcOk(s.db, s.clock, Held(s, w) + {PayRow(p)},
                    me.(pc := yes, writes := me.writes.(payments := me.writes.payments[p := row])))
    ensures var t := UpdatePayment(s, w, p, hit, row, yes, no); t == s || OwnStep(s, t, w)
  {
    var me := WorkerOf(s, w);
    if !hit {
      PutStep(s, w, me.(pc := no));
    } else if CanTake(s, w, PayRow(p)) {
      TakePutStep(s, w, PayRow(p), me.(pc := yes, writes := me.writes.(payments := me.writes.payments[p := row])));
    }
  }

  /** A payment UPDATE that is the whole transaction. */
  lemma PlainUpdateStep(s: State, w: Wid, p: PayId, hit: bool, row: Payment, next: Next, no: Pc)
    requires DbOk(s.db, s.clock) && Quiet(WorkerOf(s, w))
    requires hit ==> p in s.db.payments && PlainPayment(s.db.payments[p], row)
    requires hit ==> NextOk(Overlay(s.db, NOTHING.(payments := map[p := row])), next)
    requires !hit ==> PcOk(s.db, s.clock, Held(s, w), WorkerOf(s, w).(pc := no))
    ensures var t := UpdatePayment(s, w, p, hit, row, Committing(next), no); t == s || OwnStep(s, t, w)
  {
    if hit {
      assert NOTHING.payments[p := row] == map[p := row];
      assert TxOk(s.db, s.clock, Held(s, w) + {PayRow(p)}, NOTHING.(payments := map[p := row]), None);
    }
    UpdatePaymentStep(s, w, p, hit, row, Committing(next), no);
  }

  lemma NothingToCommit(s: State, w: Wid, next: Next)
    requires Quiet(WorkerOf(s, w)) && NextOk(s.db, next)
    ensures PcOk(s.db, s.clock, Held(s, w), WorkerOf(s, w).(pc := Committing(next)))
  {
    assert Overlay(s.db, NOTHING) == s.db;
  }

  lemma MarkExpiredStep(s: State, w: Wid, p: PayId)
    requires DbOk(s.db, s.clock) && Quiet(WorkerOf(s, w))
    ensures var t := MarkExpired(s, w, p, Committing(ToIdle)); t == s || OwnStep(s, t, w)
  {
    QuietView(s, w);
    NothingToCommit(s, w, ToIdle);
    if p !in s.db.payments {
      PutStep(s, w, WorkerOf(s, w).(pc := Committing(ToIdle)));
    } else {
      var row := s.db.payments[p];
      PlainUpdateStep(s, w, p, row.status.Pending?, row.(status := PaymentStatus.Expired), ToIdle, Committing(ToIdle));
    }
  }

  lemma AskStep(s: State, w: Wid, p: PayId, verdict: Verdict)
    requires At(s, w, Asking(p))
    ensures var t := Ask(s, w, p, verdict); t == s || OwnStep(s, t, w)
  {
    if verdict.SaysExpired? || verdict.SaysCanceled? {
      MarkExpiredStep(s, w, p);
    } else {
      PutStep(s, w, WorkerOf(s, w).(pc := if verdict.SaysPaid? then Pricing(p) else Idle));
    }
  }

  lemma PriceOk(s: State, w: Wid, p: PayId)
    requires At(s, w, Pricing(p))
    ensures WorkerOk(s.db, s.clock, Held(s, w), WorkerOf(Price(s, w, p), w))
  {
    QuietView(s, w);
  }

  lemma PriceStep(s: State, w: Wid, p: PayId)
    requires At(s, w, Pricing(p))
    ensures OwnStep(s, Price(s, w, p), w)
  {
    PriceOk(s, w, p);
    PutStep(s, w, WorkerOf(Price(s, w, p), w));
  }

  lemma MarkPaidStep(s: State, w: Wid, p: PayId, now: Time, target: Time)
    requires At(s, w, Marking(p, now, target))
    ensures var t := MarkPaid(s, w, p, now, target); t == s || OwnStep(s, t, w)
  {
    QuietView(s, w);
    NothingToCommit(s, w, ToIdle);
    var row := s.db.payments[p];
    PlainUpdateStep(s, w, p, row.status.Pending?, row.(status := Paid, paidAt := Some(now), target := Some(target)),
                    ToApply(p), Committing(ToIdle));
  }

  lemma ApplyStep(s: State, w: Wid, p: PayId)
    requires At(s, w, Applying(p))
    ensures OwnStep(s, Apply(s, w, p), w)
  {
    hide DbOk, Held;
    QuietView(s, w);
    PutStep(s, w, WorkerOf(Apply(s, w, p), w));
  }

  lemma WaitForUserStep(s: State, w: Wid, u: UserId, job: Job)
    requires At(s, w, Waiting(u, job))
    ensures var t := WaitForUser(s, w, u, job); t == s || OwnStep(s, t, w)
  {
    if CanTake(s, w, UserLock(u)) {
      TakePutStep(s, w, UserLock(u), WorkerOf(s, w).(pc := Reading(u, job)));
    }
  }

  lemma FoundIsOk(db: Db, clock: Time, held: set<Lock>, worker: Worker, u: UserId, job: Job,
                  copy: Option<Subscription>, days: nat)
    requires Quiet(worker) && JobOk(db, clock, u, job) && CopyOk(db, held, u, copy)
    ensures PcOk(db, clock, held, Found(worker, clock, u, job, copy, days))
  {
    assert Overlay(db, NOTHING) == db;
    if job.Grant? {
      var e := Granted(job.now, job.days);
      assert CreditOk(db, clock, held, u, e, NOTHING);
    }
  }

  lemma LockByUserStep(s: State, w: Wid, u: UserId, job: Job, days: nat)
    requires At(s, w, Reading(u, job))
    ensures var t := LockByUser(s, w, u, job, days); t == s || OwnStep(s, t, w)
  {
    QuietView(s, w);
    var me := WorkerOf(s, w);
    if u !in s.db.subs {
      FoundIsOk(s.db, s.clock, Held(s, w), me, u, job, None, days);
      PutStep(s, w, Found(me, s.clock, u, job, None, days));
    } else if CanTake(s, w, SubRow(u)) {
      var row := s.db.subs[u];
      var me' := me.(cache := me.cache[u := row]);
      FoundIsOk(s.db, s.clock, Held(s, w) + {SubRow(u)}, me', u, job, Some(row), days);
      TakePutStep(s, w, SubRow(u), Found(me', s.clock, u, job, Some(row), days));
    }
  }

  /** The raise "applied without a subscription" cannot happen: whoever applied
      the payment inserted the row under the same user lock. */
  lemma LostClaimHasSubscription(s: State, w: Wid, u: UserId, p: PayId, now: Time, copy: Option<Subscription>)
    requires At(s, w, Claiming(u, p, now, copy))
    ensures s.db.payments[p].applied.Some? ==> copy.Some?
  {
  }

  lemma ClaimStep(s: State, w: Wid, u: UserId, p: PayId, now: Time, copy: Option<Subscription>)
    requires At(s, w, Claiming(u, p, now, copy))
    ensures var t := Claim(s, w, u, p, now, copy); t == s || OwnStep(s, t, w)
  {
    QuietView(s, w);
    LostClaimHasSubscription(s, w, u, p, now, copy);
    var row := s.db.payments[p];
    var lost := if copy.None? then ToRaise else ToSync(u, SyncCall(copy), Some(p));
    if row.applied.Some? {
      NothingToCommit(s, w, lost);
    } else {
      assert NOTHING.payments[p := row.(applied := Some(now))] == map[p := row.(applied := Some(now))];
    }
    UpdatePaymentStep(s, w, p, row.applied.None?, row.(applied := Some(now)), Crediting(u, p, now, copy),
                      Committing(lost));
  }

  lemma FirstPurchaseOk(db: Db, clock: Time, held: set<Lock>, writes: Db, u: UserId, p: PayId, now: Time)
    requires DbOk(db, clock) && CreditingOk(db, clock, held, writes, u, p, now, None)
    ensures var row := db.payments[p];
            InsertingOk(db, clock, held, writes, u, Bought(Ledger.Invoice(p, row.tariff, row.created), now),
                        NewSubscription(u, now, now + row.tariff.duration, Purchase, row.tariff.devices),
                        ToSync(u, SyncCall(None), Some(p)))
  {
    hide PaymentOk;
  }

  lemma RenewalOk(db: Db, clock: Time, held: set<Lock>, writes: Db, u: UserId, p: PayId, now: Time, copy: Subscription)
    requires DbOk(db, clock) && CreditingOk(db, clock, held, writes, u, p, now, Some(copy))
    ensures var row := db.payments[p];
            RenewingOk(db, clock, held, writes, u, Bought(Ledger.Invoice(p, row.tariff, row.created), now),
                       copy, Renew(copy, now, row.tariff, IsNewest(db, u, p)), ToSync(u, SyncCall(Some(copy)), Some(p)))
  {
    hide PaymentOk;
  }

  lemma ClaimedView(s: State, w: Wid, u: UserId, p: PayId, now: Time, copy: Option<Subscription>)
    requires At(s, w, Crediting(u, p, now, copy))
    ensures var view := View(s, w);
            && p in s.db.payments && p in view.payments && view.payments[p] == s.db.payments[p].(applied := Some(now))
            && (IsNewest(view, u, p) <==> IsNewest(s.db, u, p))
  {
    assert OthersApplied(View(s, w), u, p) == OthersApplied(s.db, u, p);
  }

  lemma CreditingFacts(s: State, w: Wid, u: UserId, p: PayId, now: Time, copy: Option<Subscription>)
    requires At(s, w, Crediting(u, p, now, copy))
    ensures var held, writes := Held(s, w), WorkerOf(s, w).writes;
            && DbOk(s.db, s.clock) && WritesLocked(s.db, held, writes)
            && CreditingOk(s.db, s.clock, held, writes, u, p, now, copy)
  {
  }

  lemma InsertingWorkerOk(db: Db, clock: Time, held: set<Lock>, worker: Worker)
    requires worker.pc.Inserting? && worker.credit.Some? && worker.credit.value.0 == worker.pc.user
    requires WritesLocked(db, held, worker.writes)
    requires InsertingOk(db, clock, held, worker.writes, worker.pc.user, worker.credit.value.1, worker.pc.row,
                         worker.pc.next)
    ensures WorkerOk(db, clock, held, worker)
  {
  }

  lemma RenewingWorkerOk(db: Db, clock: Time, held: set<Lock>, worker: Worker)
    requires worker.pc.Flushing? && worker.credit.Some? && worker.credit.value.0 == worker.pc.user
    requires WritesLocked(db, held, worker.writes)
    requires RenewingOk(db, clock, held, worker.writes, worker.pc.user, worker.credit.value.1,
                        worker.pc.loaded, worker.pc.edited, worker.pc.next)
    ensures WorkerOk(db, clock, held, worker)
  {
  }

  lemma CreditDaysOk(s: State, w: Wid, u: UserId, p: PayId, now: Time, copy: Option<Subscription>)
    requires At(s, w, Crediting(u, p, now, copy))
    ensures WorkerOk(s.db, s.clock, Held(s, w), WorkerOf(CreditDays(s, w, u, p, now, copy), w))
  {
    hide At, WorkerOk, WritesLocked, DbOk, View, IsNewest, InsertingOk, RenewingOk, CreditingOk, Held;
    CreditingFacts(s, w, u, p, now, copy);
    ClaimedView(s, w, u, p, now, copy);
    var held, writes, t := Held(s, w), WorkerOf(s, w).writes, CreditDays(s, w, u, p, now, copy);
    if copy.None? {
      FirstPurchaseOk(s.db, s.clock, held, writes, u, p, now);
      InsertingWorkerOk(s.db, s.clock, held, WorkerOf(t, w));
    } else {
      RenewalOk(s.db, s.clock, held, writes, u, p, now, copy.value);
      RenewingWorkerOk(s.db, s.clock, held, WorkerOf(t, w));
    }
  }

  lemma CreditDaysStep(s: State, w: Wid, u: UserId, p: PayId, now: Time, copy: Option<Subscription>)
    requires At(s, w, Crediting(u, p, now, copy))
    ensures OwnStep(s, CreditDays(s, w, u, p, now, copy), w)
  {
    CreditDaysOk(s, w, u, p, now, copy);
    PutStep(s, w, WorkerOf(CreditDays(s, w, u, p, now, copy), w));
  }

  lemma LatchTrialStep(s: State, w: Wid, u: UserId, now: Time, days: nat)
    requires At(s, w, Latching(u, now, days))
    ensures var t := LatchTrial(s, w, u, now, days); t == s || OwnStep(s, t, w)
  {
    QuietView(s, w);
    NothingToCommit(s, w, ToIdle);
    var me := WorkerOf(s, w);
    if u !in s.db.users || s.db.users[u].Some? {
      PutStep(s, w, me.(pc := Committing(ToIdle)));
    } else if CanTake(s, w, UserRow(u)) {
      var writes := NOTHING.(users := map[u := Some(now)]);
      assert NOTHING.users[u := Some(now)] == map[u := Some(now)];
      var row := NewSubscription(u, now, now + days, Trial, DEFAULT_MAX_DEVICES);
      var pc := Inserting(u, row, ToSync(u, Provision, None));
      TakePutStep(s, w, UserRow(u), me.(pc := pc, writes := writes, credit := Some((u, Tried(now, days)))));
    }
  }

  /** Nobody ever attempts a second row for a user. */
  lemma InsertNeverCollides(s: State, w: Wid, u: UserId, row: Subscription, next: Next)
    requires At(s, w, Inserting(u, row, next))
    ensures u !in View(s, w).subs
  {
  }

  lemma InsertStep(s: State, w: Wid, u: UserId, row: Subscription, next: Next)
    requires At(s, w, Inserting(u, row, next))
    ensures var t := Insert(s, w, u, row, next); t == s || OwnStep(s, t, w)
  {
    InsertNeverCollides(s, w, u, row, next);
    if CanTake(s, w, SubRow(u)) {
      var me := WorkerOf(s, w);
      assert me.writes.subs[u := row] == map[u := row];
      var writes := me.writes.(subs := map[u := row]);
      TakePutStep(s, w, SubRow(u), me.(pc := Committing(next), writes := writes, cache := me.cache[u := row]));
    }
  }

  lemma RenewingStep(s: State, w: Wid, u: UserId, loaded: Subscription, edited: Subscription, next: Next)
    requires At(s, w, Flushing(u, loaded, edited, next)) && WorkerOf(s, w).credit.Some?
    ensures var t := FlushChanges(s, w, u, loaded, edited, next); t == s || OwnStep(s, t, w)
  {
    hide DbOk;
    var me := WorkerOf(s, w);
    if loaded == edited {
      PutStep(s, w, me.(pc := Committing(next)));
    } else {
      assert Flush(loaded, edited, s.db.subs[u]) == edited.(panelId := loaded.panelId);
      var row := Flush(loaded, edited, s.db.subs[u]);
      assert me.writes.subs[u := row] == map[u := row];
      var writes := me.writes.(subs := map[u := row]);
      TakePutStep(s, w, SubRow(u), me.(pc := Committing(next), writes := writes, cache := me.cache[u := edited]));
    }
  }

  lemma EditingStep(s: State, w: Wid, u: UserId, loaded: Subscription, edited: Subscription, next: Next)
    requires At(s, w, Flushing(u, loaded, edited, next)) && WorkerOf(s, w).credit.None?
    ensures var t := FlushChanges(s, w, u, loaded, edited, next); t == s || OwnStep(s, t, w)
  {
    QuietView(s, w);
    var me := WorkerOf(s, w);
    if loaded == edited {
      NothingToCommit(s, w, next);
      PutStep(s, w, me.(pc := Committing(next)));
    } else if CanTake(s, w, SubRow(u)) {
      var row := Flush(loaded, edited, s.db.subs[u]);
      assert NOTHING.subs[u := row] == map[u := row];
      var writes := NOTHING.(subs := map[u := row]);
      TakePutStep(s, w, SubRow(u), me.(pc := Committing(next), writes := writes, cache := me.cache[u := edited]));
    }
  }

  lemma RefreshStep(s: State, w: Wid, u: UserId, call: Call, p: Option<PayId>)
    requires At(s, w, Refreshing(u, call, p))
    ensures OwnStep(s, Refresh(s, w, u, call, p), w)
  {
    QuietView(s, w);
    var me, row := WorkerOf(s, w), s.db.subs[u];
    PutStep(s, w, me.(pc := Calling(u, call, row, p), cache := me.cache[u := row]));
  }

  lemma PanelAnsweredStep(s: State, w: Wid, u: UserId, call: Call, copy: Subscription, p: Option<PayId>,
                          token: Option<Token>)
    requires At(s, w, Calling(u, call, copy, p))
    ensures OwnStep(s, PanelAnswered(s, w, u, call, copy, p, token), w)
  {
    PutStep(s, w, WorkerOf(PanelAnswered(s, w, u, call, copy, p, token), w));
  }

  lemma MarkProvisionedStep(s: State, w: Wid, p: PayId)
    requires At(s, w, Delivering(p))
    ensures var t := MarkProvisioned(s, w, p); t == s || OwnStep(s, t, w)
  {
    QuietView(s, w);
    NothingToCommit(s, w, ToIdle);
    var row := s.db.payments[p];
    PlainUpdateStep(s, w, p, row.status.Paid?, row.(status := Provisioned, provisionedAt := Some(s.clock)),
                    ToIdle, Committing(ToIdle));
  }

  lemma ReopenStep(s: State, w: Wid, p: PayId)
    requires At(s, w, Reopening(p))
    ensures var t := Reopen(s, w, p); t == s || OwnStep(s, t, w)
  {
    QuietView(s, w);
    if p !in s.db.payments {
      PutStep(s, w, WorkerOf(s, w).(pc := Idle));
    } else {
      var row := s.db.payments[p];
      PlainUpdateStep(s, w, p, row.status.Expired?, row.(status := PaymentStatus.Pending), ToLock(p), Idle);
    }
  }

  lemma ClosingStep(s: State, w: Wid, p: PayId)
    requires At(s, w, Closing)
    ensures var t := MarkExpired(s, w, p, Closing); t == s || OwnStep(s, t, w)
  {
    var me, view := WorkerOf(s, w), View(s, w).payments;
    if p !in view {
      PutStep(s, w, me.(pc := Closing));
    } else {
      UpdatePaymentStep(s, w, p, view[p].status.Pending?, view[p].(status := PaymentStatus.Expired), Closing, Closing);
    }
  }

  lemma SyncingStep(s: State, w: Wid, u: UserId, moment: Time)
    requires At(s, w, Syncing(moment))
    ensures var t := ExpireSub(s, w, u, moment); t == s || OwnStep(s, t, w)
  {
    var me, view := WorkerOf(s, w), View(s, w).subs;
    if u in view && view[u].status.Active? && view[u].expires <= moment && CanTake(s, w, SubRow(u)) {
      TakePutStep(s, w, SubRow(u), WorkerOf(ExpireSub(s, w, u, moment), w));
    }
  }

  lemma FinishStep(s: State, w: Wid)
    requires WorkerOf(s, w).pc.Closing? || WorkerOf(s, w).pc.Syncing?
    requires At(s, w, WorkerOf(s, w).pc)
    ensures OwnStep(s, Jump(s, w, Committing(ToIdle)), w)
  {
    PutStep(s, w, WorkerOf(s, w).(pc := Committing(ToIdle)));
  }

  lemma ExamineStep(s: State, w: Wid, u: UserId)
    requires At(s, w, Examining(u))
    ensures OwnStep(s, Examine(s, w, u), w)
  {
    QuietView(s, w);
    var me := WorkerOf(s, w);
    if u !in s.db.subs {
      PutStep(s, w, me.(pc := Idle));
    } else {
      var row := s.db.subs[u];
      PutStep(s, w, me.(pc := Repairing(u, row), cache := me.cache[u := row]));
    }
  }

  lemma RepairStep(s: State, w: Wid, u: UserId, copy: Subscription, repair: Repair)
    requires At(s, w, Repairing(u, copy))
    ensures OwnStep(s, RepairRow(s, w, u, copy, repair), w)
  {
    hide DbOk, PaymentOk, WritesLocked, DbGrows;
    assert Overlay(s.db, NOTHING) == s.db;
    var me := WorkerOf(s, w);
    if copy.Closed() || repair.Nothing? {
      PutStep(s, w, me.(pc := Idle));
    } else if repair.Create? || repair.PushOnly? {
      PutStep(s, w, me.(pc := Refreshing(u, if repair.Create? then Provision else Push, None)));
    } else if repair.Extend? {
      PutStep(s, w, me.(pc := Flushing(u, copy, ExtendTo(copy, copy.expires), ToSync(u, Push, None))));
    } else {
      PutStep(s, w, me.(pc := Flushing(u, copy, AfterSettle(copy, repair.token, repair.enabled, s.clock), ToIdle)));
    }
  }

  lemma NoticeStep(s: State, w: Wid, u: UserId, stage: Stage, copy: Subscription)
    requires At(s, w, Noticing(u, stage, copy))
    ensures var t := Notice(s, w, u, stage, copy); t == s || OwnStep(s, t, w)
  {
    QuietView(s, w);
    var me := WorkerOf(s, w);
    if copy.stage == Some(stage) || ShortTrial(copy, stage) {
      PutStep(s, w, me.(pc := Idle));
    } else if s.db.subs[u].stage == Some(stage) {
      NothingToCommit(s, w, ToIdle);
      PutStep(s, w, me.(pc := Committing(ToIdle)));
    } else if CanTake(s, w, SubRow(u)) {
      var row := s.db.subs[u].(stage := Some(stage));
      assert NOTHING.subs[u := row] == map[u := row];
      var writes := NOTHING.(subs := map[u := row]);
      TakePutStep(s, w, SubRow(u),
                  me.(pc := Committing(ToMark(u, stage)), writes := writes, cache := me.cache[u := row]));
    }
  }

  // ---- steps that change the committed rows --------------------------------

  lemma PlainPaymentGrows(a: Payment, b: Payment)
    requires PlainPayment(a, b)
    ensures PaymentGrows(a, b)
  {
  }

  lemma RowGrows(db: Db, u: UserId, e: Entry, row: Subscription)
    requires u in db.subs && (e.Bought? ==> e.invoice.pay in db.payments) && RowOk(db, u, e, row)
    ensures SubGrows(db.subs[u], row)
  {
  }

  lemma TxGrows(db: Db, clock: Time, held: set<Lock>, writes: Db, credit: Option<(UserId, Entry)>)
    requires DbOk(db, clock) && WritesLocked(db, held, writes) && TxOk(db, clock, held, writes, credit)
    ensures DbGrows(db, Overlay(db, writes))
  {
    hide DbOk, RowOk, PlainPayment;
    var after := Overlay(db, writes);
    forall p | p in db.payments ensures p in after.payments && PaymentGrows(db.payments[p], after.payments[p]) {
      if credit.None? && p in writes.payments {
        PlainPaymentGrows(db.payments[p], writes.payments[p]);
      }
    }
    forall u | u in db.subs ensures u in after.subs && SubGrows(db.subs[u], after.subs[u]) {
      if credit.Some? && u in writes.subs {
        RowGrows(db, u, credit.value.1, writes.subs[u]);
      }
    }
  }

  /** Nobody else's user gains an applied payment, and a plain commit gains nobody one. */
  lemma TxSparesUser(db: Db, clock: Time, held: set<Lock>, writes: Db, credit: Option<(UserId, Entry)>, u: UserId)
    requires WritesLocked(db, held, writes) && TxOk(db, clock, held, writes, credit) && UserLock(u) !in held
    ensures var after := Overlay(db, writes);
            && (u !in db.subs ==> u !in after.subs)
            && (u in db.subs ==>
                  u in after.subs && after.subs[u].expires == db.subs[u].expires
                    && after.subs[u].devices == db.subs[u].devices)
            && (forall p | p in after.payments && after.payments[p].applied.Some? && after.payments[p].user == u ::
                  p in db.payments && db.payments[p].applied.Some?)
  {
    hide RowOk;
  }

  /** Strict two-phase locking pays off: a commit spares everybody else's locks. */
  lemma TxSpares(db: Db, clock: Time, held: set<Lock>, writes: Db, credit: Option<(UserId, Entry)>, k: Lock)
    requires DbOk(db, clock) && WritesLocked(db, held, writes) && TxOk(db, clock, held, writes, credit)
    requires k !in held
    requires DbGrows(db, Overlay(db, writes))
    ensures Spares(db, Overlay(db, writes), k)
  {
    hide DbOk, TxOk;
    if k.UserLock? {
      TxSparesUser(db, clock, held, writes, credit, k.user);
    }
  }

  lemma PlainPaymentIsOk(a: Payment, b: Payment, subs: map<UserId, Subscription>, clock: Time)
    requires PaymentOk(a, subs, clock) && PlainPayment(a, b)
    ensures PaymentOk(b, subs, clock)
  {
  }

  lemma TxKeepsPayments(db: Db, clock: Time, held: set<Lock>, writes: Db, credit: Option<(UserId, Entry)>)
    requires DbOk(db, clock) && WritesLocked(db, held, writes) && TxOk(db, clock, held, writes, credit)
    ensures forall p | p in Overlay(db, writes).payments ::
              PaymentOk(Overlay(db, writes).payments[p], Overlay(db, writes).subs, clock)
  {
    forall p | p in Overlay(db, writes).payments
      ensures PaymentOk(Overlay(db, writes).payments[p], Overlay(db, writes).subs, clock)
    {
      if credit.None? && p in writes.payments {
        PlainPaymentIsOk(db.payments[p], writes.payments[p], db.subs, clock);
      }
    }
  }

  lemma TxKeepsDb(db: Db, clock: Time, held: set<Lock>, writes: Db, credit: Option<(UserId, Entry)>)
    requires DbOk(db, clock) && WritesLocked(db, held, writes) && TxOk(db, clock, held, writes, credit)
    ensures DbOk(Overlay(db, writes), clock)
  {
    TxKeepsPayments(db, clock, held, writes, credit);
  }

  lemma OthersSurvive(s: State, t: State, w: Wid)
    requires Inv(s) && t.clock == s.clock && DbOk(t.db, t.clock)
    requires forall v | v != w ::
               WorkerOf(t, v) == WorkerOf(s, v) && Held(t, v) == Held(s, v) && Rely(s.db, t.db, Held(s, v))
    requires WorkerOk(t.db, t.clock, Held(t, w), WorkerOf(t, w))
    ensures Inv(t)
  {
    forall v: Wid ensures WorkerOk(t.db, t.clock, Held(t, v), WorkerOf(t, v)) {
      if v != w {
        assert WorkerOk(s.db, s.clock, Held(s, v), WorkerOf(s, v));
        WorkerIsStable(s.db, t.db, s.clock, Held(s, v), WorkerOf(s, v));
      }
    }
  }

  lemma ReleasedLocks(s: State, t: State, w: Wid)
    requires t.locks == Without(s.locks, w)
    ensures Held(t, w) == {} && forall v | v != w :: Held(t, v) == Held(s, v)
  {
  }

  lemma ResumeOk(db: Db, clock: Time, next: Next)
    requires next.ToMark? || NextOk(db, next)
    ensures !Busy(Resume(next)) && QuietOk(db, clock, {}, Resume(next))
  {
  }

  lemma CommitKeepsInv(s: State, w: Wid, next: Next)
    requires Inv(s) && WorkerOf(s, w).pc == Committing(next)
    ensures Inv(Commit(s, w, Resume(next)))
    ensures DbGrows(s.db, Commit(s, w, Resume(next)).db)
  {
    var t, me, held := Commit(s, w, Resume(next)), WorkerOf(s, w), Held(s, w);
    assert WorkerOk(s.db, s.clock, held, me);
    TxGrows(s.db, s.clock, held, me.writes, me.credit);
    TxKeepsDb(s.db, s.clock, held, me.writes, me.credit);
    ReleasedLocks(s, t, w);
    ResumeOk(t.db, t.clock, next);
    forall v | v != w ensures Rely(s.db, t.db, Held(s, v)) {
      forall k | k in Held(s, v) ensures Spares(s.db, t.db, k) {
        TxSpares(s.db, s.clock, held, me.writes, me.credit, k);
      }
    }
    OthersSurvive(s, t, w);
  }

  lemma IdleCommitKeepsInv(s: State, w: Wid)
    requires Inv(s) && WorkerOf(s, w).pc.Idle?
    ensures Inv(Commit(s, w, Idle)) && Commit(s, w, Idle).db == s.db
  {
    assert WorkerOk(s.db, s.clock, Held(s, w), WorkerOf(s, w));
    QuietView(s, w);
    ReleasedLocks(s, Commit(s, w, Idle), w);
    OthersSurvive(s, Commit(s, w, Idle), w);
  }

  lemma KillKeepsInv(s: State, w: Wid)
    requires Inv(s)
    ensures Inv(Kill(s, w)) && Kill(s, w).db == s.db
  {
    ReleasedLocks(s, Kill(s, w), w);
    OthersSurvive(s, Kill(s, w), w);
  }

  lemma RowsAppear(s: State, t: State, w: Wid)
    requires Inv(s) && t.clock == s.clock && t.locks == s.locks
    requires DbOk(t.db, t.clock) && DbGrows(s.db, t.db)
    requires t.db.subs == s.db.subs
    requires forall p | p in s.db.payments :: t.db.payments[p] == s.db.payments[p]
    requires forall p | p in t.db.payments && t.db.payments[p].applied.Some? :: p in s.db.payments
    requires forall u | u in s.db.users :: t.db.users[u] == s.db.users[u]
    requires forall v | v != w :: WorkerOf(t, v) == WorkerOf(s, v)
    requires WorkerOk(t.db, t.clock, Held(s, w), WorkerOf(t, w))
    ensures Inv(t)
  {
    assert forall v :: Held(t, v) == Held(s, v);
    forall v: Wid ensures Rely(s.db, t.db, Held(s, v)) {
      forall k | k in Held(s, v) ensures Spares(s.db, t.db, k) {
      }
    }
    OthersSurvive(s, t, w);
  }

  lemma GrowsFromItself(db: Db)
    ensures DbGrows(db, db)
  {
  }

  lemma RegisterKeepsInv(s: State, w: Wid, u: UserId)
    requires Inv(s) && At(s, w, Idle)
    ensures Inv(Begin(s, w, Register(u))) && DbGrows(s.db, Begin(s, w, Register(u)).db)
  {
    var t := Begin(s, w, Register(u));
    if t != s {
      RowsAppear(s, t, w);
    }
  }

  lemma FreshInvoiceKeepsDb(db: Db, p: PayId, row: Payment, clock: Time)
    requires DbOk(db, clock) && p !in db.payments
    requires row.applied.None? && row.status.Pending? && row.target.None? && row.paidAt.None?
    ensures var after := db.(payments := db.payments[p := row]);
            DbOk(after, clock) && DbGrows(db, after)
  {
  }

  lemma InvoiceKeepsInv(s: State, w: Wid, program: Program)
    requires Inv(s) && At(s, w, Idle) && program.Invoice?
    ensures Inv(Begin(s, w, program)) && DbGrows(s.db, Begin(s, w, program).db)
  {
    var t := Begin(s, w, program);
    hide PaymentOk, NamedRows;
    if t == s {
      GrowsFromItself(s.db);
    } else {
      FreshInvoiceKeepsDb(s.db, program.pay, t.db.payments[program.pay], s.clock);
      hide DbOk, DbGrows;
      RowsAppear(s, t, w);
    }
  }

  /** Taps and jobs that only set a worker going. */
  lemma StartStep(s: State, w: Wid, program: Program)
    requires Inv(s) && At(s, w, Idle)
    requires !program.Register? && !program.Invoice? && !program.RevokeTap? && !program.Remind?
    ensures OwnStep(s, Begin(s, w, program), w)
  {
    var pc :=
      match program
      case Finalize(p) => Locking(p)
      case LateSweep(p) => Reopening(p)
      case ExpireStale => Closing
      case TrialTap(u) => Waiting(u, Try)
      case GrantTap(u, days) => Waiting(u, Grant(days, s.clock))
      case SyncExpired => Syncing(s.clock)
      case Reconcile(u) => Examining(u);
    PutStep(s, w, WorkerOf(s, w).(pc := pc));
  }

  lemma RevokeStep(s: State, w: Wid, u: UserId)
    requires Inv(s) && At(s, w, Idle)
    ensures var t := Begin(s, w, RevokeTap(u)); t == s || OwnStep(s, t, w)
  {
    QuietView(s, w);
    var me, copy := WorkerOf(s, w), Cached(s, w, u);
    if copy.Some? {
      var edited := copy.value.(status := Revoked);
      PutStep(s, w, me.(pc := Flushing(u, copy.value, edited, ToBlock(u, edited)), cache := me.cache[u := copy.value]));
    }
  }

  lemma ListingStep(s: State, w: Wid, u: UserId, stage: Stage, now: Time)
    requires Inv(s) && At(s, w, Idle)
    ensures var t := ListExpiring(s, w, u, stage, now); t == s || OwnStep(s, t, w)
  {
    QuietView(s, w);
    var me, copy := WorkerOf(s, w), Cached(s, w, u);
    if copy.Some? {
      PutStep(s, w, me.(pc := Noticing(u, stage, copy.value), cache := me.cache[u := copy.value]));
    }
  }

  /** Programs that only set a worker going. */
  lemma BeginningStep(s: State, w: Wid, program: Program)
    requires Inv(s) && At(s, w, Idle) && !program.Register? && !program.Invoice?
    ensures var t := Begin(s, w, program); t == s || OwnStep(s, t, w)
  {
    hide Inv, At, OwnStep, ListExpiring;
    if program.RevokeTap? {
      RevokeStep(s, w, program.user);
    } else if program.Remind? {
      ListingStep(s, w, program.user, program.stage, program.now);
    } else {
      StartStep(s, w, program);
    }
  }

  lemma BeginKeepsInv(s: State, w: Wid, program: Program)
    requires Inv(s) && At(s, w, Idle)
    ensures Inv(Begin(s, w, program)) && DbGrows(s.db, Begin(s, w, program).db)
  {
    hide Begin, Inv, At, DbGrows;
    if program.Register? {
      RegisterKeepsInv(s, w, program.user);
    } else if program.Invoice? {
      InvoiceKeepsInv(s, w, program);
    } else {
      var t := Begin(s, w, program);
      BeginningStep(s, w, program);
      GrowsFromItself(s.db);
      if t != s {
        OwnStepKeepsInv(s, t, w);
      }
    }
  }

  lemma LaterIsFine(db: Db, clock: Time, later: Time, held: set<Lock>, worker: Worker)
    requires clock <= later && WorkerOk(db, clock, held, worker)
    ensures WorkerOk(db, later, held, worker)
  {
  }

  lemma TickKeepsInv(s: State, elapsed: nat)
    requires Inv(s)
    ensures Inv(s.(clock := s.clock + elapsed))
  {
    var t := s.(clock := s.clock + elapsed);
    forall v: Wid ensures WorkerOk(t.db, t.clock, Held(t, v), WorkerOf(t, v)) {
      assert Held(t, v) == Held(s, v);
      LaterIsFine(s.db, s.clock, t.clock, Held(s, v), WorkerOf(s, v));
    }
  }

  // ---- every step, every run -----------------------------------------------

  lemma AtItsPc(s: State, w: Wid)
    requires Inv(s)
    ensures At(s, w, WorkerOf(s, w).pc)
  {
    assert WorkerOk(s.db, s.clock, Held(s, w), WorkerOf(s, w));
  }

  lemma FunnelStep(s: State, w: Wid, c: Choice)
    requires Inv(s) && !c.Crash?
    requires var pc := WorkerOf(s, w).pc;
             pc.Locking? || pc.Asking? || pc.Pricing? || pc.Marking? || pc.Applying? || pc.Delivering?
    ensures Step(s, w, c) == s || OwnStep(s, Step(s, w, c), w)
  {
    hide OwnStep, At, WorkerOk, DbOk, LockForFinalize, Ask, Price, MarkPaid, Apply, MarkProvisioned;
    AtItsPc(s, w);
    match WorkerOf(s, w).pc
    case Locking(p) => LockForFinalizeStep(s, w, p);
    case Asking(p) => if c.Provider? { AskStep(s, w, p, c.verdict); }
    case Pricing(p) => PriceStep(s, w, p);
    case Marking(p, now, target) => MarkPaidStep(s, w, p, now, target);
    case Applying(p) => ApplyStep(s, w, p);
    case Delivering(p) => MarkProvisionedStep(s, w, p);
  }

  lemma LockedStep(s: State, w: Wid, c: Choice)
    requires Inv(s) && !c.Crash?
    requires var pc := WorkerOf(s, w).pc;
             pc.Waiting? || pc.Reading? || pc.Claiming? || pc.Crediting? || pc.Latching? || pc.Inserting?
    ensures Step(s, w, c) == s || OwnStep(s, Step(s, w, c), w)
  {
    hide OwnStep, At, WorkerOk, DbOk, WaitForUser, LockByUser, Claim, CreditDays, LatchTrial, Insert;
    AtItsPc(s, w);
    match WorkerOf(s, w).pc
    case Waiting(u, job) => WaitForUserStep(s, w, u, job);
    case Reading(u, job) => LockByUserStep(s, w, u, job, if c.TrialDays? then c.days else 0);
    case Claiming(u, p, now, copy) => ClaimStep(s, w, u, p, now, copy);
    case Crediting(u, p, now, copy) => CreditDaysStep(s, w, u, p, now, copy);
    case Latching(u, now, days) => LatchTrialStep(s, w, u, now, days);
    case Inserting(u, row, next) => InsertStep(s, w, u, row, next);
  }

  lemma FlushStep(s: State, w: Wid, c: Choice)
    requires Inv(s) && !c.Crash? && WorkerOf(s, w).pc.Flushing?
    ensures Step(s, w, c) == s || OwnStep(s, Step(s, w, c), w)
  {
    AtItsPc(s, w);
    var Flushing(u, loaded, edited, next) := WorkerOf(s, w).pc;
    if WorkerOf(s, w).credit.Some? {
      RenewingStep(s, w, u, loaded, edited, next);
    } else {
      EditingStep(s, w, u, loaded, edited, next);
    }
  }

  /** The panel did not answer, or the invoice was issued: nothing left to do. */
  lemma GiveUpStep(s: State, w: Wid)
    requires WorkerOf(s, w).pc.Calling? || WorkerOf(s, w).pc.Invoiced?
    requires At(s, w, WorkerOf(s, w).pc)
    ensures OwnStep(s, Jump(s, w, Idle), w)
  {
    PutStep(s, w, WorkerOf(s, w).(pc := Idle));
  }

  lemma SyncStep(s: State, w: Wid, c: Choice)
    requires Inv(s) && !c.Crash?
    requires var pc := WorkerOf(s, w).pc; pc.Refreshing? || pc.Calling? || pc.Examining? || pc.Repairing?
    ensures Step(s, w, c) == s || OwnStep(s, Step(s, w, c), w)
  {
    hide OwnStep, At, WorkerOk, DbOk, Refresh, PanelAnswered, Examine, RepairRow;
    AtItsPc(s, w);
    match WorkerOf(s, w).pc
    case Refreshing(u, call, p) => RefreshStep(s, w, u, call, p);
    case Calling(u, call, copy, p) =>
      if c.PanelOk? {
        PanelAnsweredStep(s, w, u, call, copy, p, c.token);
      } else if c.PanelError? {
        GiveUpStep(s, w);
      }
    case Examining(u) => ExamineStep(s, w, u);
    case Repairing(u, copy) => if c.Fix? { RepairStep(s, w, u, copy, c.repair); }
  }

  lemma RescueStep(s: State, w: Wid, c: Choice)
    requires Inv(s) && !c.Crash?
    requires var pc := WorkerOf(s, w).pc; pc.Invoiced? || pc.Reopening?
    ensures Step(s, w, c) == s || OwnStep(s, Step(s, w, c), w)
  {
    hide DbOk, MarkExpired, Reopen;
    AtItsPc(s, w);
    match WorkerOf(s, w).pc
    case Invoiced(p) =>
      if c.Refused? {
        MarkExpiredStep(s, w, p);
      } else {
        GiveUpStep(s, w);
      }
    case Reopening(p) => ReopenStep(s, w, p);
  }

  lemma BatchStep(s: State, w: Wid, c: Choice)
    requires Inv(s) && !c.Crash?
    requires var pc := WorkerOf(s, w).pc; pc.Closing? || pc.Syncing?
    ensures Step(s, w, c) == s || OwnStep(s, Step(s, w, c), w)
  {
    hide OwnStep, At, WorkerOk, DbOk, MarkExpired, ExpireSub;
    AtItsPc(s, w);
    match WorkerOf(s, w).pc
    case Closing =>
      if c.ExpirePayment? {
        ClosingStep(s, w, c.pay);
      } else {
        FinishStep(s, w);
      }
    case Syncing(moment) =>
      if c.ExpireSubscription? {
        SyncingStep(s, w, c.user, moment);
      } else {
        FinishStep(s, w);
      }
  }

  lemma RemindStep(s: State, w: Wid, c: Choice)
    requires Inv(s) && !c.Crash? && WorkerOf(s, w).pc.Noticing?
    ensures Step(s, w, c) == s || OwnStep(s, Step(s, w, c), w)
  {
    hide OwnStep, At, WorkerOk, DbOk, Notice;
    AtItsPc(s, w);
    var Noticing(u, stage, copy) := WorkerOf(s, w).pc;
    NoticeStep(s, w, u, stage, copy);
  }

  /** No worker ever gets stuck in an error of the protocol's own making. */
  lemma NeverRaised(s: State, w: Wid)
    requires Inv(s)
    ensures !WorkerOf(s, w).pc.Raised?
  {
    assert WorkerOk(s.db, s.clock, Held(s, w), WorkerOf(s, w));
  }

  lemma WorkerStep(s: State, w: Wid, c: Choice)
    requires Inv(s) && !c.Crash? && !WorkerOf(s, w).pc.Idle? && !WorkerOf(s, w).pc.Committing?
    ensures Inv(Step(s, w, c)) && Step(s, w, c).db == s.db && Step(s, w, c).clock == s.clock
    ensures Step(s, w, c) == s || OwnStep(s, Step(s, w, c), w)
  {
    var pc := WorkerOf(s, w).pc;
    NeverRaised(s, w);
    if pc.Locking? || pc.Asking? || pc.Pricing? || pc.Marking? || pc.Applying? || pc.Delivering? {
      FunnelStep(s, w, c);
    } else if pc.Waiting? || pc.Reading? || pc.Claiming? || pc.Crediting? || pc.Latching? || pc.Inserting? {
      LockedStep(s, w, c);
    } else if pc.Flushing? {
      FlushStep(s, w, c);
    } else if pc.Refreshing? || pc.Calling? || pc.Examining? || pc.Repairing? {
      SyncStep(s, w, c);
    } else if pc.Invoiced? || pc.Reopening? {
      RescueStep(s, w, c);
    } else if pc.Noticing? {
      RemindStep(s, w, c);
    } else {
      BatchStep(s, w, c);
    }
    if Step(s, w, c) != s {
      OwnStepKeepsInv(s, Step(s, w, c), w);
    }
  }

  lemma IdleStep(s: State, w: Wid, c: Choice)
    requires Inv(s) && !c.Crash? && WorkerOf(s, w).pc.Idle?
    ensures Inv(Step(s, w, c)) && DbGrows(s.db, Step(s, w, c).db) && Step(s, w, c).clock == s.clock
  {
    hide Inv, At, OwnStep;
    AtItsPc(s, w);
    if c.Start? {
      BeginKeepsInv(s, w, c.program);
    } else {
      IdleCommitKeepsInv(s, w);
    }
  }

  lemma CommittingStep(s: State, w: Wid, c: Choice)
    requires Inv(s) && !c.Crash? && WorkerOf(s, w).pc.Committing?
    ensures Inv(Step(s, w, c)) && DbGrows(s.db, Step(s, w, c).db) && Step(s, w, c).clock == s.clock
  {
    hide Inv, DbGrows;
    CommitKeepsInv(s, w, WorkerOf(s, w).pc.next);
  }

  lemma AdvanceKeepsInv(s: State, a: Action)
    requires Inv(s)
    ensures Inv(Advance(s, a)) && DbGrows(s.db, Advance(s, a).db) && s.clock <= Advance(s, a).clock
  {
    match a
    case Tick(elapsed) => TickKeepsInv(s, elapsed);
    case Act(w, c) =>
      if c.Crash? {
        KillKeepsInv(s, w);
      } else if WorkerOf(s, w).pc.Idle? {
        IdleStep(s, w, c);
      } else if WorkerOf(s, w).pc.Committing? {
        CommittingStep(s, w, c);
      } else {
        WorkerStep(s, w, c);
      }
  }

  lemma {:induction false} RunKeepsInv(clock: Time, schedule: seq<Action>)
    ensures Inv(Run(Start0(clock), schedule))
  {
    if schedule != [] {
      var before := schedule[..|schedule| - 1];
      RunKeepsInv(clock, before);
      AdvanceKeepsInv(Run(Start0(clock), before), schedule[|schedule| - 1]);
    }
  }
}
