/** The money-to-access protocol as a step machine: any number of workers, each
    with a program counter, row and advisory locks, uncommitted writes and a
    session cache that nobody refreshes. One SQL statement, one commit or one
    HTTP call is one step; a worker may die between any two of them.

    The machine is total. A blocked or senseless choice leaves the state alone,
    so every sequence of actions is a run. */
module Protocol {
  import opened Model
  import opened Ledger

  type Wid = nat

  const NOTHING: Db := Db(map[], map[], map[])

  function Overlay(db: Db, writes: Db): Db {
    Db(db.payments + writes.payments, db.subs + writes.subs, db.users + writes.users)
  }

  datatype Lock = UserLock(user: UserId) | PayRow(pay: PayId) | SubRow(user: UserId) | UserRow(user: UserId)

  /** Who asks for the user's lock, with the moment it read beforehand. The trial
      reads its own moment afterwards. */
  datatype Job = Buy(pay: PayId, now: Time) | Try | Grant(days: nat, now: Time)

  datatype Call = Provision | Push | Block

  /** Where a worker goes once its commit returns. */
  datatype Next =
    | ToIdle
    | ToLock(pay: PayId)
    | ToApply(pay: PayId)
    | ToSync(user: UserId, call: Call, buyer: Option<PayId>)
    | ToBlock(user: UserId, copy: Subscription)
    | ToDeliver(pay: PayId)
    | ToMark(user: UserId, stage: Stage)
    | ToRaise

  datatype Pc =
    | Idle
    | Locking(pay: PayId)
    | Asking(pay: PayId)
    | Pricing(pay: PayId)
    | Marking(pay: PayId, now: Time, target: Time)
    | Applying(pay: PayId)
    | Waiting(user: UserId, job: Job)
    | Reading(user: UserId, job: Job)
    | Claiming(user: UserId, pay: PayId, now: Time, found: Option<Subscription>)
    | Crediting(user: UserId, pay: PayId, now: Time, found: Option<Subscription>)
    | Latching(user: UserId, now: Time, days: nat)
    | Inserting(user: UserId, row: Subscription, next: Next)
    | Flushing(user: UserId, loaded: Subscription, edited: Subscription, next: Next)
    | Committing(next: Next)
    | Refreshing(user: UserId, call: Call, buyer: Option<PayId>)
    | Calling(user: UserId, call: Call, copy: Subscription, buyer: Option<PayId>)
    | Delivering(pay: PayId)
    | Invoiced(pay: PayId)
    | Reopening(pay: PayId)
    | Closing
    | Syncing(moment: Time)
    | Examining(user: UserId)
    | Repairing(user: UserId, copy: Subscription)
    | Noticing(user: UserId, stage: Stage, copy: Subscription)
    | Raised

  /** `credit` remembers which grant the open transaction carries; no step reads it. */
  datatype Worker = Worker(pc: Pc, writes: Db, cache: map<UserId, Subscription>, credit: Option<(UserId, Entry)>)

  const FRESH: Worker := Worker(Idle, NOTHING, map[], None)

  datatype State = State(db: Db, workers: map<Wid, Worker>, locks: map<Lock, Wid>, clock: Time)

  datatype Program =
    | Register(user: UserId)
    | Invoice(pay: PayId, user: UserId, tariff: Tariff, created: Time, ttl: nat)
    | Finalize(pay: PayId)
    | LateSweep(pay: PayId)
    | ExpireStale
    | TrialTap(user: UserId)
    | GrantTap(user: UserId, days: nat)
    | RevokeTap(user: UserId)
    | SyncExpired
    | Reconcile(user: UserId)
    | Remind(user: UserId, stage: Stage, now: Time)

  datatype Verdict = SaysPaid | SaysPending | SaysExpired | SaysCanceled | Unreachable

  datatype Repair = Nothing | Create | Extend | PushOnly | Settle(token: Option<Token>, enabled: bool)

  /** What the environment decides: which button is tapped, what the provider or
      the panel answers, which row a sweep visits, who crashes. */
  datatype Choice =
    | Go
    | Start(program: Program)
    | Provider(verdict: Verdict)
    | PanelOk(token: Option<Token>)
    | PanelError
    | Refused
    | ExpirePayment(pay: PayId)
    | ExpireSubscription(user: UserId)
    | Fix(repair: Repair)
    | TrialDays(days: nat)
    | Crash

  datatype Action = Tick(elapsed: nat) | Act(worker: Wid, choice: Choice)

  // ---- plumbing ------------------------------------------------------------

  function WorkerOf(s: State, w: Wid): Worker {
    if w in s.workers then s.workers[w] else FRESH
  }

  function Put(s: State, w: Wid, worker: Worker): State {
    s.(workers := s.workers[w := worker])
  }

  function Jump(s: State, w: Wid, pc: Pc): State {
    Put(s, w, WorkerOf(s, w).(pc := pc))
  }

  function View(s: State, w: Wid): Db {
    Overlay(s.db, WorkerOf(s, w).writes)
  }

  predicate CanTake(s: State, w: Wid, k: Lock) {
    k in s.locks ==> s.locks[k] == w
  }

  function Take(s: State, w: Wid, k: Lock): State {
    s.(locks := s.locks[k := w])
  }

  function Without(locks: map<Lock, Wid>, w: Wid): map<Lock, Wid> {
    map k | k in locks && locks[k] != w :: locks[k]
  }

  /** The row is read into the session and the worker moves on. */
  function Load(s: State, w: Wid, u: UserId, row: Subscription, pc: Pc): State {
    var worker := WorkerOf(s, w);
    Put(s, w, worker.(pc := pc, cache := worker.cache[u := row]))
  }

  /** A plain SELECT through the session: an object already in the identity map
      keeps the attributes it was loaded with. */
  function Cached(s: State, w: Wid, u: UserId): Option<Subscription> {
    var view, cache := View(s, w).subs, WorkerOf(s, w).cache;
    if u !in view then None else Some(if u in cache then cache[u] else view[u])
  }

  /** UPDATE payments ... WHERE id = p AND <hit>: waits for the row only if it matches. */
  function UpdatePayment(s: State, w: Wid, p: PayId, hit: bool, row: Payment, yes: Pc, no: Pc): State {
    if !hit then Jump(s, w, no)
    else if !CanTake(s, w, PayRow(p)) then s
    else
      var worker := WorkerOf(s, w);
      Put(Take(s, w, PayRow(p)), w,
          worker.(pc := yes, writes := worker.writes.(payments := worker.writes.payments[p := row])))
  }

  /** A private write of `row`; the session keeps the object as `copy`. */
  function WriteSub(s: State, w: Wid, u: UserId, row: Subscription, copy: Subscription, pc: Pc): State {
    var worker := WorkerOf(s, w);
    Put(Take(s, w, SubRow(u)), w,
        worker.(pc := pc,
                writes := worker.writes.(subs := worker.writes.subs[u := row]),
                cache := worker.cache[u := copy]))
  }

  /** The unit of work's UPDATE names only the columns whose value differs from
      the one the object was loaded with. */
  function Flush(loaded: Subscription, edited: Subscription, row: Subscription): Subscription {
    row.(status := if edited.status != loaded.status then edited.status else row.status,
         expires := if edited.expires != loaded.expires then edited.expires else row.expires,
         devices := if edited.devices != loaded.devices then edited.devices else row.devices,
         token := if edited.token != loaded.token then edited.token else row.token,
         provisionedAt :=
           if edited.provisionedAt != loaded.provisionedAt then edited.provisionedAt else row.provisionedAt,
         synced := if edited.synced != loaded.synced then edited.synced else row.synced,
         stage := if edited.stage != loaded.stage then edited.stage else row.stage)
  }

  function Resume(next: Next): Pc {
    match next
    case ToIdle => Idle
    case ToLock(p) => Locking(p)
    case ToApply(p) => Applying(p)
    case ToSync(u, call, p) => Refreshing(u, call, p)
    case ToBlock(u, copy) => Calling(u, Block, copy, None)
    case ToDeliver(p) => Delivering(p)
    case ToMark(_, _) => Idle
    case ToRaise => Raised
  }

  /** All private writes land at once and every lock is released. */
  function Commit(s: State, w: Wid, pc: Pc): State {
    var worker := WorkerOf(s, w);
    State(View(s, w), s.workers[w := Worker(pc, NOTHING, worker.cache, None)], Without(s.locks, w), s.clock)
  }

  /** A crash, a deadlock victim or a closed session: private writes vanish. */
  function Kill(s: State, w: Wid): State {
    s.(workers := s.workers[w := FRESH], locks := Without(s.locks, w))
  }

  // ---- check_and_finalize --------------------------------------------------

  /** SELECT ... FOR UPDATE SKIP LOCKED, refreshing the copy, then the branch on its status. */
  function LockForFinalize(s: State, w: Wid, p: PayId): State {
    var view := View(s, w).payments;
    if p !in view || !CanTake(s, w, PayRow(p)) then Jump(s, w, Idle)
    else
      match view[p].status
      case Provisioned => Jump(Take(s, w, PayRow(p)), w, Idle)
      case Paid => Jump(Take(s, w, PayRow(p)), w, Applying(p))
      case Pending => Jump(Take(s, w, PayRow(p)), w, Asking(p))
      case Expired => Jump(Take(s, w, PayRow(p)), w, Idle)
      case Canceled => Jump(Take(s, w, PayRow(p)), w, Idle)
  }

  function MarkExpired(s: State, w: Wid, p: PayId, pc: Pc): State {
    var view := View(s, w).payments;
    if p !in view then Jump(s, w, pc)
    else UpdatePayment(s, w, p, view[p].status.Pending?, view[p].(status := PaymentStatus.Expired), pc, pc)
  }

  function Ask(s: State, w: Wid, p: PayId, verdict: Verdict): State {
    match verdict
    case SaysPaid => Jump(s, w, Pricing(p))
    case SaysPending => Jump(s, w, Idle)
    case Unreachable => Jump(s, w, Idle)
    case SaysExpired => MarkExpired(s, w, p, Committing(ToIdle))
    case SaysCanceled => MarkExpired(s, w, p, Committing(ToIdle))
  }

  /** _mark_paid reads the subscription through the cache: the target is a projection. */
  function Price(s: State, w: Wid, p: PayId): State {
    var view := View(s, w).payments;
    if p !in view then Jump(s, w, Raised)
    else
      var row := view[p];
      var sub := Cached(s, w, row.user);
      var base := if sub.Some? && sub.value.expires > s.clock then sub.value.expires else s.clock;
      var next := Marking(p, s.clock, base + row.tariff.duration);
      if sub.Some? then Load(s, w, row.user, sub.value, next) else Jump(s, w, next)
  }

  function MarkPaid(s: State, w: Wid, p: PayId, now: Time, target: Time): State {
    var view := View(s, w).payments;
    if p !in view then Jump(s, w, Committing(ToIdle))
    else UpdatePayment(s, w, p, view[p].status.Pending?,
                       view[p].(status := Paid, paidAt := Some(now), target := Some(target)),
                       Committing(ToApply(p)), Committing(ToIdle))
  }

  /** _apply_days reads the clock before it waits for anything. */
  function Apply(s: State, w: Wid, p: PayId): State {
    var view := View(s, w).payments;
    if p !in view then Jump(s, w, Raised) else Jump(s, w, Waiting(view[p].user, Buy(p, s.clock)))
  }

  /** pg_advisory_xact_lock: blocks until it is free. */
  function WaitForUser(s: State, w: Wid, u: UserId, job: Job): State {
    if !CanTake(s, w, UserLock(u)) then s else Jump(Take(s, w, UserLock(u)), w, Reading(u, job))
  }

  /** SELECT ... FOR UPDATE with populate_existing, and what each caller does next. */
  function LockByUser(s: State, w: Wid, u: UserId, job: Job, days: nat): State {
    var view, worker := View(s, w).subs, WorkerOf(s, w);
    if u !in view then Put(s, w, Found(worker, s.clock, u, job, None, days))
    else if !CanTake(s, w, SubRow(u)) then s
    else Put(Take(s, w, SubRow(u)), w, Found(worker.(cache := worker.cache[u := view[u]]), s.clock, u, job,
                                             Some(view[u]), days))
  }

  function Found(worker: Worker, clock: Time, u: UserId, job: Job, copy: Option<Subscription>, days: nat): Worker {
    match job
    case Buy(p, now) => worker.(pc := Claiming(u, p, now, copy))
    case Try =>
      if copy.None? then worker.(pc := Latching(u, clock, days))
      else if copy.value.token.None? && copy.value.status.Pending? && copy.value.origin.Trial? then
        worker.(pc := Committing(ToSync(u, Provision, None)))
      else worker.(pc := Committing(ToIdle))
    case Grant(extra, now) =>
      if copy.None? then
        worker.(pc := Inserting(u, NewSubscription(u, now, now + extra, AdminGrant, DEFAULT_MAX_DEVICES),
                                ToSync(u, Provision, None)),
                credit := Some((u, Granted(now, extra))))
      else
        var until := Max(now, copy.value.expires) + extra;
        worker.(pc := Flushing(u, copy.value, ExtendTo(copy.value, until), ToSync(u, Push, None)),
                credit := Some((u, Granted(now, extra))))
  }

  function SyncCall(copy: Option<Subscription>): Call {
    if copy.None? || copy.value.token.None? then Provision else Push
  }

  /** mark_days_applied: the latch as claimed, not as read. */
  function Claim(s: State, w: Wid, u: UserId, p: PayId, now: Time, copy: Option<Subscription>): State {
    var view := View(s, w).payments;
    var lost := Committing(if copy.None? then ToRaise else ToSync(u, SyncCall(copy), Some(p)));
    if p !in view then Jump(s, w, lost)
    else UpdatePayment(s, w, p, view[p].applied.None?, view[p].(applied := Some(now)), Crediting(u, p, now, copy), lost)
  }

  /** Applied payments of the user other than `p`. */
  function OthersApplied(db: Db, u: UserId, p: PayId): set<PayId> {
    set q | q in db.payments && db.payments[q].user == u && db.payments[q].applied.Some? && q != p
  }

  /** `newest is None or payment.created_at >= newest`. */
  predicate IsNewest(db: Db, u: UserId, p: PayId)
    requires p in db.payments
  {
    forall q | q in OthersApplied(db, u, p) :: db.payments[q].created <= db.payments[p].created
  }

  function CreditDays(s: State, w: Wid, u: UserId, p: PayId, now: Time, copy: Option<Subscription>): State {
    var view := View(s, w);
    if p !in view.payments then Jump(s, w, Raised)
    else
      var row := view.payments[p];
      var bought := Ledger.Invoice(p, row.tariff, row.created);
      var worker := WorkerOf(s, w).(credit := Some((u, Bought(bought, now))));
      var next := ToSync(u, SyncCall(copy), Some(p));
      if copy.None? then
        var created := NewSubscription(u, now, now + row.tariff.duration, Purchase, row.tariff.devices);
        Put(s, w, worker.(pc := Inserting(u, created, next)))
      else
        var renewed := Renew(copy.value, now, row.tariff, IsNewest(view, u, p));
        Put(s, w, worker.(pc := Flushing(u, copy.value, renewed, next)))
  }

  /** INSERT: waits for a concurrent insert of the same user, and then collides with it. */
  function Insert(s: State, w: Wid, u: UserId, row: Subscription, next: Next): State {
    if !CanTake(s, w, SubRow(u)) then s
    else if u in View(s, w).subs then Jump(s, w, Raised)
    else WriteSub(s, w, u, row, row, Committing(next))
  }

  function FlushChanges(s: State, w: Wid, u: UserId, loaded: Subscription, edited: Subscription, next: Next): State {
    if loaded == edited then Jump(s, w, Committing(next))
    else if u !in View(s, w).subs then Jump(s, w, Raised)
    else if !CanTake(s, w, SubRow(u)) then s
    else WriteSub(s, w, u, Flush(loaded, edited, View(s, w).subs[u]), edited, Committing(next))
  }

  function Refresh(s: State, w: Wid, u: UserId, call: Call, p: Option<PayId>): State {
    var view := View(s, w).subs;
    if u !in view then Jump(s, w, Raised)
    else Load(s, w, u, view[u], Calling(u, call, view[u], p))
  }

  /** The panel may answer anything, or nothing: the answer only supplies a token. */
  function PanelAnswered(s: State, w: Wid, u: UserId, call: Call, copy: Subscription, p: Option<PayId>,
                         token: Option<Token>): State {
    var edited :=
      match call
      case Provision => AfterProvision(copy, token, s.clock)
      case Push => AfterPush(copy, token, s.clock)
      case Block => copy.(synced := Some(s.clock));
    Jump(s, w, Flushing(u, copy, edited, if p.Some? then ToDeliver(p.value) else ToIdle))
  }

  function MarkProvisioned(s: State, w: Wid, p: PayId): State {
    var view := View(s, w).payments;
    if p !in view then Jump(s, w, Committing(ToIdle))
    else UpdatePayment(s, w, p, view[p].status.Paid?,
                       view[p].(status := Provisioned, provisionedAt := Some(s.clock)),
                       Committing(ToIdle), Committing(ToIdle))
  }

  // ---- the other writers ---------------------------------------------------

  function Reopen(s: State, w: Wid, p: PayId): State {
    var view := View(s, w).payments;
    if p !in view then Jump(s, w, Idle)
    else UpdatePayment(s, w, p, view[p].status.Expired?, view[p].(status := PaymentStatus.Pending),
                       Committing(ToLock(p)), Idle)
  }

  /** mark_trial_used: the latch, for a registered user who has not spent it. */
  function LatchTrial(s: State, w: Wid, u: UserId, now: Time, days: nat): State {
    var view := View(s, w).users;
    if u !in view || view[u].Some? then Jump(s, w, Committing(ToIdle))
    else if !CanTake(s, w, UserRow(u)) then s
    else
      var worker := WorkerOf(s, w);
      Put(Take(s, w, UserRow(u)), w,
          worker.(pc := Inserting(u, NewSubscription(u, now, now + days, Trial, DEFAULT_MAX_DEVICES),
                                  ToSync(u, Provision, None)),
                  writes := worker.writes.(users := worker.writes.users[u := Some(now)]),
                  credit := Some((u, Tried(now, days)))))
  }

  function ExpireSub(s: State, w: Wid, u: UserId, moment: Time): State {
    var view := View(s, w).subs;
    if u !in view || !view[u].status.Active? || view[u].expires > moment then s
    else if !CanTake(s, w, SubRow(u)) then s
    else WriteSub(s, w, u, ExpireRow(view[u]), ExpireRow(view[u]), Syncing(moment))
  }

  function Examine(s: State, w: Wid, u: UserId): State {
    var view := View(s, w).subs;
    if u !in view then Jump(s, w, Idle) else Load(s, w, u, view[u], Repairing(u, view[u]))
  }

  function RepairRow(s: State, w: Wid, u: UserId, copy: Subscription, repair: Repair): State {
    if copy.Closed() then Jump(s, w, Idle)
    else
      match repair
      case Nothing => Jump(s, w, Idle)
      case Create => Jump(s, w, Refreshing(u, Provision, None))
      case PushOnly => Jump(s, w, Refreshing(u, Push, None))
      case Extend => Jump(s, w, Flushing(u, copy, ExtendTo(copy, copy.expires), ToSync(u, Push, None)))
      case Settle(token, enabled) => Jump(s, w, Flushing(u, copy, AfterSettle(copy, token, enabled, s.clock), ToIdle))
  }

  /** A reminder pass that began at `now` finds the row in its listing. The query
      sees the committed row; the object may be one loaded earlier. */
  function ListExpiring(s: State, w: Wid, u: UserId, stage: Stage, now: Time): State {
    var view, copy := View(s, w).subs, Cached(s, w, u);
    if now > s.clock || u !in view || !Expiring(view[u], now, stage) || copy.None? then s
    else Load(s, w, u, copy.value, Noticing(u, stage, copy.value))
  }

  /** The row's turn: the loop decides by its copy, mark_notified by the marker
      alone. The date is not looked at again. */
  function Notice(s: State, w: Wid, u: UserId, stage: Stage, copy: Subscription): State {
    var view := View(s, w).subs;
    if copy.stage == Some(stage) || ShortTrial(copy, stage) then Jump(s, w, Idle)
    else if u !in view || view[u].stage == Some(stage) then Jump(s, w, Committing(ToIdle))
    else if !CanTake(s, w, SubRow(u)) then s
    else
      var row := view[u].(stage := Some(stage));
      WriteSub(s, w, u, row, row, Committing(ToMark(u, stage)))
  }

  function Begin(s: State, w: Wid, program: Program): State {
    match program
    case Register(u) => if u in s.db.users then s else s.(db := s.db.(users := s.db.users[u := None]))
    case Invoice(p, u, tariff, created, ttl) =>
      if p in s.db.payments || u !in s.db.users || created > s.clock then s
      else
        var row := Payment(u, tariff, created, Some(s.clock + ttl), PaymentStatus.Pending, None, None, None, None);
        Jump(s.(db := s.db.(payments := s.db.payments[p := row])), w, Invoiced(p))
    case Finalize(p) => Jump(s, w, Locking(p))
    case LateSweep(p) => Jump(s, w, Reopening(p))
    case ExpireStale => Jump(s, w, Closing)
    case TrialTap(u) => Jump(s, w, Waiting(u, Try))
    case GrantTap(u, days) => Jump(s, w, Waiting(u, Grant(days, s.clock)))
    case RevokeTap(u) =>
      var copy := Cached(s, w, u);
      if copy.None? then s
      else
        var edited := copy.value.(status := Revoked);
        Load(s, w, u, copy.value, Flushing(u, copy.value, edited, ToBlock(u, edited)))
    case SyncExpired => Jump(s, w, Syncing(s.clock))
    case Reconcile(u) => Jump(s, w, Examining(u))
    case Remind(u, stage, now) => ListExpiring(s, w, u, stage, now)
  }

  function Step(s: State, w: Wid, c: Choice): State {
    if c.Crash? then Kill(s, w)
    else
      match WorkerOf(s, w).pc
      case Idle => if c.Start? then Begin(s, w, c.program) else Commit(s, w, Idle)
      case Locking(p) => LockForFinalize(s, w, p)
      case Asking(p) => if c.Provider? then Ask(s, w, p, c.verdict) else s
      case Pricing(p) => Price(s, w, p)
      case Marking(p, now, target) => MarkPaid(s, w, p, now, target)
      case Applying(p) => Apply(s, w, p)
      case Waiting(u, job) => WaitForUser(s, w, u, job)
      case Reading(u, job) => LockByUser(s, w, u, job, if c.TrialDays? then c.days else 0)
      case Claiming(u, p, now, copy) => Claim(s, w, u, p, now, copy)
      case Crediting(u, p, now, copy) => CreditDays(s, w, u, p, now, copy)
      case Latching(u, now, days) => LatchTrial(s, w, u, now, days)
      case Inserting(u, row, next) => Insert(s, w, u, row, next)
      case Flushing(u, loaded, edited, next) => FlushChanges(s, w, u, loaded, edited, next)
      case Committing(next) => Commit(s, w, Resume(next))
      case Refreshing(u, call, p) => Refresh(s, w, u, call, p)
      case Calling(u, call, copy, p) =>
        if c.PanelOk? then PanelAnswered(s, w, u, call, copy, p, c.token)
        else if c.PanelError? then Jump(s, w, Idle)
        else s
      case Delivering(p) => MarkProvisioned(s, w, p)
      case Invoiced(p) => if c.Refused? then MarkExpired(s, w, p, Committing(ToIdle)) else Jump(s, w, Idle)
      case Reopening(p) => Reopen(s, w, p)
      case Closing => if c.ExpirePayment? then MarkExpired(s, w, c.pay, Closing) else Jump(s, w, Committing(ToIdle))
      case Syncing(moment) =>
        if c.ExpireSubscription? then ExpireSub(s, w, c.user, moment) else Jump(s, w, Committing(ToIdle))
      case Examining(u) => Examine(s, w, u)
      case Repairing(u, copy) => if c.Fix? then RepairRow(s, w, u, copy, c.repair) else s
      case Noticing(u, stage, copy) => Notice(s, w, u, stage, copy)
      case Raised => s
  }

  function Advance(s: State, a: Action): State {
    match a
    case Tick(elapsed) => s.(clock := s.clock + elapsed)
    case Act(w, c) => Step(s, w, c)
  }

  /** The bot before its first user. */
  function Start0(clock: Time): State {
    State(NOTHING, map[], map[], clock)
  }

  function Run(s: State, schedule: seq<Action>): State {
    if schedule == [] then s
    else Advance(Run(s, schedule[..|schedule| - 1]), schedule[|schedule| - 1])
  }
}
