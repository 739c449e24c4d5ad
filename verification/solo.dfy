/** The step machine and the jobs are one program: a worker that nobody races, with a
    session of its own, takes the committed rows exactly where the jobs take them. */
module Solo {
  import opened Model
  import opened Protocol
  import opened Safety
  import opened Payments
  import Access

  // ---- a worker on its own -------------------------------------------------

  /** Nobody else holds a lock, it is `now`, and the worker at `pc` sees `view`; what its
      session has loaded is what it sees. */
  ghost predicate Sees(s: State, w: Wid, view: Db, pc: Pc, now: Time) {
    && (forall k | k in s.locks :: s.locks[k] == w)
    && View(s, w) == view && WorkerOf(s, w).pc == pc && s.clock == now
    && (Busy(pc) || (WorkerOf(s, w).writes == NOTHING && s.db == view))
    && forall u | u in WorkerOf(s, w).cache :: u in view.subs && WorkerOf(s, w).cache[u] == view.subs[u]
  }

  /** A worker between two programs, with nothing loaded. */
  ghost predicate Rests(s: State, w: Wid, db: Db, now: Time) {
    WorkerOf(s, w) == FRESH && s.db == db && s.clock == now && forall k | k in s.locks :: s.locks[k] == w
  }

  /** It has come to an end, and this is what it has committed. */
  ghost predicate Ends(s: State, w: Wid, db: Db) {
    WorkerOf(s, w).pc.Idle? && WorkerOf(s, w).writes == NOTHING && s.db == db
  }

  /** The choices, one after the other. */
  function Steps(s: State, w: Wid, choices: seq<Choice>): State
    decreases |choices|
  {
    if choices == [] then s else Step(Steps(s, w, choices[..|choices| - 1]), w, choices[|choices| - 1])
  }

  /** The worker gets from `s` to `t` when the environment decides as `may` allows. */
  ghost predicate CanReach(s: State, w: Wid, may: set<Choice>, t: State) {
    exists choices :: (forall c | c in choices :: c in may) && Steps(s, w, choices) == t
  }

  lemma Stays(s: State, w: Wid, may: set<Choice>)
    ensures CanReach(s, w, may, s)
  {
    assert Steps(s, w, []) == s;
  }

  lemma OneMore(s: State, w: Wid, may: set<Choice>, t: State, c: Choice)
    requires CanReach(s, w, may, t) && c in may
    ensures CanReach(s, w, may, Step(t, w, c))
  {
    hide Step;
    var choices :| (forall c | c in choices :: c in may) && Steps(s, w, choices) == t;
    var more := choices + [c];
    assert more[..|more| - 1] == choices;
    assert forall d | d in more :: d in choices || d == c;
    assert Steps(s, w, more) == Step(t, w, c);
  }

  lemma RestsIsIdle(s: State, w: Wid, db: Db, now: Time)
    requires Rests(s, w, db, now)
    ensures Sees(s, w, db, Idle, now)
  {
  }

  lemma Jumps(s: State, w: Wid, view: Db, pc: Pc, now: Time, pc': Pc)
    requires Sees(s, w, view, pc, now) && (!Busy(pc) || Busy(pc'))
    ensures Sees(Jump(s, w, pc'), w, view, pc', now)
  {
  }

  lemma Holds(s: State, w: Wid, view: Db, pc: Pc, now: Time, k: Lock)
    requires Sees(s, w, view, pc, now)
    ensures CanTake(s, w, k) && Sees(Take(s, w, k), w, view, pc, now)
  {
  }

  lemma AtCommitting(t: State, w: Wid, next: Next)
    requires WorkerOf(t, w).pc == Committing(next)
    ensures Step(t, w, Go) == Commit(t, w, Resume(next))
  {
    hide Commit, Resume;
  }

  lemma Commits(s: State, w: Wid, view: Db, next: Next, now: Time)
    requires Sees(s, w, view, Committing(next), now)
    ensures var t := Step(s, w, Go); Sees(t, w, view, Resume(next), now) && t.db == view
    ensures Resume(next).Idle? ==> Ends(Step(s, w, Go), w, view)
  {
    AtCommitting(s, w, next);
    hide Step;
  }

  lemma Updates(s: State, w: Wid, view: Db, pc: Pc, now: Time, p: PayId, hit: bool, row: Payment, yes: Pc, no: Pc)
    requires Sees(s, w, view, pc, now) && (hit ==> Busy(yes)) && (!hit && Busy(pc) ==> Busy(no))
    ensures Sees(UpdatePayment(s, w, p, hit, row, yes, no), w, if hit then WithPayment(view, p, row) else view,
                 if hit then yes else no, now)
  {
    hide Busy;
    if !hit {
      Jumps(s, w, view, pc, now, no);
    } else {
      var writes := WorkerOf(s, w).writes;
      assert s.db.payments + writes.payments[p := row] == (s.db.payments + writes.payments)[p := row];
    }
  }

  lemma Saves(s: State, w: Wid, view: Db, pc: Pc, now: Time, u: UserId, row: Subscription, pc': Pc)
    requires Sees(s, w, view, pc, now) && Busy(pc')
    ensures Sees(WriteSub(s, w, u, row, row, pc'), w, WithSub(view, u, row), pc', now)
  {
    hide Busy;
    var writes := WorkerOf(s, w).writes;
    assert s.db.subs + writes.subs[u := row] == (s.db.subs + writes.subs)[u := row];
  }

  lemma Flushes(s: State, w: Wid, view: Db, now: Time, u: UserId, row: Subscription, edited: Subscription, next: Next)
    requires Sees(s, w, view, Flushing(u, row, edited, next), now) && u in view.subs && view.subs[u] == row
    requires edited.origin == row.origin && edited.created == row.created && edited.panelId == row.panelId
    ensures Sees(FlushChanges(s, w, u, row, edited, next), w, WithSub(view, u, edited), Committing(next), now)
  {
    assert Flush(row, edited, row) == edited;
    if row != edited {
      Saves(s, w, view, Flushing(u, row, edited, next), now, u, edited, Committing(next));
    } else {
      assert view.subs[u := row] == view.subs;
    }
  }

  lemma Inserts(s: State, w: Wid, view: Db, now: Time, u: UserId, row: Subscription, next: Next)
    requires Sees(s, w, view, Inserting(u, row, next), now) && u !in view.subs
    ensures Sees(Insert(s, w, u, row, next), w, WithSub(view, u, row), Committing(next), now)
  {
    Saves(s, w, view, Inserting(u, row, next), now, u, row, Committing(next));
  }

  // ---- how far it gets -----------------------------------------------------

  ghost predicate Gets(s: State, w: Wid, may: set<Choice>, view: Db, pc: Pc, now: Time) {
    exists t :: CanReach(s, w, may, t) && Sees(t, w, view, pc, now)
  }

  ghost predicate Leaves(s: State, w: Wid, may: set<Choice>, db: Db) {
    exists t :: CanReach(s, w, may, t) && Ends(t, w, db)
  }

  lemma GetsCommitted(s: State, w: Wid, may: set<Choice>, view: Db, next: Next, now: Time)
    requires Gets(s, w, may, view, Committing(next), now) && Go in may
    ensures if Resume(next).Idle? then Leaves(s, w, may, view) else Gets(s, w, may, view, Resume(next), now)
  {
    var t :| CanReach(s, w, may, t) && Sees(t, w, view, Committing(next), now);
    OneMore(s, w, may, t, Go);
    Commits(t, w, view, next, now);
  }

  lemma AtFlushing(t: State, w: Wid, u: UserId, row: Subscription, edited: Subscription, next: Next)
    requires WorkerOf(t, w).pc == Flushing(u, row, edited, next)
    ensures Step(t, w, Go) == FlushChanges(t, w, u, row, edited, next)
  {
    hide FlushChanges;
  }

  lemma GetsFlushed(s: State, w: Wid, may: set<Choice>, view: Db, now: Time, u: UserId, row: Subscription,
                    edited: Subscription, next: Next)
    requires Gets(s, w, may, view, Flushing(u, row, edited, next), now) && Go in may
    requires u in view.subs && view.subs[u] == row
    requires edited.origin == row.origin && edited.created == row.created && edited.panelId == row.panelId
    ensures Gets(s, w, may, WithSub(view, u, edited), Committing(next), now)
  {
    hide Step, FlushChanges;
    var t :| CanReach(s, w, may, t) && Sees(t, w, view, Flushing(u, row, edited, next), now);
    OneMore(s, w, may, t, Go);
    Flushes(t, w, view, now, u, row, edited, next);
    AtFlushing(t, w, u, row, edited, next);
  }

  lemma GetsInserted(s: State, w: Wid, may: set<Choice>, view: Db, now: Time, u: UserId, row: Subscription, next: Next)
    requires Gets(s, w, may, view, Inserting(u, row, next), now) && Go in may && u !in view.subs
    ensures Gets(s, w, may, WithSub(view, u, row), Committing(next), now)
  {
    hide Step, Protocol.Insert;
    var t :| CanReach(s, w, may, t) && Sees(t, w, view, Inserting(u, row, next), now);
    OneMore(s, w, may, t, Go);
    Inserts(t, w, view, now, u, row, next);
    AtInserting(t, w, u, row, next);
  }

  lemma AtInserting(t: State, w: Wid, u: UserId, row: Subscription, next: Next)
    requires WorkerOf(t, w).pc == Inserting(u, row, next)
    ensures Step(t, w, Go) == Protocol.Insert(t, w, u, row, next)
  {
    hide Protocol.Insert;
  }

  // ---- the panel -----------------------------------------------------------

  function AfterCall(call: Call, row: Subscription, token: Option<Token>, now: Time): Subscription {
    match call
    case Provision => AfterProvision(row, token, now)
    case Push => AfterPush(row, token, now)
    case Block => row.(synced := Some(now))
  }

  function NextAfter(p: Option<PayId>): Next {
    if p.Some? then ToDeliver(p.value) else ToIdle
  }

  lemma Refreshes(t: State, w: Wid, view: Db, now: Time, u: UserId, call: Call, p: Option<PayId>)
    requires Sees(t, w, view, Refreshing(u, call, p), now) && u in view.subs
    ensures Sees(Refresh(t, w, u, call, p), w, view, Calling(u, call, view.subs[u], p), now)
  {
  }

  lemma AtRefreshing(t: State, w: Wid, u: UserId, call: Call, p: Option<PayId>)
    requires WorkerOf(t, w).pc == Refreshing(u, call, p)
    ensures Step(t, w, Go) == Refresh(t, w, u, call, p)
  {
    hide Refresh;
  }

  lemma Answers(t: State, w: Wid, view: Db, now: Time, u: UserId, call: Call, copy: Subscription, p: Option<PayId>,
                token: Option<Token>)
    requires Sees(t, w, view, Calling(u, call, copy, p), now)
    ensures Sees(PanelAnswered(t, w, u, call, copy, p, token), w, view,
                 Flushing(u, copy, AfterCall(call, copy, token, now), NextAfter(p)), now)
  {
    hide View, AfterProvision, AfterPush;
    Jumps(t, w, view, Calling(u, call, copy, p), now,
          Flushing(u, copy, AfterCall(call, copy, token, now), NextAfter(p)));
  }

  lemma AtCalling(t: State, w: Wid, u: UserId, call: Call, copy: Subscription, p: Option<PayId>, token: Option<Token>)
    requires WorkerOf(t, w).pc == Calling(u, call, copy, p)
    ensures Step(t, w, PanelOk(token)) == PanelAnswered(t, w, u, call, copy, p, token)
    ensures Step(t, w, PanelError) == Jump(t, w, Idle)
  {
    hide PanelAnswered, Jump;
  }

  /** From the call on: the panel answers, and the row is written down. */
  lemma GetsAnswered(s: State, w: Wid, may: set<Choice>, view: Db, now: Time, u: UserId, call: Call, p: Option<PayId>,
                     token: Option<Token>)
    requires u in view.subs && Gets(s, w, may, view, Calling(u, call, view.subs[u], p), now)
    requires Go in may && PanelOk(token) in may
    ensures Gets(s, w, may, WithSub(view, u, AfterCall(call, view.subs[u], token, now)), Committing(NextAfter(p)), now)
  {
    hide Step, PanelAnswered;
    var copy := view.subs[u];
    var t :| CanReach(s, w, may, t) && Sees(t, w, view, Calling(u, call, copy, p), now);
    OneMore(s, w, may, t, PanelOk(token));
    AtCalling(t, w, u, call, copy, p, token);
    Answers(t, w, view, now, u, call, copy, p, token);
    GetsFlushed(s, w, may, view, now, u, copy, AfterCall(call, copy, token, now), NextAfter(p));
  }

  lemma GetsCalled(s: State, w: Wid, may: set<Choice>, view: Db, now: Time, u: UserId, call: Call, p: Option<PayId>)
    requires u in view.subs && Go in may && Gets(s, w, may, view, Refreshing(u, call, p), now)
    ensures Gets(s, w, may, view, Calling(u, call, view.subs[u], p), now)
  {
    hide Step, Refresh;
    var t :| CanReach(s, w, may, t) && Sees(t, w, view, Refreshing(u, call, p), now);
    OneMore(s, w, may, t, Go);
    AtRefreshing(t, w, u, call, p);
    Refreshes(t, w, view, now, u, call, p);
  }

  lemma GetsNowhere(s: State, w: Wid, may: set<Choice>, view: Db, now: Time, u: UserId, call: Call, copy: Subscription,
                    p: Option<PayId>)
    requires Gets(s, w, may, view, Calling(u, call, copy, p), now) && PanelError in may
    ensures Leaves(s, w, may, view)
  {
    hide Step;
    var t :| CanReach(s, w, may, t) && Sees(t, w, view, Calling(u, call, copy, p), now);
    OneMore(s, w, may, t, PanelError);
    AtCalling(t, w, u, call, copy, p, None);
    Jumps(t, w, view, Calling(u, call, copy, p), now, Idle);
  }

  // ---- the funnel, step by step --------------------------------------------

  function Locked(row: Payment, p: PayId): Pc {
    match row.status
    case Pending => Asking(p)
    case Paid => Applying(p)
    case _ => Idle
  }

  lemma Locks(t: State, w: Wid, view: Db, now: Time, p: PayId)
    requires Sees(t, w, view, Locking(p), now) && p in view.payments
    ensures Sees(LockForFinalize(t, w, p), w, view, Locked(view.payments[p], p), now)
  {
    hide View, Busy;
    QuietToBusy(t, w, view, Locking(p), now);
    Holds(t, w, view, Locking(p), now, PayRow(p));
    Jumps(Take(t, w, PayRow(p)), w, view, Locking(p), now, Locked(view.payments[p], p));
  }

  lemma AtLocking(t: State, w: Wid, p: PayId)
    requires WorkerOf(t, w).pc == Locking(p)
    ensures Step(t, w, Go) == LockForFinalize(t, w, p)
  {
    hide LockForFinalize;
  }

  lemma GetsLocked(s: State, w: Wid, may: set<Choice>, view: Db, now: Time, p: PayId)
    requires Gets(s, w, may, view, Locking(p), now) && p in view.payments && Go in may
    ensures Gets(s, w, may, view, Locked(view.payments[p], p), now)
  {
    hide Step, LockForFinalize, Locked;
    var t :| CanReach(s, w, may, t) && Sees(t, w, view, Locking(p), now);
    OneMore(s, w, may, t, Go);
    AtLocking(t, w, p);
    Locks(t, w, view, now, p);
  }

  /** What is seen and where the worker goes once the provider has spoken. */
  function Heard(view: Db, p: PayId, v: Verdict): (Db, Pc)
    requires p in view.payments
  {
    match v
    case SaysPaid => (view, Pricing(p))
    case SaysPending => (view, Idle)
    case Unreachable => (view, Idle)
    case _ => (WithPayment(view, p, view.payments[p].(status := PaymentStatus.Expired)), Committing(ToIdle))
  }

  lemma Asks(t: State, w: Wid, view: Db, now: Time, p: PayId, v: Verdict)
    requires Sees(t, w, view, Asking(p), now) && p in view.payments && view.payments[p].status.Pending?
    ensures Sees(Ask(t, w, p, v), w, Heard(view, p, v).0, Heard(view, p, v).1, now)
  {
    hide View, Busy, UpdatePayment;
    var row := view.payments[p].(status := PaymentStatus.Expired);
    QuietToBusy(t, w, view, Asking(p), now);
    Updates(t, w, view, Asking(p), now, p, true, row, Committing(ToIdle), Committing(ToIdle));
    Jumps(t, w, view, Asking(p), now, if v.SaysPaid? then Pricing(p) else Idle);
  }

  lemma QuietToBusy(t: State, w: Wid, view: Db, pc: Pc, now: Time)
    requires Sees(t, w, view, pc, now)
    ensures forall next :: Busy(Committing(next))
    ensures forall u, p, moment, copy :: Busy(Crediting(u, p, moment, copy))
    ensures forall u, row, next :: Busy(Inserting(u, row, next))
    ensures forall u, row, edited, next :: Busy(Flushing(u, row, edited, next))
    ensures !pc.Crediting? && !pc.Inserting? && !pc.Flushing? && !pc.Committing? && !pc.Closing? && !pc.Syncing? ==>
              !Busy(pc) && t.db == view
  {
  }

  lemma AtAsking(t: State, w: Wid, p: PayId, v: Verdict)
    requires WorkerOf(t, w).pc == Asking(p)
    ensures Step(t, w, Provider(v)) == Ask(t, w, p, v)
  {
    hide Ask;
  }

  lemma GetsHeard(s: State, w: Wid, may: set<Choice>, view: Db, now: Time, p: PayId, v: Verdict)
    requires Gets(s, w, may, view, Asking(p), now) && p in view.payments && view.payments[p].status.Pending?
    requires Provider(v) in may
    ensures Gets(s, w, may, Heard(view, p, v).0, Heard(view, p, v).1, now)
  {
    hide Step, Ask, Heard;
    var t :| CanReach(s, w, may, t) && Sees(t, w, view, Asking(p), now);
    OneMore(s, w, may, t, Provider(v));
    AtAsking(t, w, p, v);
    Asks(t, w, view, now, p, v);
  }

  lemma Prices(t: State, w: Wid, view: Db, now: Time, p: PayId)
    requires Sees(t, w, view, Pricing(p), now) && p in view.payments
    ensures Sees(Price(t, w, p), w, view, Marking(p, now, MarkedPaid(view, p, now).payments[p].target.value), now)
  {
  }

  lemma AtPricing(t: State, w: Wid, p: PayId)
    requires WorkerOf(t, w).pc == Pricing(p)
    ensures Step(t, w, Go) == Price(t, w, p)
  {
    hide Price;
  }

  lemma Marks(t: State, w: Wid, view: Db, now: Time, p: PayId, target: Time)
    requires Sees(t, w, view, Marking(p, now, target), now) && p in view.payments && view.payments[p].status.Pending?
    ensures Sees(Protocol.MarkPaid(t, w, p, now, target), w,
                 WithPayment(view, p, view.payments[p].(status := Paid, paidAt := Some(now), target := Some(target))),
                 Committing(ToApply(p)), now)
  {
    hide View, Busy, UpdatePayment;
    var row := view.payments[p].(status := Paid, paidAt := Some(now), target := Some(target));
    QuietToBusy(t, w, view, Marking(p, now, target), now);
    Updates(t, w, view, Marking(p, now, target), now, p, true, row, Committing(ToApply(p)), Committing(ToIdle));
  }

  lemma AtMarking(t: State, w: Wid, p: PayId, now: Time, target: Time)
    requires WorkerOf(t, w).pc == Marking(p, now, target)
    ensures Step(t, w, Go) == Protocol.MarkPaid(t, w, p, now, target)
  {
    hide Protocol.MarkPaid;
  }

  /** Money that was seen is written down with its projected target. */
  lemma GetsMarked(s: State, w: Wid, may: set<Choice>, view: Db, now: Time, p: PayId)
    requires Gets(s, w, may, view, Pricing(p), now) && p in view.payments && view.payments[p].status.Pending?
    requires Go in may
    ensures Gets(s, w, may, MarkedPaid(view, p, now), Committing(ToApply(p)), now)
  {
    hide Step, Price, Protocol.MarkPaid;
    var target := MarkedPaid(view, p, now).payments[p].target.value;
    var t :| CanReach(s, w, may, t) && Sees(t, w, view, Pricing(p), now);
    OneMore(s, w, may, t, Go);
    AtPricing(t, w, p);
    Prices(t, w, view, now, p);
    var r := Step(t, w, Go);
    OneMore(s, w, may, r, Go);
    AtMarking(r, w, p, now, target);
    Marks(r, w, view, now, p, target);
  }

  lemma Applies(t: State, w: Wid, view: Db, now: Time, p: PayId)
    requires Sees(t, w, view, Applying(p), now) && p in view.payments
    ensures Sees(Apply(t, w, p), w, view, Waiting(view.payments[p].user, Buy(p, now)), now)
  {
  }

  lemma AtApplying(t: State, w: Wid, p: PayId)
    requires WorkerOf(t, w).pc == Applying(p)
    ensures Step(t, w, Go) == Apply(t, w, p)
  {
    hide Apply;
  }

  lemma GetsApplying(s: State, w: Wid, may: set<Choice>, view: Db, now: Time, p: PayId)
    requires Gets(s, w, may, view, Applying(p), now) && p in view.payments && Go in may
    ensures Gets(s, w, may, view, Waiting(view.payments[p].user, Buy(p, now)), now)
  {
    hide Step, Apply;
    var t :| CanReach(s, w, may, t) && Sees(t, w, view, Applying(p), now);
    OneMore(s, w, may, t, Go);
    AtApplying(t, w, p);
    Applies(t, w, view, now, p);
  }

  lemma Waits(t: State, w: Wid, view: Db, now: Time, u: UserId, job: Job)
    requires Sees(t, w, view, Waiting(u, job), now)
    ensures Sees(WaitForUser(t, w, u, job), w, view, Reading(u, job), now)
  {
  }

  lemma AtWaiting(t: State, w: Wid, u: UserId, job: Job)
    requires WorkerOf(t, w).pc == Waiting(u, job)
    ensures Step(t, w, Go) == WaitForUser(t, w, u, job)
  {
    hide WaitForUser;
  }

  /** What each caller of the locking read does next. */
  function AfterReading(copy: Option<Subscription>, u: UserId, job: Job, now: Time, days: nat): Pc {
    match job
    case Buy(p, at) => Claiming(u, p, at, copy)
    case Try =>
      if copy.None? then Latching(u, now, days)
      else if Access.Unfinished(copy.value) then Committing(ToSync(u, Provision, None))
      else Committing(ToIdle)
    case Grant(extra, at) =>
      if copy.None? then
        Inserting(u, NewSubscription(u, at, at + extra, AdminGrant, DEFAULT_MAX_DEVICES), ToSync(u, Provision, None))
      else
        Flushing(u, copy.value, ExtendTo(copy.value, Max(at, copy.value.expires) + extra), ToSync(u, Push, None))
  }

  lemma FoundGoes(worker: Worker, now: Time, u: UserId, job: Job, copy: Option<Subscription>, days: nat)
    ensures var found := Found(worker, now, u, job, copy, days);
            && found.pc == AfterReading(copy, u, job, now, days)
            && found.writes == worker.writes && found.cache == worker.cache
            && (!Busy(found.pc) ==> found.pc.Claiming? || found.pc.Latching?)
  {
    hide NewSubscription, ExtendTo;
  }

  lemma Reads(t: State, w: Wid, view: Db, now: Time, u: UserId, job: Job, days: nat)
    requires Sees(t, w, view, Reading(u, job), now)
    ensures Sees(LockByUser(t, w, u, job, days), w, view, AfterReading(RowOf(view, u), u, job, now, days), now)
  {
    hide Found, AfterReading, Busy;
    var row, worker := RowOf(view, u), WorkerOf(t, w);
    FoundGoes(worker, now, u, job, row, days);
    if row.Some? {
      FoundGoes(worker.(cache := worker.cache[u := row.value]), now, u, job, row, days);
    }
    QuietToBusy(t, w, view, Reading(u, job), now);
  }

  lemma AtReading(t: State, w: Wid, u: UserId, job: Job, c: Choice)
    requires WorkerOf(t, w).pc == Reading(u, job) && (c.Go? || c.TrialDays?)
    ensures Step(t, w, c) == LockByUser(t, w, u, job, if c.TrialDays? then c.days else 0)
  {
    hide LockByUser;
  }

  lemma GetsRow(s: State, w: Wid, may: set<Choice>, view: Db, now: Time, u: UserId, job: Job, c: Choice)
    requires Gets(s, w, may, view, Waiting(u, job), now) && Go in may && c in may && (c.Go? || c.TrialDays?)
    ensures Gets(s, w, may, view, AfterReading(RowOf(view, u), u, job, now, if c.TrialDays? then c.days else 0), now)
  {
    hide Step, WaitForUser, LockByUser, AfterReading;
    var t :| CanReach(s, w, may, t) && Sees(t, w, view, Waiting(u, job), now);
    OneMore(s, w, may, t, Go);
    AtWaiting(t, w, u, job);
    Waits(t, w, view, now, u, job);
    var r := Step(t, w, Go);
    OneMore(s, w, may, r, c);
    AtReading(r, w, u, job, c);
    Reads(r, w, view, now, u, job, if c.TrialDays? then c.days else 0);
  }

  function Latched(view: Db, p: PayId, now: Time): Db
    requires p in view.payments
  {
    WithPayment(view, p, view.payments[p].(applied := Some(now)))
  }

  lemma ClaimWins(t: State, w: Wid, view: Db, now: Time, u: UserId, p: PayId, copy: Option<Subscription>)
    requires Sees(t, w, view, Claiming(u, p, now, copy), now) && p in view.payments && view.payments[p].applied.None?
    ensures Sees(Protocol.Claim(t, w, u, p, now, copy), w, Latched(view, p, now), Crediting(u, p, now, copy), now)
  {
    hide View, Busy, UpdatePayment;
    var lost := Committing(if copy.None? then ToRaise else ToSync(u, SyncCall(copy), Some(p)));
    QuietToBusy(t, w, view, Claiming(u, p, now, copy), now);
    Updates(t, w, view, Claiming(u, p, now, copy), now, p, true, view.payments[p].(applied := Some(now)),
            Crediting(u, p, now, copy), lost);
  }

  lemma ClaimLoses(t: State, w: Wid, view: Db, now: Time, u: UserId, p: PayId, copy: Option<Subscription>)
    requires Sees(t, w, view, Claiming(u, p, now, copy), now) && p in view.payments && view.payments[p].applied.Some?
    requires copy.Some?
    ensures Sees(Protocol.Claim(t, w, u, p, now, copy), w, view, Committing(ToSync(u, SyncCall(copy), Some(p))), now)
  {
    hide View, Busy, UpdatePayment;
    var lost := Committing(ToSync(u, SyncCall(copy), Some(p)));
    QuietToBusy(t, w, view, Claiming(u, p, now, copy), now);
    Updates(t, w, view, Claiming(u, p, now, copy), now, p, false, view.payments[p].(applied := Some(now)),
            Crediting(u, p, now, copy), lost);
  }

  lemma AtClaiming(t: State, w: Wid, u: UserId, p: PayId, now: Time, copy: Option<Subscription>)
    requires WorkerOf(t, w).pc == Claiming(u, p, now, copy)
    ensures Step(t, w, Go) == Protocol.Claim(t, w, u, p, now, copy)
  {
    hide Protocol.Claim;
  }

  /** Where the credit goes: a new row, or the row renewed. */
  function ToCredit(view: Db, p: PayId, now: Time): Pc
    requires p in view.payments
  {
    var row, copy := view.payments[p], RowOf(view, view.payments[p].user);
    var next := ToSync(row.user, SyncCall(copy), Some(p));
    if copy.None? then
      Inserting(row.user, NewSubscription(row.user, now, now + row.tariff.duration, Purchase, row.tariff.devices), next)
    else Flushing(row.user, copy.value, Renew(copy.value, now, row.tariff, IsNewest(view, row.user, p)), next)
  }

  lemma CreditsAlone(t: State, w: Wid, view: Db, now: Time, p: PayId)
    requires p in view.payments
    requires var u := view.payments[p].user; Sees(t, w, view, Crediting(u, p, now, RowOf(view, u)), now)
    ensures var u := view.payments[p].user;
            Sees(Protocol.CreditDays(t, w, u, p, now, RowOf(view, u)), w, view, ToCredit(view, p, now), now)
  {
    hide NewSubscription, Renew, IsNewest;
  }

  lemma AtCrediting(t: State, w: Wid, u: UserId, p: PayId, now: Time, copy: Option<Subscription>)
    requires WorkerOf(t, w).pc == Crediting(u, p, now, copy)
    ensures Step(t, w, Go) == Protocol.CreditDays(t, w, u, p, now, copy)
  {
    hide Protocol.CreditDays;
  }

  lemma GetsCrediting(s: State, w: Wid, may: set<Choice>, view: Db, now: Time, p: PayId)
    requires p in view.payments && view.payments[p].applied.None? && Go in may
    requires var u := view.payments[p].user; Gets(s, w, may, view, Claiming(u, p, now, RowOf(view, u)), now)
    ensures Gets(s, w, may, Latched(view, p, now), ToCredit(Latched(view, p, now), p, now), now)
  {
    hide Step, Protocol.Claim, Protocol.CreditDays, ToCredit;
    var u := view.payments[p].user;
    var copy := RowOf(view, u);
    var t :| CanReach(s, w, may, t) && Sees(t, w, view, Claiming(u, p, now, copy), now);
    OneMore(s, w, may, t, Go);
    AtClaiming(t, w, u, p, now, copy);
    ClaimWins(t, w, view, now, u, p, copy);
    var r := Step(t, w, Go);
    OneMore(s, w, may, r, Go);
    AtCrediting(r, w, u, p, now, copy);
    CreditsAlone(r, w, Latched(view, p, now), now, p);
  }

  lemma GetsLost(s: State, w: Wid, may: set<Choice>, view: Db, now: Time, p: PayId)
    requires p in view.payments && view.payments[p].applied.Some? && view.payments[p].user in view.subs && Go in may
    requires var u := view.payments[p].user; Gets(s, w, may, view, Claiming(u, p, now, RowOf(view, u)), now)
    ensures var u := view.payments[p].user;
            Gets(s, w, may, view, Committing(ToSync(u, SyncCall(RowOf(view, u)), Some(p))), now)
  {
    hide Step, Protocol.Claim;
    var u := view.payments[p].user;
    var t :| CanReach(s, w, may, t) && Sees(t, w, view, Claiming(u, p, now, RowOf(view, u)), now);
    OneMore(s, w, may, t, Go);
    AtClaiming(t, w, u, p, now, RowOf(view, u));
    ClaimLoses(t, w, view, now, u, p, RowOf(view, u));
  }

  function Handed(view: Db, p: PayId, now: Time): Db
    requires p in view.payments
  {
    WithPayment(view, p, view.payments[p].(status := PaymentStatus.Provisioned, provisionedAt := Some(now)))
  }

  lemma Delivers(t: State, w: Wid, view: Db, now: Time, p: PayId)
    requires Sees(t, w, view, Delivering(p), now) && p in view.payments && view.payments[p].status.Paid?
    ensures Sees(Protocol.MarkProvisioned(t, w, p), w,
                 Handed(view, p, now),
                 Committing(ToIdle), now)
  {
    hide View, Busy, UpdatePayment;
    QuietToBusy(t, w, view, Delivering(p), now);
    Updates(t, w, view, Delivering(p), now, p, true,
            Handed(view, p, now).payments[p], Committing(ToIdle), Committing(ToIdle));
  }

  lemma AtDelivering(t: State, w: Wid, p: PayId)
    requires WorkerOf(t, w).pc == Delivering(p)
    ensures Step(t, w, Go) == Protocol.MarkProvisioned(t, w, p)
  {
    hide Protocol.MarkProvisioned;
  }

  lemma GetsDelivered(s: State, w: Wid, may: set<Choice>, view: Db, now: Time, p: PayId)
    requires Gets(s, w, may, view, Committing(ToDeliver(p)), now) && p in view.payments
             && view.payments[p].status.Paid? && Go in may
    ensures Leaves(s, w, may, Handed(view, p, now))
  {
    hide Step, Protocol.MarkProvisioned, Sees, CanReach, Ends;
    GetsCommitted(s, w, may, view, ToDeliver(p), now);
    var t :| CanReach(s, w, may, t) && Sees(t, w, view, Delivering(p), now);
    OneMore(s, w, may, t, Go);
    SeesPc(t, w, view, Delivering(p), now);
    AtDelivering(t, w, p);
    Delivers(t, w, view, now, p);
    GetsCommitted(s, w, may, Handed(view, p, now), ToIdle, now);
  }

  // ---- the funnel ----------------------------------------------------------

  lemma CreditIsWithDays(db: Db, p: PayId, now: Time)
    requires p in db.payments && db.payments[p].applied.None?
    ensures var u, view, pc := db.payments[p].user, Latched(db, p, now), ToCredit(Latched(db, p, now), p, now);
            match pc
            case Inserting(v, row, next) =>
              && v == u && u !in view.subs && WithSub(view, u, row) == WithDays(db, p, now)
              && next == ToSync(u, SyncCall(RowOf(db, u)), Some(p))
            case Flushing(v, row, edited, next) =>
              && v == u && u in view.subs && row == view.subs[u] && WithSub(view, u, edited) == WithDays(db, p, now)
              && edited.origin == row.origin && edited.created == row.created && edited.panelId == row.panelId
              && next == ToSync(u, SyncCall(RowOf(db, u)), Some(p))
            case _ => false
  {
    assert OthersApplied(Latched(db, p, now), db.payments[p].user, p) == OthersApplied(db, db.payments[p].user, p);
  }

  /** From "paid" to the moment the panel is asked: the days are in. */
  lemma GetsFunded(s: State, w: Wid, may: set<Choice>, db: Db, now: Time, p: PayId)
    requires Gets(s, w, may, db, Applying(p), now) && Go in may
    requires p in db.payments && (db.payments[p].applied.Some? ==> db.payments[p].user in db.subs)
    ensures var u, funded := db.payments[p].user, Funded(db, p, now);
            u in funded.subs && Gets(s, w, may, funded, Refreshing(u, SyncCall(RowOf(db, u)), Some(p)), now)
  {
    hide Gets, ToCredit, WithDays, SyncCall;
    var u := db.payments[p].user;
    var copy := RowOf(db, u);
    GetsApplying(s, w, may, db, now, p);
    GetsRow(s, w, may, db, now, u, Buy(p, now), Go);
    if db.payments[p].applied.Some? {
      GetsLost(s, w, may, db, now, p);
    } else {
      GetsCrediting(s, w, may, db, now, p);
      CreditIsWithDays(db, p, now);
      match ToCredit(Latched(db, p, now), p, now)
      case Inserting(_, row, next) => GetsInserted(s, w, may, Latched(db, p, now), now, u, row, next);
      case Flushing(_, row, edited, next) => GetsFlushed(s, w, may, Latched(db, p, now), now, u, row, edited, next);
    }
    GetsCommitted(s, w, may, Funded(db, p, now), ToSync(u, SyncCall(copy), Some(p)), now);
    DaysMakeARow(db, p, now);
  }

  lemma DaysMakeARow(db: Db, p: PayId, now: Time)
    requires p in db.payments && (db.payments[p].applied.Some? ==> db.payments[p].user in db.subs)
    ensures db.payments[p].user in Funded(db, p, now).subs
  {
  }

  /** The rows after a delivery that reached the panel: provisioned if the buyer came
      without a token, pushed otherwise. */
  function Given(db: Db, p: PayId, token: Option<Token>, now: Time): Db
    requires p in db.payments && db.payments[p].user in Funded(db, p, now).subs
  {
    var u, funded := db.payments[p].user, Funded(db, p, now);
    var call := if u in db.subs && db.subs[u].token.Some? then Push else Provision;
    Handed(WithSub(funded, u, AfterCall(call, funded.subs[u], token, now)), p, now)
  }

  lemma PaidRunsThrough(s: State, w: Wid, may: set<Choice>, db: Db, now: Time, p: PayId, token: Option<Token>)
    requires Gets(s, w, may, db, Applying(p), now) && Go in may
    requires p in db.payments && (db.payments[p].applied.Some? ==> db.payments[p].user in db.subs)
    requires db.payments[p].status.Paid?
    ensures db.payments[p].user in Funded(db, p, now).subs
    ensures PanelOk(token) in may ==> Leaves(s, w, may, Given(db, p, token, now))
    ensures PanelError in may ==> Leaves(s, w, may, Funded(db, p, now))
  {
    hide Gets, Leaves, AfterCall, WithDays;
    var u, funded := db.payments[p].user, Funded(db, p, now);
    var call := SyncCall(RowOf(db, u));
    GetsFunded(s, w, may, db, now, p);
    GetsCalled(s, w, may, funded, now, u, call, Some(p));
    if PanelError in may {
      GetsNowhere(s, w, may, funded, now, u, call, funded.subs[u], Some(p));
    }
    if PanelOk(token) in may {
      GetsAnswered(s, w, may, funded, now, u, call, Some(p), token);
      StillPaid(db, p, now);
      GetsDelivered(s, w, may, WithSub(funded, u, AfterCall(call, funded.subs[u], token, now)), now, p);
    }
  }

  lemma StillPaid(db: Db, p: PayId, now: Time)
    requires p in db.payments && db.payments[p].status.Paid?
    ensures p in Funded(db, p, now).payments && Funded(db, p, now).payments[p].status.Paid?
  {
  }

  /** Where the funnel takes the rows, given the provider's word and the panel's: the
      program of check_and_finalize in one expression. */
  function Funnel(db: Db, p: PayId, v: Verdict, token: Option<Option<Token>>, now: Time): Db
    requires p in db.payments && (db.payments[p].applied.Some? ==> db.payments[p].user in db.subs)
  {
    var row := db.payments[p];
    DaysMakeARow(db, p, now);
    DaysMakeARow(MarkedPaid(db, p, now), p, now);
    if row.status.Paid? || (row.status.Pending? && v.SaysPaid?) then
      var mid := if row.status.Paid? then db else MarkedPaid(db, p, now);
      if token.Some? then Given(mid, p, token.value, now) else Funded(mid, p, now)
    else if row.status.Pending? && Refuses(v) then WithPayment(db, p, row.(status := PaymentStatus.Expired))
    else db
  }

  /** What the environment may decide in one program. */
  function Decisions(program: Program, v: Verdict, token: Option<Option<Token>>): set<Choice> {
    {Go, Start(program), Provider(v), if token.Some? then PanelOk(token.value) else PanelError}
  }

  lemma LockingRunsThrough(s: State, w: Wid, may: set<Choice>, db: Db, now: Time, p: PayId, v: Verdict,
                           token: Option<Option<Token>>)
    requires Gets(s, w, may, db, Locking(p), now)
    requires Go in may && Provider(v) in may && (if token.Some? then PanelOk(token.value) else PanelError) in may
    requires p in db.payments && (db.payments[p].applied.Some? ==> db.payments[p].user in db.subs)
    ensures Leaves(s, w, may, Funnel(db, p, v, token, now))
  {
    hide Gets, Leaves, Given, Funded, MarkedPaid;
    GetsLocked(s, w, may, db, now, p);
    match db.payments[p].status
    case Paid => PaidRunsThrough(s, w, may, db, now, p, if token.Some? then token.value else None);
    case Pending =>
      GetsHeard(s, w, may, db, now, p, v);
      if v.SaysPaid? {
        GetsMarked(s, w, may, db, now, p);
        GetsCommitted(s, w, may, MarkedPaid(db, p, now), ToApply(p), now);
        TargetIsProjected(db, p, now);
        MarkedIsPaid(db, p, now);
        PaidRunsThrough(s, w, may, MarkedPaid(db, p, now), now, p, if token.Some? then token.value else None);
      } else if Refuses(v) {
        GetsCommitted(s, w, may, Heard(db, p, v).0, ToIdle, now);
      } else {
        IdleLeaves(s, w, may, db, now);
      }
    case _ => IdleLeaves(s, w, may, db, now);
  }

  lemma MarkedIsPaid(db: Db, p: PayId, now: Time)
    requires p in db.payments
    ensures var mid := MarkedPaid(db, p, now);
            p in mid.payments && mid.payments[p].status.Paid? && mid.payments[p].user == db.payments[p].user
            && mid.payments[p].applied == db.payments[p].applied && mid.subs == db.subs
  {
  }

  lemma IdleLeaves(s: State, w: Wid, may: set<Choice>, db: Db, now: Time)
    requires Gets(s, w, may, db, Idle, now)
    ensures Leaves(s, w, may, db)
  {
    hide CanReach, View, Steps;
  }

  // ---- whole programs ------------------------------------------------------

  /** Programs that begin with a jump. */
  function EntryPoint(program: Program, now: Time): Pc {
    match program
    case Finalize(p) => Locking(p)
    case LateSweep(p) => Reopening(p)
    case ExpireStale => Closing
    case TrialTap(u) => Waiting(u, Try)
    case GrantTap(u, days) => Waiting(u, Grant(days, now))
    case SyncExpired => Syncing(now)
    case Reconcile(u) => Examining(u)
    case _ => Idle
  }

  lemma Enters(s: State, w: Wid, may: set<Choice>, db: Db, now: Time, program: Program)
    requires Rests(s, w, db, now) && Start(program) in may
    requires !program.Register? && !program.Invoice? && !program.RevokeTap? && !program.Remind?
    ensures Gets(s, w, may, db, EntryPoint(program, now), now)
  {
    RestsIsIdle(s, w, db, now);
    AtIdle(s, w, program);
    Jumps(s, w, db, Idle, now, EntryPoint(program, now));
    hide Step, Begin, Jump;
    Stays(s, w, may);
    OneMore(s, w, may, s, Start(program));
  }

  lemma AtIdle(t: State, w: Wid, program: Program)
    requires WorkerOf(t, w).pc.Idle?
    ensures Step(t, w, Start(program)) == Begin(t, w, program)
    ensures !program.Register? && !program.Invoice? && !program.RevokeTap? && !program.Remind? ==>
              Begin(t, w, program) == Jump(t, w, EntryPoint(program, t.clock))
  {
    hide Jump;
  }

  /** check_and_finalize, by the machine: alone, it does to the rows what the funnel
      does, whatever the provider and the panel say. */
  lemma FinalizeAlone(s: State, w: Wid, db: Db, now: Time, p: PayId, v: Verdict, token: Option<Option<Token>>)
    requires Rests(s, w, db, now)
    requires p in db.payments && (db.payments[p].applied.Some? ==> db.payments[p].user in db.subs)
    ensures Leaves(s, w, Decisions(Finalize(p), v, token), Funnel(db, p, v, token, now))
  {
    hide Gets, Leaves, Funnel;
    var may := Decisions(Finalize(p), v, token);
    Enters(s, w, may, db, now, Finalize(p));
    LockingRunsThrough(s, w, may, db, now, p, v, token);
  }

  /** And that is what the job promises. */
  lemma FunnelIsTheJob(db: Db, p: PayId, v: Verdict, token: Option<Option<Token>>, now: Time)
    requires p in db.payments && (db.payments[p].applied.Some? ==> db.payments[p].user in db.subs)
    ensures Finalized(db, Funnel(db, p, v, token, now), p, v, token.Some?)
  {
    var row, db' := db.payments[p], Funnel(db, p, v, token, now);
    hide Finalized, Funded, Given, MarkedPaid;
    if row.status.Paid? || (row.status.Pending? && v.SaysPaid?) {
      var mid := if row.status.Paid? then db else MarkedPaid(db, p, now);
      MarkedIsPaid(db, p, now);
      DaysMakeARow(mid, p, now);
      GivenSettles(mid, p, token, now);
      SettlingFinalizes(db, mid, db', p, v, now, now,
                        if token.Some? then FinalizeOutcome.Provisioned else PaidPendingProvisioning, token.Some?);
    } else {
      OthersFinalize(db, p, v, token, now);
    }
  }

  lemma GivenSettles(mid: Db, p: PayId, token: Option<Option<Token>>, now: Time)
    requires p in mid.payments && mid.payments[p].status.Paid? && mid.payments[p].user in Funded(mid, p, now).subs
    ensures token.Some? ==> Settles(mid, Given(mid, p, token.value, now), p, now, FinalizeOutcome.Provisioned)
    ensures Settles(mid, Funded(mid, p, now), p, now, PaidPendingProvisioning)
  {
    hide Settles, Funded;
    var u, funded := mid.payments[p].user, Funded(mid, p, now);
    SyncSettles(mid, funded, p, now);
    if token.Some? {
      var call := if u in mid.subs && mid.subs[u].token.Some? then Push else Provision;
      SyncSettles(mid, WithSub(funded, u, AfterCall(call, funded.subs[u], token.value, now)), p, now);
    }
  }

  lemma OthersFinalize(db: Db, p: PayId, v: Verdict, token: Option<Option<Token>>, now: Time)
    requires p in db.payments && (db.payments[p].applied.Some? ==> db.payments[p].user in db.subs)
    requires !db.payments[p].status.Paid? && !(db.payments[p].status.Pending? && v.SaysPaid?)
    ensures Finalized(db, Funnel(db, p, v, token, now), p, v, token.Some?)
  {
  }

  lemma Reopens(t: State, w: Wid, view: Db, now: Time, p: PayId)
    requires Sees(t, w, view, Reopening(p), now) && p in view.payments
    ensures var row := view.payments[p];
            if row.status.Expired? then
              Sees(Protocol.Reopen(t, w, p), w, WithPayment(view, p, row.(status := PaymentStatus.Pending)),
                   Committing(ToLock(p)), now)
            else Sees(Protocol.Reopen(t, w, p), w, view, Idle, now)
  {
    hide View, Busy, UpdatePayment;
    var row := view.payments[p];
    QuietToBusy(t, w, view, Reopening(p), now);
    Updates(t, w, view, Reopening(p), now, p, row.status.Expired?, row.(status := PaymentStatus.Pending),
            Committing(ToLock(p)), Idle);
  }

  lemma AtReopening(t: State, w: Wid, p: PayId)
    requires WorkerOf(t, w).pc == Reopening(p)
    ensures Step(t, w, Go) == Protocol.Reopen(t, w, p)
  {
    hide Protocol.Reopen;
  }

  lemma GetsReopened(s: State, w: Wid, may: set<Choice>, db: Db, now: Time, p: PayId)
    requires Gets(s, w, may, db, Reopening(p), now) && p in db.payments && Go in may
    ensures var row := db.payments[p];
            if row.status.Expired? then
              Gets(s, w, may, WithPayment(db, p, row.(status := PaymentStatus.Pending)), Committing(ToLock(p)), now)
            else Gets(s, w, may, db, Idle, now)
  {
    hide Step, Protocol.Reopen, Sees, CanReach;
    var t :| CanReach(s, w, may, t) && Sees(t, w, db, Reopening(p), now);
    OneMore(s, w, may, t, Go);
    SeesPc(t, w, db, Reopening(p), now);
    AtReopening(t, w, p);
    Reopens(t, w, db, now, p);
  }

  lemma SeesPc(t: State, w: Wid, view: Db, pc: Pc, now: Time)
    requires Sees(t, w, view, pc, now)
    ensures WorkerOf(t, w).pc == pc
  {
  }

  /** A late payment is reopened, committed, and sent through the same funnel. */
  lemma LateSweepAlone(s: State, w: Wid, db: Db, now: Time, p: PayId, v: Verdict, token: Option<Option<Token>>)
    requires Rests(s, w, db, now)
    requires p in db.payments && (db.payments[p].applied.Some? ==> db.payments[p].user in db.subs)
    ensures var reopened := WithPayment(db, p, db.payments[p].(status := PaymentStatus.Pending));
            Leaves(s, w, Decisions(LateSweep(p), v, token),
                   if db.payments[p].status.Expired? then Funnel(reopened, p, v, token, now) else db)
  {
    hide Gets, Leaves, Funnel;
    var may := Decisions(LateSweep(p), v, token);
    Enters(s, w, may, db, now, LateSweep(p));
    GetsReopened(s, w, may, db, now, p);
    if db.payments[p].status.Expired? {
      var reopened := WithPayment(db, p, db.payments[p].(status := PaymentStatus.Pending));
      GetsCommitted(s, w, may, reopened, ToLock(p), now);
      LockingRunsThrough(s, w, may, reopened, now, p, v, token);
    } else {
      IdleLeaves(s, w, may, db, now);
    }
  }
}
