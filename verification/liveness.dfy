/** No reachable state is a trap for money: whatever has happened, killing whoever
    holds a lock and letting one worker run delivers the payment. */
module Liveness {
  import opened Model
  import opened Protocol
  import opened Safety

  /** Some schedule leads from one state to the other. */
  ghost predicate Reaches(s: State, t: State) {
    exists schedule :: Run(s, schedule) == t
  }

  lemma {:induction false} RunJoins(s: State, a: seq<Action>, b: seq<Action>)
    ensures Run(s, a + b) == Run(Run(s, a), b)
    decreases |b|
  {
    if b == [] {
      assert a + b == a;
    } else {
      var n := |b| - 1;
      RunJoins(s, a, b[..n]);
      assert (a + b)[..|a + b| - 1] == a + b[..n];
    }
  }

  lemma Joins(r: State, s: State, t: State)
    requires Reaches(r, s) && Reaches(s, t)
    ensures Reaches(r, t)
  {
    var a :| Run(r, a) == s;
    var b :| Run(s, b) == t;
    RunJoins(r, a, b);
  }

  lemma OneAction(s: State, a: Action, t: State)
    requires Inv(s) && t == Advance(s, a)
    ensures Inv(t) && Reaches(s, t) && DbGrows(s.db, t.db)
  {
    AdvanceKeepsInv(s, a);
    assert [a][..0] == [];
    assert Run(s, [a]) == t;
  }

  lemma Takes(s: State, w: Wid, c: Choice, t: State)
    requires Inv(s) && t == Step(s, w, c)
    ensures Inv(t) && Reaches(s, t)
  {
    OneAction(s, Act(w, c), t);
  }

  /** The locks of `s` are all `w`'s own. */
  ghost predicate Unlocked(s: State, w: Wid) {
    forall k | k in s.locks :: s.locks[k] == w
  }

  ghost predicate Alone(s: State, w: Wid, pc: Pc) {
    Inv(s) && Unlocked(s, w) && WorkerOf(s, w).pc == pc
  }

  ghost predicate IsDelivered(s: State, p: PayId) {
    p in s.db.payments && s.db.payments[p].status.Provisioned?
  }

  ghost predicate CanDeliver(s: State, p: PayId) {
    exists t :: Reaches(s, t) && IsDelivered(t, p)
  }

  lemma Onwards(s: State, t: State, p: PayId)
    requires Reaches(s, t) && CanDeliver(t, p)
    ensures CanDeliver(s, p)
  {
    var r :| Reaches(t, r) && IsDelivered(r, p);
    Joins(s, t, r);
  }

  // ---- one step at a time --------------------------------------------------

  lemma UpdatesAlone(s: State, w: Wid, p: PayId, hit: bool, row: Payment, yes: Pc, no: Pc)
    requires Unlocked(s, w)
    ensures var t := UpdatePayment(s, w, p, hit, row, yes, no);
            && Unlocked(t, w) && WorkerOf(t, w).pc == (if hit then yes else no)
            && (hit ==> p in View(t, w).payments && View(t, w).payments[p] == row)
            && (!hit ==> View(t, w) == View(s, w))
  {
  }

  lemma WritesAlone(s: State, w: Wid, u: UserId, row: Subscription, copy: Subscription, pc: Pc)
    requires Unlocked(s, w)
    ensures Unlocked(WriteSub(s, w, u, row, copy, pc), w) && WorkerOf(WriteSub(s, w, u, row, copy, pc), w).pc == pc
  {
  }

  lemma CommitsAlone(s: State, w: Wid, next: Next) returns (t: State)
    requires Alone(s, w, Committing(next))
    ensures Reaches(s, t) && Alone(t, w, Resume(next)) && t.db == View(s, w)
  {
    hide Inv, Reaches;
    t := Commit(s, w, Resume(next));
    Takes(s, w, Go, t);
  }

  lemma DeliveringIsSettled(s: State, w: Wid, p: PayId)
    requires Inv(s) && WorkerOf(s, w).pc == Delivering(p)
    ensures View(s, w) == s.db && p in s.db.payments && s.db.payments[p].Settled()
  {
    AtItsPc(s, w);
    QuietView(s, w);
  }

  lemma DeliveringStep(s: State, w: Wid, p: PayId) returns (t: State)
    requires Alone(s, w, Delivering(p))
    ensures Reaches(s, t) && Alone(t, w, Committing(ToIdle))
    ensures p in View(t, w).payments && View(t, w).payments[p].status.Provisioned?
  {
    hide Inv, Reaches;
    t := MarkProvisioned(s, w, p);
    Takes(s, w, Go, t);
    DeliveringIsSettled(s, w, p);
    var row := s.db.payments[p];
    UpdatesAlone(s, w, p, row.status.Paid?, row.(status := Provisioned, provisionedAt := Some(s.clock)),
                 Committing(ToIdle), Committing(ToIdle));
  }

  lemma RowIsThere(s: State, w: Wid)
    requires Inv(s) && WorkerOf(s, w).pc.Flushing?
    ensures WorkerOf(s, w).pc.user in View(s, w).subs
  {
    AtItsPc(s, w);
  }

  lemma FlushingStep(s: State, w: Wid, u: UserId, loaded: Subscription, edited: Subscription, next: Next)
    returns (t: State)
    requires Alone(s, w, Flushing(u, loaded, edited, next))
    ensures Reaches(s, t) && Alone(t, w, Committing(next))
  {
    hide Inv, Reaches;
    t := FlushChanges(s, w, u, loaded, edited, next);
    Takes(s, w, Go, t);
    RowIsThere(s, w);
    WritesAlone(s, w, u, Flush(loaded, edited, View(s, w).subs[u]), edited, Committing(next));
  }

  lemma CallingStep(s: State, w: Wid, u: UserId, call: Call, copy: Subscription, p: PayId)
    returns (t: State, edited: Subscription)
    requires Alone(s, w, Calling(u, call, copy, Some(p)))
    ensures Reaches(s, t) && Alone(t, w, Flushing(u, copy, edited, ToDeliver(p)))
  {
    hide Inv, Reaches;
    t := PanelAnswered(s, w, u, call, copy, Some(p), None);
    Takes(s, w, PanelOk(None), t);
    edited := WorkerOf(t, w).pc.edited;
  }

  lemma RefreshingStep(s: State, w: Wid, u: UserId, call: Call, p: PayId) returns (t: State, copy: Subscription)
    requires Alone(s, w, Refreshing(u, call, Some(p)))
    ensures Reaches(s, t) && Alone(t, w, Calling(u, call, copy, Some(p)))
  {
    hide Inv, Reaches;
    t := Refresh(s, w, u, call, Some(p));
    Takes(s, w, Go, t);
    NeverRaised(t, w);
    copy := WorkerOf(t, w).pc.copy;
  }

  lemma NoRowYet(s: State, w: Wid)
    requires Inv(s) && WorkerOf(s, w).pc.Inserting?
    ensures WorkerOf(s, w).pc.user !in View(s, w).subs
  {
    AtItsPc(s, w);
  }

  lemma InsertingStep(s: State, w: Wid, u: UserId, row: Subscription, next: Next) returns (t: State)
    requires Alone(s, w, Inserting(u, row, next))
    ensures Reaches(s, t) && Alone(t, w, Committing(next))
  {
    hide Inv, Reaches;
    t := Insert(s, w, u, row, next);
    Takes(s, w, Go, t);
    NoRowYet(s, w);
    WritesAlone(s, w, u, row, row, Committing(next));
  }

  lemma CreditingStep(s: State, w: Wid, u: UserId, p: PayId, now: Time, copy: Option<Subscription>) returns (t: State)
    requires Alone(s, w, Crediting(u, p, now, copy))
    ensures Reaches(s, t) && Alone(t, w, WorkerOf(t, w).pc)
    ensures var pc := WorkerOf(t, w).pc;
            (pc.Inserting? || pc.Flushing?) && pc.user == u && pc.next == ToSync(u, SyncCall(copy), Some(p))
  {
    hide Inv, Reaches;
    t := CreditDays(s, w, u, p, now, copy);
    Takes(s, w, Go, t);
    NeverRaised(t, w);
  }

  /** A lost claim still has a row to show. */
  lemma ClaimIsKnown(s: State, w: Wid, u: UserId, p: PayId, now: Time, copy: Option<Subscription>)
    requires Inv(s) && WorkerOf(s, w).pc == Claiming(u, p, now, copy)
    ensures View(s, w) == s.db && p in s.db.payments && (s.db.payments[p].applied.Some? ==> copy.Some?)
  {
    AtItsPc(s, w);
    QuietView(s, w);
  }

  lemma ClaimingStep(s: State, w: Wid, u: UserId, p: PayId, now: Time, copy: Option<Subscription>) returns (t: State)
    requires Alone(s, w, Claiming(u, p, now, copy))
    ensures Reaches(s, t) && Alone(t, w, WorkerOf(t, w).pc)
    ensures var pc := WorkerOf(t, w).pc;
            pc == Crediting(u, p, now, copy) || pc == Committing(ToSync(u, SyncCall(copy), Some(p)))
  {
    hide Inv, Reaches;
    t := Claim(s, w, u, p, now, copy);
    Takes(s, w, Go, t);
    ClaimIsKnown(s, w, u, p, now, copy);
    var row := s.db.payments[p];
    UpdatesAlone(s, w, p, row.applied.None?, row.(applied := Some(now)), Crediting(u, p, now, copy),
                 Committing(if copy.None? then ToRaise else ToSync(u, SyncCall(copy), Some(p))));
  }

  lemma WaitingStep(s: State, w: Wid, u: UserId, p: PayId, now: Time) returns (t: State)
    requires Alone(s, w, Waiting(u, Buy(p, now)))
    ensures Reaches(s, t) && Alone(t, w, Reading(u, Buy(p, now)))
  {
    hide Inv, Reaches;
    t := WaitForUser(s, w, u, Buy(p, now));
    Takes(s, w, Go, t);
  }

  lemma ReadsAlone(s: State, w: Wid, u: UserId, p: PayId, now: Time) returns (copy: Option<Subscription>)
    requires Unlocked(s, w)
    ensures var t := LockByUser(s, w, u, Buy(p, now), 0);
            Unlocked(t, w) && WorkerOf(t, w).pc == Claiming(u, p, now, copy)
  {
    var view := View(s, w).subs;
    copy := if u in view then Some(view[u]) else None;
  }

  lemma ReadingStep(s: State, w: Wid, u: UserId, p: PayId, now: Time) returns (t: State, copy: Option<Subscription>)
    requires Alone(s, w, Reading(u, Buy(p, now)))
    ensures Reaches(s, t) && Alone(t, w, Claiming(u, p, now, copy))
  {
    hide Inv, Reaches;
    t := LockByUser(s, w, u, Buy(p, now), 0);
    Takes(s, w, Go, t);
    copy := ReadsAlone(s, w, u, p, now);
  }

  lemma ApplyingStep(s: State, w: Wid, p: PayId) returns (t: State, u: UserId)
    requires Alone(s, w, Applying(p))
    ensures Reaches(s, t) && Alone(t, w, Waiting(u, Buy(p, s.clock)))
  {
    hide Inv, Reaches;
    t := Apply(s, w, p);
    Takes(s, w, Go, t);
    NeverRaised(t, w);
    u := WorkerOf(t, w).pc.user;
  }

  lemma AskingStep(s: State, w: Wid, p: PayId) returns (t: State)
    requires Alone(s, w, Asking(p))
    ensures Reaches(s, t) && Alone(t, w, Pricing(p)) && t.db == s.db
  {
    hide Inv, Reaches;
    t := Ask(s, w, p, SaysPaid);
    Takes(s, w, Provider(SaysPaid), t);
  }

  lemma PricingStep(s: State, w: Wid, p: PayId) returns (t: State, target: Time)
    requires Alone(s, w, Pricing(p))
    ensures Reaches(s, t) && Alone(t, w, Marking(p, s.clock, target)) && t.db == s.db
  {
    hide Inv, Reaches;
    t := Price(s, w, p);
    Takes(s, w, Go, t);
    NeverRaised(t, w);
    target := WorkerOf(t, w).pc.target;
  }

  lemma NothingWritten(s: State, w: Wid)
    requires Inv(s) && !Busy(WorkerOf(s, w).pc)
    ensures View(s, w) == s.db
  {
    AtItsPc(s, w);
    QuietView(s, w);
  }

  lemma MarkingStep(s: State, w: Wid, p: PayId, now: Time, target: Time) returns (t: State)
    requires Alone(s, w, Marking(p, now, target)) && p in s.db.payments && s.db.payments[p].status.Pending?
    ensures Reaches(s, t) && Alone(t, w, Committing(ToApply(p)))
  {
    hide Inv, Reaches;
    t := Protocol.MarkPaid(s, w, p, now, target);
    Takes(s, w, Go, t);
    NothingWritten(s, w);
    UpdatesAlone(s, w, p, true, s.db.payments[p].(status := Paid, paidAt := Some(now), target := Some(target)),
                 Committing(ToApply(p)), Committing(ToIdle));
  }

  lemma LockingStep(s: State, w: Wid, p: PayId) returns (t: State)
    requires Alone(s, w, Locking(p)) && p in s.db.payments
             && (s.db.payments[p].status.Paid? || s.db.payments[p].status.Pending?)
    ensures Reaches(s, t) && Alone(t, w, if s.db.payments[p].status.Paid? then Applying(p) else Asking(p))
            && t.db == s.db
  {
    hide Inv, Reaches;
    t := LockForFinalize(s, w, p);
    Takes(s, w, Go, t);
    NothingWritten(s, w);
  }

  lemma ReopeningStep(s: State, w: Wid, p: PayId) returns (t: State)
    requires Alone(s, w, Reopening(p)) && p in s.db.payments && s.db.payments[p].status.Expired?
    ensures Reaches(s, t) && Alone(t, w, Committing(ToLock(p)))
    ensures p in View(t, w).payments && View(t, w).payments[p].status.Pending?
  {
    hide Inv, Reaches;
    t := Protocol.Reopen(s, w, p);
    Takes(s, w, Go, t);
    NothingWritten(s, w);
    UpdatesAlone(s, w, p, true, s.db.payments[p].(status := PaymentStatus.Pending), Committing(ToLock(p)), Idle);
  }

  lemma StartingStep(s: State, w: Wid, program: Program) returns (t: State)
    requires Alone(s, w, Idle) && (program.Finalize? || program.LateSweep?)
    ensures Reaches(s, t) && Alone(t, w, if program.Finalize? then Locking(program.pay) else Reopening(program.pay))
            && t.db == s.db
  {
    hide Inv, Reaches;
    t := Begin(s, w, program);
    Takes(s, w, Start(program), t);
  }

  // ---- the way to delivery -------------------------------------------------

  lemma FromDelivering(s: State, w: Wid, p: PayId)
    requires Alone(s, w, Delivering(p))
    ensures CanDeliver(s, p)
  {
    var t := DeliveringStep(s, w, p);
    var r := CommitsAlone(t, w, ToIdle);
    Joins(s, t, r);
    assert IsDelivered(r, p);
  }

  lemma FromDelivery(s: State, w: Wid, p: PayId)
    requires Alone(s, w, Committing(ToDeliver(p)))
    ensures CanDeliver(s, p)
  {
    var t := CommitsAlone(s, w, ToDeliver(p));
    FromDelivering(t, w, p);
    Onwards(s, t, p);
  }

  lemma FromFlushing(s: State, w: Wid, u: UserId, loaded: Subscription, edited: Subscription, p: PayId)
    requires Alone(s, w, Flushing(u, loaded, edited, ToDeliver(p)))
    ensures CanDeliver(s, p)
  {
    var t := FlushingStep(s, w, u, loaded, edited, ToDeliver(p));
    FromDelivery(t, w, p);
    Onwards(s, t, p);
  }

  lemma FromSyncing(s: State, w: Wid, u: UserId, call: Call, p: PayId)
    requires Alone(s, w, Committing(ToSync(u, call, Some(p))))
    ensures CanDeliver(s, p)
  {
    var t := CommitsAlone(s, w, ToSync(u, call, Some(p)));
    var r, copy := RefreshingStep(t, w, u, call, p);
    var q, edited := CallingStep(r, w, u, call, copy, p);
    FromFlushing(q, w, u, copy, edited, p);
    Onwards(r, q, p);
    Onwards(t, r, p);
    Onwards(s, t, p);
  }

  lemma FromCrediting(s: State, w: Wid, u: UserId, p: PayId, now: Time, copy: Option<Subscription>)
    requires Alone(s, w, Crediting(u, p, now, copy))
    ensures CanDeliver(s, p)
  {
    var t := CreditingStep(s, w, u, p, now, copy);
    var pc := WorkerOf(t, w).pc;
    var r: State;
    if pc.Inserting? {
      r := InsertingStep(t, w, u, pc.row, pc.next);
    } else {
      r := FlushingStep(t, w, u, pc.loaded, pc.edited, pc.next);
    }
    FromSyncing(r, w, u, SyncCall(copy), p);
    Onwards(t, r, p);
    Onwards(s, t, p);
  }

  lemma FromClaiming(s: State, w: Wid, u: UserId, p: PayId, now: Time, copy: Option<Subscription>)
    requires Alone(s, w, Claiming(u, p, now, copy))
    ensures CanDeliver(s, p)
  {
    var t := ClaimingStep(s, w, u, p, now, copy);
    if WorkerOf(t, w).pc.Crediting? {
      FromCrediting(t, w, u, p, now, copy);
    } else {
      FromSyncing(t, w, u, SyncCall(copy), p);
    }
    Onwards(s, t, p);
  }

  lemma FromApplying(s: State, w: Wid, p: PayId)
    requires Alone(s, w, Applying(p))
    ensures CanDeliver(s, p)
  {
    var t, u := ApplyingStep(s, w, p);
    var r := WaitingStep(t, w, u, p, s.clock);
    var q, copy := ReadingStep(r, w, u, p, s.clock);
    FromClaiming(q, w, u, p, s.clock, copy);
    Onwards(r, q, p);
    Onwards(t, r, p);
    Onwards(s, t, p);
  }

  lemma FromMarked(s: State, w: Wid, p: PayId)
    requires Alone(s, w, Committing(ToApply(p)))
    ensures CanDeliver(s, p)
  {
    var t := CommitsAlone(s, w, ToApply(p));
    FromApplying(t, w, p);
    Onwards(s, t, p);
  }

  lemma FromAsking(s: State, w: Wid, p: PayId)
    requires Alone(s, w, Asking(p)) && p in s.db.payments && s.db.payments[p].status.Pending?
    ensures CanDeliver(s, p)
  {
    var t := AskingStep(s, w, p);
    var r, target := PricingStep(t, w, p);
    var q := MarkingStep(r, w, p, t.clock, target);
    FromMarked(q, w, p);
    Onwards(r, q, p);
    Onwards(t, r, p);
    Onwards(s, t, p);
  }

  lemma FromLocking(s: State, w: Wid, p: PayId)
    requires Alone(s, w, Locking(p)) && p in s.db.payments
             && (s.db.payments[p].status.Paid? || s.db.payments[p].status.Pending?)
    ensures CanDeliver(s, p)
  {
    var t := LockingStep(s, w, p);
    if s.db.payments[p].status.Paid? {
      FromApplying(t, w, p);
    } else {
      FromAsking(t, w, p);
    }
    Onwards(s, t, p);
  }

  lemma FromReopening(s: State, w: Wid, p: PayId)
    requires Alone(s, w, Reopening(p)) && p in s.db.payments && s.db.payments[p].status.Expired?
    ensures CanDeliver(s, p)
  {
    var t := ReopeningStep(s, w, p);
    var r := CommitsAlone(t, w, ToLock(p));
    FromLocking(r, w, p);
    Onwards(t, r, p);
    Onwards(s, t, p);
  }

  /** One idle worker, undisturbed, delivers anything the provider says is paid. */
  lemma FromIdle(s: State, w: Wid, p: PayId)
    requires Alone(s, w, Idle) && p in s.db.payments && !s.db.payments[p].status.Canceled?
    ensures CanDeliver(s, p)
  {
    var status := s.db.payments[p].status;
    if status.Provisioned? {
      assert Run(s, []) == s;
      assert Reaches(s, s) && IsDelivered(s, p);
    } else if status.Expired? {
      var t := StartingStep(s, w, LateSweep(p));
      FromReopening(t, w, p);
      Onwards(s, t, p);
    } else {
      var t := StartingStep(s, w, Finalize(p));
      FromLocking(t, w, p);
      Onwards(s, t, p);
    }
  }

  // ---- from anywhere -------------------------------------------------------

  lemma FewerLocks(s: State, v: Wid, k: Lock)
    requires k in s.locks && s.locks[k] == v
    ensures |Kill(s, v).locks| < |s.locks|
  {
    var left := Without(s.locks, v);
    assert left.Keys <= s.locks.Keys - {k};
    assert |s.locks.Keys - {k}| == |s.locks| - 1;
    assert |(s.locks.Keys - {k}) - left.Keys| == |s.locks.Keys - {k}| - |left.Keys|;
  }

  /** Deaths release every lock and take back everything uncommitted. */
  lemma {:induction false} EverybodyDies(s: State, w: Wid) returns (t: State)
    requires Inv(s)
    ensures Reaches(s, t) && Alone(t, w, Idle) && t.db == s.db
    decreases |s.locks|
  {
    if k :| k in s.locks && s.locks[k] != w {
      var v := s.locks[k];
      var r := Kill(s, v);
      KillKeepsInv(s, v);
      OneAction(s, Act(v, Crash), r);
      FewerLocks(s, v, k);
      t := EverybodyDies(r, w);
      Joins(s, r, t);
    } else {
      t := Kill(s, w);
      KillKeepsInv(s, w);
      OneAction(s, Act(w, Crash), t);
    }
  }

  /** From every reachable state, every payment that was not canceled can still be
      delivered, days and all, whatever the workers hold, cached or left undone. */
  lemma MoneyIsNeverTrapped(clock: Time, schedule: seq<Action>, p: PayId) returns (more: seq<Action>)
    requires p in Run(Start0(clock), schedule).db.payments
             && !Run(Start0(clock), schedule).db.payments[p].status.Canceled?
    ensures var db := Run(Start0(clock), schedule + more).db;
            && p in db.payments && db.payments[p].status.Provisioned? && db.payments[p].applied.Some?
            && db.payments[p].user in db.subs
  {
    RunKeepsInv(clock, schedule);
    var s := Run(Start0(clock), schedule);
    var r := EverybodyDies(s, 0);
    FromIdle(r, 0, p);
    Onwards(s, r, p);
    var t :| Reaches(s, t) && IsDelivered(t, p);
    more :| Run(s, more) == t;
    RunJoins(Start0(clock), schedule, more);
    RunKeepsInv(clock, schedule + more);
  }
}
