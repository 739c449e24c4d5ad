/** The other programs of the step machine, run by a worker that nobody races: the
    taps, the sweeps row by row, invoices and reminders. */
module SoloPrograms {
  import opened Model
  import opened Ledger
  import opened Protocol
  import opened Safety
  import opened Payments
  import opened Solo
  import Reconcile
  import Sweeps

  // ---- the other programs --------------------------------------------------

  /** The end of a tap: a call to the panel about `u`, heard or not. */
  lemma CallRunsThrough(s: State, w: Wid, may: set<Choice>, view: Db, now: Time, u: UserId, call: Call,
                        token: Option<Option<Token>>)
    requires u in view.subs && Go in may && (if token.Some? then PanelOk(token.value) else PanelError) in may
    requires Gets(s, w, may, view, Committing(ToSync(u, call, None)), now)
    ensures Leaves(s, w, may, if token.None? then view
                              else WithSub(view, u, AfterCall(call, view.subs[u], token.value, now)))
  {
    hide Gets, Leaves, AfterCall;
    GetsCommitted(s, w, may, view, ToSync(u, call, None), now);
    GetsCalled(s, w, may, view, now, u, call, None);
    if token.None? {
      GetsNowhere(s, w, may, view, now, u, call, view.subs[u], None);
    } else {
      GetsAnswered(s, w, may, view, now, u, call, None, token.value);
      GetsCommitted(s, w, may, WithSub(view, u, AfterCall(call, view.subs[u], token.value, now)), ToIdle, now);
    }
  }

  function Called(view: Db, u: UserId, call: Call, token: Option<Option<Token>>, now: Time): Db
    requires u in view.subs
  {
    if token.None? then view else WithSub(view, u, AfterCall(call, view.subs[u], token.value, now))
  }

  lemma LatchesTrial(t: State, w: Wid, view: Db, now: Time, u: UserId, days: nat)
    requires Sees(t, w, view, Latching(u, now, days), now) && u in view.users && view.users[u].None?
    ensures Sees(LatchTrial(t, w, u, now, days), w, view.(users := view.users[u := Some(now)]),
                 Inserting(u, NewSubscription(u, now, now + days, Trial, DEFAULT_MAX_DEVICES),
                           ToSync(u, Provision, None)), now)
  {
    hide NewSubscription, Busy;
    QuietToBusy(t, w, view, Latching(u, now, days), now);
    var writes := WorkerOf(t, w).writes;
    assert t.db.users + writes.users[u := Some(now)] == (t.db.users + writes.users)[u := Some(now)];
  }

  lemma TrialIsSpent(t: State, w: Wid, view: Db, now: Time, u: UserId, days: nat)
    requires Sees(t, w, view, Latching(u, now, days), now) && !(u in view.users && view.users[u].None?)
    ensures Sees(LatchTrial(t, w, u, now, days), w, view, Committing(ToIdle), now)
  {
    hide Busy;
    QuietToBusy(t, w, view, Latching(u, now, days), now);
    Jumps(t, w, view, Latching(u, now, days), now, Committing(ToIdle));
  }

  lemma AtLatching(t: State, w: Wid, u: UserId, now: Time, days: nat)
    requires WorkerOf(t, w).pc == Latching(u, now, days)
    ensures Step(t, w, Go) == LatchTrial(t, w, u, now, days)
  {
    hide LatchTrial;
  }

  lemma GetsLatching(s: State, w: Wid, may: set<Choice>, db: Db, now: Time, u: UserId, days: nat)
    requires Gets(s, w, may, db, Latching(u, now, days), now) && Go in may
    ensures if u in db.users && db.users[u].None? then
              Gets(s, w, may, db.(users := db.users[u := Some(now)]),
                   Inserting(u, NewSubscription(u, now, now + days, Trial, DEFAULT_MAX_DEVICES),
                             ToSync(u, Provision, None)), now)
            else Gets(s, w, may, db, Committing(ToIdle), now)
  {
    hide Step, LatchTrial, Sees, CanReach, NewSubscription;
    var t :| CanReach(s, w, may, t) && Sees(t, w, db, Latching(u, now, days), now);
    OneMore(s, w, may, t, Go);
    SeesPc(t, w, db, Latching(u, now, days), now);
    AtLatching(t, w, u, now, days);
    if u in db.users && db.users[u].None? {
      LatchesTrial(t, w, db, now, u, days);
    } else {
      TrialIsSpent(t, w, db, now, u, days);
    }
  }

  lemma GetsLatched(s: State, w: Wid, may: set<Choice>, db: Db, now: Time, u: UserId, days: nat)
    requires Gets(s, w, may, db, Latching(u, now, days), now) && Go in may && u !in db.subs
    ensures if u in db.users && db.users[u].None? then
              Gets(s, w, may, Access.WithGift(db, u, Tried(now, days)), Committing(ToSync(u, Provision, None)), now)
            else Leaves(s, w, may, db)
  {
    hide Gets, Leaves;
    GetsLatching(s, w, may, db, now, u, days);
    if u in db.users && db.users[u].None? {
      var row := NewSubscription(u, now, now + days, Trial, DEFAULT_MAX_DEVICES);
      GetsInserted(s, w, may, db.(users := db.users[u := Some(now)]), now, u, row, ToSync(u, Provision, None));
      assert WithSub(db.(users := db.users[u := Some(now)]), u, row) == Access.WithGift(db, u, Tried(now, days));
    } else {
      GetsCommitted(s, w, may, db, ToIdle, now);
    }
  }

  /** The trial button. */
  lemma TrialAlone(s: State, w: Wid, db: Db, now: Time, u: UserId, days: nat, token: Option<Option<Token>>)
    requires Rests(s, w, db, now)
    ensures var may := Decisions(TrialTap(u), SaysPending, token) + {TrialDays(days)};
            if u in db.subs then
              Leaves(s, w, may, if Access.Unfinished(db.subs[u]) then Called(db, u, Provision, token, now) else db)
            else if u in db.users && db.users[u].None? then
              Leaves(s, w, may, Called(Access.WithGift(db, u, Tried(now, days)), u, Provision, token, now))
            else Leaves(s, w, may, db)
  {
    hide Gets, Leaves, AfterCall, NewSubscription;
    var may := Decisions(TrialTap(u), SaysPending, token) + {TrialDays(days)};
    Enters(s, w, may, db, now, TrialTap(u));
    GetsRow(s, w, may, db, now, u, Try, TrialDays(days));
    if u in db.subs {
      if Access.Unfinished(db.subs[u]) {
        CallRunsThrough(s, w, may, db, now, u, Provision, token);
      } else {
        GetsCommitted(s, w, may, db, ToIdle, now);
      }
    } else {
      GetsLatched(s, w, may, db, now, u, days);
      if u in db.users && db.users[u].None? {
        CallRunsThrough(s, w, may, Access.WithGift(db, u, Tried(now, days)), now, u, Provision, token);
      }
    }
  }

  /** The admin's grant: a first one is provisioned, a later one pushed. */
  lemma GrantAlone(s: State, w: Wid, db: Db, now: Time, u: UserId, days: nat, token: Option<Option<Token>>)
    requires Rests(s, w, db, now)
    ensures Leaves(s, w, Decisions(GrantTap(u, days), SaysPending, token),
                   Called(Access.WithGift(db, u, Granted(now, days)), u, if u in db.subs then Push else Provision,
                          token, now))
  {
    hide Gets, Leaves, AfterCall;
    var may := Decisions(GrantTap(u, days), SaysPending, token);
    var given := Access.WithGift(db, u, Granted(now, days));
    Enters(s, w, may, db, now, GrantTap(u, days));
    GetsRow(s, w, may, db, now, u, Grant(days, now), Go);
    if u in db.subs {
      GetsFlushed(s, w, may, db, now, u, db.subs[u], given.subs[u], ToSync(u, Push, None));
      CallRunsThrough(s, w, may, given, now, u, Push, token);
    } else {
      GetsInserted(s, w, may, db, now, u, given.subs[u], ToSync(u, Provision, None));
      CallRunsThrough(s, w, may, given, now, u, Provision, token);
    }
  }

  lemma Revokes(s: State, w: Wid, db: Db, now: Time, u: UserId)
    requires Rests(s, w, db, now) && u in db.subs
    ensures var edited := db.subs[u].(status := Revoked);
            Sees(Begin(s, w, RevokeTap(u)), w, db, Flushing(u, db.subs[u], edited, ToBlock(u, edited)), now)
  {
  }

  /** The admin's revoke: withdrawn and committed before the panel hears of it. */
  lemma RevokeAlone(s: State, w: Wid, db: Db, now: Time, u: UserId, token: Option<Option<Token>>)
    requires Rests(s, w, db, now) && u in db.subs
    ensures var row := db.subs[u].(status := Revoked);
            Leaves(s, w, Decisions(RevokeTap(u), SaysPending, token),
                   WithSub(db, u, if token.None? then row else row.(synced := Some(now))))
  {
    hide Step, Begin, Sees, CanReach, Ends;
    var may := Decisions(RevokeTap(u), SaysPending, token);
    var row, edited := db.subs[u], db.subs[u].(status := Revoked);
    var view := WithSub(db, u, edited);
    RestsIsIdle(s, w, db, now);
    assert WorkerOf(s, w).pc.Idle?;
    AtIdle(s, w, RevokeTap(u));
    Revokes(s, w, db, now, u);
    Stays(s, w, may);
    OneMore(s, w, may, s, Start(RevokeTap(u)));
    GetsFlushed(s, w, may, db, now, u, row, edited, ToBlock(u, edited));
    GetsCommitted(s, w, may, view, ToBlock(u, edited), now);
    hide Gets, Leaves;
    if token.None? {
      GetsNowhere(s, w, may, view, now, u, Block, edited, None);
    } else {
      GetsAnswered(s, w, may, view, now, u, Block, None, token.value);
      GetsCommitted(s, w, may, WithSub(view, u, edited.(synced := Some(now))), ToIdle, now);
      assert WithSub(view, u, edited.(synced := Some(now))) == WithSub(db, u, edited.(synced := Some(now)));
    }
  }

  // ---- the sweeps, row by row ----------------------------------------------

  lemma GetsExamined(s: State, w: Wid, may: set<Choice>, db: Db, now: Time, u: UserId)
    requires Gets(s, w, may, db, Examining(u), now) && u in db.subs && Go in may
    ensures Gets(s, w, may, db, Repairing(u, db.subs[u]), now)
  {
    hide Step, CanReach, Sees, Examine;
    var t :| CanReach(s, w, may, t) && Sees(t, w, db, Examining(u), now);
    OneMore(s, w, may, t, Go);
    SeesPc(t, w, db, Examining(u), now);
    AtExamining(t, w, u);
    Examines(t, w, db, now, u);
  }

  lemma Examines(t: State, w: Wid, view: Db, now: Time, u: UserId)
    requires Sees(t, w, view, Examining(u), now) && u in view.subs
    ensures Sees(Examine(t, w, u), w, view, Repairing(u, view.subs[u]), now)
  {
  }

  lemma AtExamining(t: State, w: Wid, u: UserId)
    requires WorkerOf(t, w).pc == Examining(u)
    ensures Step(t, w, Go) == Examine(t, w, u)
  {
    hide Examine;
  }

  /** Where each repair of an open row begins. */
  function Mend(u: UserId, row: Subscription, repair: Repair, now: Time): Pc {
    if row.Closed() then Idle
    else
      match repair
      case Nothing => Idle
      case Create => Refreshing(u, Provision, None)
      case PushOnly => Refreshing(u, Push, None)
      case Extend => Flushing(u, row, ExtendTo(row, row.expires), ToSync(u, Push, None))
      case Settle(token, enabled) => Flushing(u, row, AfterSettle(row, token, enabled, now), ToIdle)
  }

  lemma Mends(t: State, w: Wid, view: Db, now: Time, u: UserId, row: Subscription, repair: Repair)
    requires Sees(t, w, view, Repairing(u, row), now)
    ensures Sees(RepairRow(t, w, u, row, repair), w, view, Mend(u, row, repair, now), now)
  {
    hide View, AfterSettle, ExtendTo;
    QuietToBusy(t, w, view, Repairing(u, row), now);
    Jumps(t, w, view, Repairing(u, row), now, Mend(u, row, repair, now));
  }

  lemma AtRepairing(t: State, w: Wid, u: UserId, row: Subscription, repair: Repair)
    requires WorkerOf(t, w).pc == Repairing(u, row)
    ensures Step(t, w, Fix(repair)) == RepairRow(t, w, u, row, repair)
  {
    hide RepairRow;
  }

  lemma GetsMended(s: State, w: Wid, may: set<Choice>, db: Db, now: Time, u: UserId, row: Subscription, repair: Repair)
    requires Gets(s, w, may, db, Repairing(u, row), now) && Fix(repair) in may
    ensures Gets(s, w, may, db, Mend(u, row, repair, now), now)
  {
    hide Step, CanReach, Sees, RepairRow, Mend;
    var t :| CanReach(s, w, may, t) && Sees(t, w, db, Repairing(u, row), now);
    OneMore(s, w, may, t, Fix(repair));
    SeesPc(t, w, db, Repairing(u, row), now);
    AtRepairing(t, w, u, row, repair);
    Mends(t, w, db, now, u, row, repair);
  }

  lemma CallingRunsThrough(s: State, w: Wid, may: set<Choice>, view: Db, now: Time, u: UserId, call: Call,
                           token: Option<Option<Token>>)
    requires u in view.subs && Go in may && (if token.Some? then PanelOk(token.value) else PanelError) in may
    requires Gets(s, w, may, view, Refreshing(u, call, None), now)
    ensures Leaves(s, w, may, Called(view, u, call, token, now))
  {
    hide Gets, Leaves, AfterCall;
    GetsCalled(s, w, may, view, now, u, call, None);
    if token.None? {
      GetsNowhere(s, w, may, view, now, u, call, view.subs[u], None);
    } else {
      GetsAnswered(s, w, may, view, now, u, call, None, token.value);
      GetsCommitted(s, w, may, WithSub(view, u, AfterCall(call, view.subs[u], token.value, now)), ToIdle, now);
    }
  }

  /** One row of the reconciler, for each repair that the panel's state may call for. */
  lemma ReconcileAlone(s: State, w: Wid, db: Db, now: Time, u: UserId, repair: Repair, token: Option<Option<Token>>)
    requires Rests(s, w, db, now) && u in db.subs
    ensures var row, may := db.subs[u], Decisions(Reconcile(u), SaysPending, token) + {Fix(repair)};
            Leaves(s, w, may,
                   if row.Closed() then db
                   else
                     match repair
                     case Nothing => db
                     case Create => Called(db, u, Provision, token, now)
                     case PushOnly => Called(db, u, Push, token, now)
                     case Extend => Called(WithSub(db, u, ExtendTo(row, row.expires)), u, Push, token, now)
                     case Settle(found, enabled) => WithSub(db, u, AfterSettle(row, found, enabled, now)))
  {
    hide Gets, Leaves, AfterCall, Called;
    var row, may := db.subs[u], Decisions(Reconcile(u), SaysPending, token) + {Fix(repair)};
    Enters(s, w, may, db, now, Reconcile(u));
    GetsExamined(s, w, may, db, now, u);
    GetsMended(s, w, may, db, now, u, row, repair);
    if row.Closed() || repair.Nothing? {
      IdleLeaves(s, w, may, db, now);
    } else {
      match repair
      case Create => CallingRunsThrough(s, w, may, db, now, u, Provision, token);
      case PushOnly => CallingRunsThrough(s, w, may, db, now, u, Push, token);
      case Extend =>
        var edited := ExtendTo(row, row.expires);
        GetsFlushed(s, w, may, db, now, u, row, edited, ToSync(u, Push, None));
        GetsCommitted(s, w, may, WithSub(db, u, edited), ToSync(u, Push, None), now);
        CallingRunsThrough(s, w, may, WithSub(db, u, edited), now, u, Push, token);
      case Settle(found, enabled) =>
        var edited := AfterSettle(row, found, enabled, now);
        GetsFlushed(s, w, may, db, now, u, row, edited, ToIdle);
        GetsCommitted(s, w, may, WithSub(db, u, edited), ToIdle, now);
    }
  }

  /** The repair that the reconciler's plan for this row comes down to. */
  function RepairOf(row: Subscription, account: Option<Panel.Account>): Repair {
    match Reconcile.Plan(row, account)
    case Recreate => Create
    case Restore => Extend
    case Resize => PushOnly
    case Heal => Settle(account.value.token, account.value.enabled)
    case Note => Settle(account.value.token, account.value.enabled)
    case _ => Nothing
  }

  /** The machine's repair leaves the row as an undisturbed visit promises. */
  lemma RepairIsTheVisit(row: Subscription, account: Option<Panel.Account>, now: Time)
    requires !row.Closed()
    ensures var token := Reconcile.MendedAccount(row, account).value.token;
            var row' := match RepairOf(row, account)
                        case Nothing => row
                        case Create => AfterProvision(row, token, now)
                        case PushOnly => AfterPush(row, token, now)
                        case Extend => AfterPush(ExtendTo(row, row.expires), token, now)
                        case Settle(found, enabled) => AfterSettle(row, found, enabled, now);
            Reconcile.MendedRow(row, account, row')
  {
  }

  lemma SyncsOne(t: State, w: Wid, view: Db, now: Time, u: UserId)
    requires Sees(t, w, view, Syncing(now), now)
    ensures var hit := u in view.subs && view.subs[u].status.Active? && view.subs[u].expires <= now;
            Sees(ExpireSub(t, w, u, now), w, if hit then WithSub(view, u, ExpireRow(view.subs[u])) else view,
                 Syncing(now), now)
  {
    hide View, ExpireRow, WriteSub;
    assert Busy(Syncing(now));
    if u in view.subs {
      Saves(t, w, view, Syncing(now), now, u, ExpireRow(view.subs[u]), Syncing(now));
    }
  }

  lemma AtSyncing(t: State, w: Wid, moment: Time, u: UserId)
    requires WorkerOf(t, w).pc == Syncing(moment)
    ensures Step(t, w, ExpireSubscription(u)) == ExpireSub(t, w, u, moment)
    ensures Step(t, w, Go) == Jump(t, w, Committing(ToIdle))
  {
    hide ExpireSub, Jump;
  }

  /** The due rows among those visited have become EXPIRED. */
  lemma {:induction false} GetsSynced(s: State, w: Wid, may: set<Choice>, db: Db, now: Time, visited: seq<UserId>)
    requires Gets(s, w, may, db, Syncing(now), now) && forall u | u in visited :: ExpireSubscription(u) in may
    ensures Gets(s, w, may, Access.WithExpired(db, Gone(db, now, visited)), Syncing(now), now)
  {
    hide Step, CanReach, Sees, ExpireSub, Jump;
    if visited == [] {
      assert Access.WithExpired(db, Gone(db, now, [])).subs == db.subs;
    } else {
      var before, u := visited[..|visited| - 1], visited[|visited| - 1];
      assert forall v | v in before :: v in visited;
      GetsSynced(s, w, may, db, now, before);
      var view := Access.WithExpired(db, Gone(db, now, before));
      var t :| CanReach(s, w, may, t) && Sees(t, w, view, Syncing(now), now);
      OneMore(s, w, may, t, ExpireSubscription(u));
      SeesPc(t, w, view, Syncing(now), now);
      AtSyncing(t, w, now, u);
      SyncsOne(t, w, view, now, u);
      OneMoreGone(db, now, visited);
    }
  }

  function Gone(db: Db, now: Time, visited: seq<UserId>): set<UserId> {
    set u | u in visited && u in Access.Due(db, now)
  }

  lemma OneMoreGone(db: Db, now: Time, visited: seq<UserId>)
    requires visited != []
    ensures var before, u := visited[..|visited| - 1], visited[|visited| - 1];
            var view := Access.WithExpired(db, Gone(db, now, before));
            var hit := u in view.subs && view.subs[u].status.Active? && view.subs[u].expires <= now;
            Access.WithExpired(db, Gone(db, now, visited)) ==
              if hit then WithSub(view, u, ExpireRow(view.subs[u])) else view
  {
    var before, u := visited[..|visited| - 1], visited[|visited| - 1];
    assert forall v :: v in visited <==> v in before || v == u;
    var view, after := Access.WithExpired(db, Gone(db, now, before)), Access.WithExpired(db, Gone(db, now, visited));
    assert forall v | v in db.subs && v != u :: v in Gone(db, now, visited) <==> v in Gone(db, now, before);
    if u in view.subs && view.subs[u].status.Active? && view.subs[u].expires <= now {
      assert after.subs == view.subs[u := ExpireRow(view.subs[u])];
    } else {
      assert after.subs == view.subs;
    }
  }

  /** sync_expired: if every due row is visited, all of them are called expired, and
      nothing else changes. */
  lemma SyncAlone(s: State, w: Wid, db: Db, now: Time, visited: seq<UserId>)
    requires Rests(s, w, db, now) && Access.Due(db, now) <= set u | u in visited
    ensures Leaves(s, w, {Go, Start(SyncExpired)} + set u | u in visited :: ExpireSubscription(u),
                   Access.WithExpired(db, Access.Due(db, now)))
  {
    hide Gets, Leaves, Access.WithExpired;
    var may := {Go, Start(SyncExpired)} + set u | u in visited :: ExpireSubscription(u);
    Enters(s, w, may, db, now, SyncExpired);
    GetsSynced(s, w, may, db, now, visited);
    assert Gone(db, now, visited) == Access.Due(db, now);
    GetsSyncedOut(s, w, may, Access.WithExpired(db, Access.Due(db, now)), now);
    GetsCommitted(s, w, may, Access.WithExpired(db, Access.Due(db, now)), ToIdle, now);
  }

  lemma GetsSyncedOut(s: State, w: Wid, may: set<Choice>, view: Db, now: Time)
    requires Gets(s, w, may, view, Syncing(now), now) && Go in may
    ensures Gets(s, w, may, view, Committing(ToIdle), now)
  {
    hide Step, CanReach, Sees, ExpireSub, Jump;
    var t :| CanReach(s, w, may, t) && Sees(t, w, view, Syncing(now), now);
    OneMore(s, w, may, t, Go);
    SeesPc(t, w, view, Syncing(now), now);
    AtSyncing(t, w, now, 0);
    Jumps(t, w, view, Syncing(now), now, Committing(ToIdle));
  }

  lemma ClosesOne(t: State, w: Wid, view: Db, now: Time, p: PayId)
    requires Sees(t, w, view, Closing, now) && p in view.payments
    ensures var row := view.payments[p];
            Sees(MarkExpired(t, w, p, Closing), w,
                 if row.status.Pending? then WithPayment(view, p, row.(status := PaymentStatus.Expired)) else view,
                 Closing, now)
  {
    hide View, UpdatePayment;
    assert Busy(Closing);
    Updates(t, w, view, Closing, now, p, view.payments[p].status.Pending?,
            view.payments[p].(status := PaymentStatus.Expired), Closing, Closing);
  }

  lemma AtClosing(t: State, w: Wid, p: PayId)
    requires WorkerOf(t, w).pc == Closing
    ensures Step(t, w, ExpirePayment(p)) == MarkExpired(t, w, p, Closing)
    ensures Step(t, w, Go) == Jump(t, w, Committing(ToIdle))
  {
    hide MarkExpired, Jump;
  }

  /** The pending payments among those visited have been closed. */
  lemma {:induction false} GetsClosed(s: State, w: Wid, may: set<Choice>, db: Db, now: Time, visited: seq<PayId>)
    requires Gets(s, w, may, db, Closing, now)
    requires forall p | p in visited :: p in db.payments && db.payments[p].status.Pending? && ExpirePayment(p) in may
    ensures Gets(s, w, may, Sweeps.WithClosed(db, Sweeps.Members(visited)), Closing, now)
  {
    hide Step, CanReach, Sees, MarkExpired, Jump;
    if visited == [] {
      assert Sweeps.WithClosed(db, Sweeps.Members([])).payments == db.payments;
    } else {
      var before, p := visited[..|visited| - 1], visited[|visited| - 1];
      assert forall q | q in before :: q in visited;
      assert p in visited;
      GetsClosed(s, w, may, db, now, before);
      var view := Sweeps.WithClosed(db, Sweeps.Members(before));
      var t :| CanReach(s, w, may, t) && Sees(t, w, view, Closing, now);
      OneMore(s, w, may, t, ExpirePayment(p));
      SeesPc(t, w, view, Closing, now);
      AtClosing(t, w, p);
      ClosesOne(t, w, view, now, p);
      OneMoreClosed(db, visited);
    }
  }

  lemma OneMoreClosed(db: Db, visited: seq<PayId>)
    requires visited != [] && forall p | p in visited :: p in db.payments && db.payments[p].status.Pending?
    ensures var before, p := visited[..|visited| - 1], visited[|visited| - 1];
            var view := Sweeps.WithClosed(db, Sweeps.Members(before));
            Sweeps.WithClosed(db, Sweeps.Members(visited)) ==
              if view.payments[p].status.Pending? then
                WithPayment(view, p, view.payments[p].(status := PaymentStatus.Expired))
              else view
  {
    var before, p := visited[..|visited| - 1], visited[|visited| - 1];
    assert p in visited && forall q :: q in visited <==> q in before || q == p;
    var view, after := Sweeps.WithClosed(db, Sweeps.Members(before)), Sweeps.WithClosed(db, Sweeps.Members(visited));
    if view.payments[p].status.Pending? {
      assert after.payments == view.payments[p := view.payments[p].(status := PaymentStatus.Expired)];
    } else {
      assert after.payments == view.payments;
    }
  }

  /** expire_stale: what is visited is closed, and nothing else changes. */
  lemma ExpireAlone(s: State, w: Wid, db: Db, now: Time, visited: seq<PayId>)
    requires Rests(s, w, db, now) && forall p | p in visited :: p in db.payments && db.payments[p].status.Pending?
    ensures Leaves(s, w, {Go, Start(ExpireStale)} + set p | p in visited :: ExpirePayment(p),
                   Sweeps.WithClosed(db, Sweeps.Members(visited)))
  {
    hide Gets, Leaves, Sweeps.WithClosed;
    var may := {Go, Start(ExpireStale)} + set p | p in visited :: ExpirePayment(p);
    Enters(s, w, may, db, now, ExpireStale);
    GetsClosed(s, w, may, db, now, visited);
    GetsClosedOut(s, w, may, Sweeps.WithClosed(db, Sweeps.Members(visited)), now);
    GetsCommitted(s, w, may, Sweeps.WithClosed(db, Sweeps.Members(visited)), ToIdle, now);
  }

  lemma GetsClosedOut(s: State, w: Wid, may: set<Choice>, view: Db, now: Time)
    requires Gets(s, w, may, view, Closing, now) && Go in may
    ensures Gets(s, w, may, view, Committing(ToIdle), now)
  {
    hide Step, CanReach, Sees, MarkExpired, Jump;
    var t :| CanReach(s, w, may, t) && Sees(t, w, view, Closing, now);
    OneMore(s, w, may, t, Go);
    SeesPc(t, w, view, Closing, now);
    AtClosing(t, w, 0);
    Jumps(t, w, view, Closing, now, Committing(ToIdle));
  }

  // ---- invoices and reminders ----------------------------------------------

  lemma BeginsInvoice(s: State, w: Wid, db: Db, now: Time, p: PayId, u: UserId, tariff: Tariff, ttl: nat)
    requires Rests(s, w, db, now) && p !in db.payments && u in db.users
    ensures Sees(Begin(s, w, Program.Invoice(p, u, tariff, now, ttl)), w,
                 WithPayment(db, p, FreshInvoice(u, tariff, now, ttl)), Invoiced(p), now)
  {
  }

  lemma ProviderRefuses(t: State, w: Wid, view: Db, now: Time, p: PayId)
    requires Sees(t, w, view, Invoiced(p), now) && p in view.payments && view.payments[p].status.Pending?
    ensures Sees(MarkExpired(t, w, p, Committing(ToIdle)), w,
                 WithPayment(view, p, view.payments[p].(status := PaymentStatus.Expired)), Committing(ToIdle), now)
  {
    hide View, UpdatePayment, Busy;
    QuietToBusy(t, w, view, Invoiced(p), now);
    Updates(t, w, view, Invoiced(p), now, p, true, view.payments[p].(status := PaymentStatus.Expired),
            Committing(ToIdle), Committing(ToIdle));
  }

  lemma AtInvoiced(t: State, w: Wid, p: PayId)
    requires WorkerOf(t, w).pc == Invoiced(p)
    ensures Step(t, w, Refused) == MarkExpired(t, w, p, Committing(ToIdle))
    ensures Step(t, w, Go) == Jump(t, w, Idle)
  {
    hide MarkExpired, Jump;
  }

  lemma GetsInvoiced(s: State, w: Wid, may: set<Choice>, view: Db, now: Time, p: PayId)
    requires Gets(s, w, may, view, Invoiced(p), now) && p in view.payments && view.payments[p].status.Pending?
    ensures Go in may ==> Gets(s, w, may, view, Idle, now)
    ensures Refused in may ==>
              Gets(s, w, may, WithPayment(view, p, view.payments[p].(status := PaymentStatus.Expired)),
                   Committing(ToIdle), now)
  {
    hide Step, CanReach, Sees, MarkExpired, Jump;
    var t :| CanReach(s, w, may, t) && Sees(t, w, view, Invoiced(p), now);
    SeesPc(t, w, view, Invoiced(p), now);
    AtInvoiced(t, w, p);
    if Go in may {
      OneMore(s, w, may, t, Go);
      Jumps(t, w, view, Invoiced(p), now, Idle);
    }
    if Refused in may {
      OneMore(s, w, may, t, Refused);
      ProviderRefuses(t, w, view, now, p);
    }
  }

  /** create_invoice: the row is there at once, and closed if the provider refuses. */
  lemma InvoiceAlone(s: State, w: Wid, db: Db, now: Time, p: PayId, u: UserId, tariff: Tariff, ttl: nat, issued: bool)
    requires Rests(s, w, db, now) && p !in db.payments && u in db.users
    ensures var row := FreshInvoice(u, tariff, now, ttl);
            var program := Program.Invoice(p, u, tariff, now, ttl);
            if issued then Leaves(s, w, {Go, Start(program)}, WithPayment(db, p, row))
            else Leaves(s, w, {Go, Refused, Start(program)},
                        WithPayment(db, p, row.(status := PaymentStatus.Expired)))
  {
    hide Step, Begin, CanReach, Sees, Ends;
    var program := Program.Invoice(p, u, tariff, now, ttl);
    var may := if issued then {Go, Start(program)} else {Go, Refused, Start(program)};
    var view := WithPayment(db, p, FreshInvoice(u, tariff, now, ttl));
    AtIdle(s, w, program);
    BeginsInvoice(s, w, db, now, p, u, tariff, ttl);
    Stays(s, w, may);
    OneMore(s, w, may, s, Start(program));
    assert Gets(s, w, may, view, Invoiced(p), now);
    hide Gets, Leaves;
    GetsInvoiced(s, w, may, view, now, p);
    if issued {
      IdleLeaves(s, w, may, view, now);
    } else {
      var closed := WithPayment(view, p, view.payments[p].(status := PaymentStatus.Expired));
      GetsCommitted(s, w, may, closed, ToIdle, now);
      assert closed == WithPayment(db, p, FreshInvoice(u, tariff, now, ttl).(status := PaymentStatus.Expired));
    }
  }

  lemma RemindBegins(s: State, w: Wid, db: Db, now: Time, u: UserId, stage: Stage)
    requires Rests(s, w, db, now) && u in db.subs && Expiring(db.subs[u], now, stage)
    ensures Sees(Begin(s, w, Remind(u, stage, now)), w, db, Noticing(u, stage, db.subs[u]), now)
  {
    hide Expiring;
  }

  lemma Notices(t: State, w: Wid, view: Db, now: Time, u: UserId, stage: Stage)
    requires u in view.subs && Sees(t, w, view, Noticing(u, stage, view.subs[u]), now)
    ensures var row := view.subs[u];
            if row.stage == Some(stage) || ShortTrial(row, stage) then
              Sees(Notice(t, w, u, stage, row), w, view, Idle, now)
            else Sees(Notice(t, w, u, stage, row), w, WithSub(view, u, row.(stage := Some(stage))),
                      Committing(ToMark(u, stage)), now)
  {
    hide ShortTrial, WriteSub, Busy;
    var row, pc := view.subs[u], Noticing(u, stage, view.subs[u]);
    QuietToBusy(t, w, view, pc, now);
    Jumps(t, w, view, pc, now, Idle);
    Saves(t, w, view, pc, now, u, row.(stage := Some(stage)), Committing(ToMark(u, stage)));
  }

  lemma AtNoticing(t: State, w: Wid, u: UserId, stage: Stage, copy: Subscription)
    requires WorkerOf(t, w).pc == Noticing(u, stage, copy)
    ensures Step(t, w, Go) == Notice(t, w, u, stage, copy)
  {
    hide Notice;
  }

  lemma GetsNoticed(s: State, w: Wid, may: set<Choice>, view: Db, now: Time, u: UserId, stage: Stage)
    requires u in view.subs && Gets(s, w, may, view, Noticing(u, stage, view.subs[u]), now) && Go in may
    ensures var row := view.subs[u];
            if row.stage == Some(stage) || ShortTrial(row, stage) then Gets(s, w, may, view, Idle, now)
            else Gets(s, w, may, WithSub(view, u, row.(stage := Some(stage))), Committing(ToMark(u, stage)), now)
  {
    hide Step, CanReach, Sees, Notice, ShortTrial;
    var row := view.subs[u];
    var t :| CanReach(s, w, may, t) && Sees(t, w, view, Noticing(u, stage, row), now);
    OneMore(s, w, may, t, Go);
    SeesPc(t, w, view, Noticing(u, stage, row), now);
    AtNoticing(t, w, u, stage, row);
    Notices(t, w, view, now, u, stage);
  }

  /** One row of a reminder pass: the marker is set exactly if the row is listed, not
      marked yet and not too short a trial, and nothing else changes. */
  lemma RemindAlone(s: State, w: Wid, db: Db, now: Time, u: UserId, stage: Stage)
    requires Rests(s, w, db, now) && u in db.subs && Expiring(db.subs[u], now, stage)
    ensures var row := db.subs[u];
            Leaves(s, w, {Go, Start(Remind(u, stage, now))},
                   if row.stage == Some(stage) || ShortTrial(row, stage) then db
                   else WithSub(db, u, row.(stage := Some(stage))))
  {
    hide Step, Begin, CanReach, Sees, Ends, Expiring, ShortTrial;
    var row, may := db.subs[u], {Go, Start(Remind(u, stage, now))};
    AtIdle(s, w, Remind(u, stage, now));
    RemindBegins(s, w, db, now, u, stage);
    Stays(s, w, may);
    OneMore(s, w, may, s, Start(Remind(u, stage, now)));
    assert Gets(s, w, may, db, Noticing(u, stage, row), now);
    hide Gets, Leaves;
    GetsNoticed(s, w, may, db, now, u, stage);
    if row.stage == Some(stage) || ShortTrial(row, stage) {
      IdleLeaves(s, w, may, db, now);
    } else {
      GetsCommitted(s, w, may, WithSub(db, u, row.(stage := Some(stage))), ToMark(u, stage), now);
    }
  }
}
