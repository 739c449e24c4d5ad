/** The histories of the reminder laws are what the machine does to a row: any run
    in which one worker makes the passes over a user leaves such a history behind. */
module RowHistories {
  import opened Model
  import opened Protocol
  import opened Safety
  import opened Reminders
  import opened Records

  // ---- every writer of the protocol ----------------------------------------

  /** The claim that the step commits, if it is a reminder's commit on this row. */
  function MarkOf(s: State, a: Action, u: UserId): Option<Stage> {
    if a.Act? && !a.choice.Crash? && WorkerOf(s, a.worker).pc.Committing? then
      match WorkerOf(s, a.worker).pc.next
      case ToMark(v, stage) => if v == u then Some(stage) else None
      case _ => None
    else None
  }

  lemma CommitMovesRow(db: Db, now: Time, held: set<Lock>, writes: Db, credit: Option<(UserId, Ledger.Entry)>,
                       u: UserId)
    requires TxOk(db, now, held, writes, credit) && Unmarked(db, writes) && u in db.subs
    ensures var row, row' := db.subs[u], Overlay(db, writes).subs[u]; row' == row || Follows(row, row')
  {
  }

  lemma CommitIsAnEvent(s: State, w: Wid, next: Next, u: UserId)
    requires Inv(s) && WorkerOf(s, w).pc == Committing(next) && u in s.db.subs
    ensures u in View(s, w).subs
    ensures var row, row' := s.db.subs[u], View(s, w).subs[u];
            if next.ToMark? && next.user == u then
              row.stage != Some(next.stage) && row' == row.(stage := Some(next.stage))
            else row' == row || Follows(row, row')
  {
    hide TxOk, Unmarked, NextOk, Follows;
    AtItsPc(s, w);
    var me := WorkerOf(s, w);
    if !next.ToMark? {
      CommitMovesRow(s.db, s.clock, Held(s, w), me.writes, me.credit, u);
    }
  }

  lemma IdleKeepsRows(s: State, w: Wid, c: Choice)
    requires Quiet(WorkerOf(s, w)) && !c.Crash? && WorkerOf(s, w).pc.Idle?
    ensures Step(s, w, c).db.subs == s.db.subs
  {
    QuietView(s, w);
  }

  /** Whatever step the protocol takes, a row moves as the histories allow: a claim
      sets the marker and nothing else, and every other commit follows on. */
  lemma EveryStepIsAnEvent(s: State, a: Action, u: UserId)
    requires Inv(s) && u in s.db.subs
    ensures u in Advance(s, a).db.subs
    ensures var row, row' := s.db.subs[u], Advance(s, a).db.subs[u];
            match MarkOf(s, a, u)
            case Some(stage) => row.stage != Some(stage) && row' == row.(stage := Some(stage))
            case None => row' == row || Follows(row, row')
  {
    hide Inv, Follows, View;
    if a.Act? && !a.choice.Crash? {
      var w, c := a.worker, a.choice;
      if WorkerOf(s, w).pc.Committing? {
        CommitIsAnEvent(s, w, WorkerOf(s, w).pc.next, u);
      } else if WorkerOf(s, w).pc.Idle? {
        IdleIsQuiet(s, w);
        IdleKeepsRows(s, w, c);
      } else {
        WorkerStep(s, w, c);
      }
    }
  }

  lemma IdleIsQuiet(s: State, w: Wid)
    requires Inv(s) && WorkerOf(s, w).pc.Idle?
    ensures Quiet(WorkerOf(s, w))
  {
    AtItsPc(s, w);
  }

  // ---- the passes over one user --------------------------------------------

  /** The worker is in a turn of `u`, from the listing to the commit of its claim. */
  predicate InTurn(pc: Pc, u: UserId) {
    match pc
    case Noticing(v, _, _) => v == u
    case Committing(next) => next.ToMark? && next.user == u
    case Inserting(_, _, next) => next.ToMark? && next.user == u
    case Flushing(_, _, _, next) => next.ToMark? && next.user == u
    case _ => false
  }

  predicate Starts(a: Action, u: UserId) {
    a.Act? && a.choice.Start? && a.choice.program.Remind? && a.choice.program.user == u
  }

  /** Nobody but `v` moves, and `v` begins no turn of `u`. */
  ghost predicate Moves(s: State, t: State, v: Wid, u: UserId) {
    t.workers == s.workers
    || (v in t.workers && t.workers == s.workers[v := t.workers[v]] && !InTurn(t.workers[v].pc, u))
  }

  lemma FunnelMoves(s: State, v: Wid, c: Choice, u: UserId)
    requires !c.Crash?
    requires var pc := WorkerOf(s, v).pc;
             pc.Locking? || pc.Asking? || pc.Pricing? || pc.Marking? || pc.Applying? || pc.Delivering?
    ensures Moves(s, Step(s, v, c), v, u)
  {
    hide Overlay, View, Cached;
  }

  lemma LockedMoves(s: State, v: Wid, c: Choice, u: UserId)
    requires !c.Crash? && !InTurn(WorkerOf(s, v).pc, u)
    requires var pc := WorkerOf(s, v).pc;
             pc.Waiting? || pc.Reading? || pc.Claiming? || pc.Crediting? || pc.Latching? || pc.Inserting?
    ensures Moves(s, Step(s, v, c), v, u)
  {
    hide Flush, Renew, NewSubscription, IsNewest, OthersApplied, Overlay, View, Max;
  }

  lemma SyncMoves(s: State, v: Wid, c: Choice, u: UserId)
    requires !c.Crash? && !InTurn(WorkerOf(s, v).pc, u)
    requires var pc := WorkerOf(s, v).pc;
             pc.Refreshing? || pc.Calling? || pc.Examining? || pc.Repairing? || pc.Flushing? || pc.Committing?
    ensures Moves(s, Step(s, v, c), v, u)
  {
    hide Overlay, View, Flush, AfterProvision, AfterPush;
  }

  lemma BatchMoves(s: State, v: Wid, c: Choice, u: UserId)
    requires !c.Crash? && !InTurn(WorkerOf(s, v).pc, u)
    requires var pc := WorkerOf(s, v).pc;
             pc.Invoiced? || pc.Reopening? || pc.Closing? || pc.Syncing? || pc.Noticing? || pc.Raised?
    ensures Moves(s, Step(s, v, c), v, u)
  {
    hide Overlay, View, ShortTrial;
  }

  lemma IdleMoves(s: State, v: Wid, c: Choice, u: UserId)
    requires !c.Crash? && WorkerOf(s, v).pc.Idle? && !Starts(Act(v, c), u)
    ensures Moves(s, Step(s, v, c), v, u)
  {
    hide Expiring, Cached, Overlay, View;
  }

  /** Only a pass that lists the user begins a turn. */
  lemma TurnsAreStarted(s: State, v: Wid, c: Choice, u: UserId)
    requires !InTurn(WorkerOf(s, v).pc, u) && !Starts(Act(v, c), u)
    ensures Moves(s, Step(s, v, c), v, u)
  {
    var pc := WorkerOf(s, v).pc;
    if c.Crash? {
    } else if pc.Idle? {
      IdleMoves(s, v, c, u);
    } else if pc.Locking? || pc.Asking? || pc.Pricing? || pc.Marking? || pc.Applying? || pc.Delivering? {
      FunnelMoves(s, v, c, u);
    } else if pc.Waiting? || pc.Reading? || pc.Claiming? || pc.Crediting? || pc.Latching? || pc.Inserting? {
      LockedMoves(s, v, c, u);
    } else if pc.Refreshing? || pc.Calling? || pc.Examining? || pc.Repairing? || pc.Flushing? || pc.Committing? {
      SyncMoves(s, v, c, u);
    } else {
      BatchMoves(s, v, c, u);
    }
  }

  // ---- the history of a run ------------------------------------------------

  /** What an onlooker notes down about a user: the history so far, the turn that
      is under way, and after how many events the session loaded its object. */
  datatype Track = Track(h: Option<History>, open: Option<Event>, loaded: nat)

  const NOTHING_SEEN := Track(None, None, 0)

  /** A commit of somebody else is a write; a turn counts once it is over. */
  function Observe(s: State, a: Action, tr: Track, u: UserId, w: Wid): Track {
    var t := Advance(s, a);
    if u !in t.db.subs then tr
    else if tr.h.None? || u !in s.db.subs then Track(Some(History(t.db.subs[u], [])), None, 0)
    else if a.Act? && a.worker == w then ObserveTurn(s, a.choice, tr.h.value, tr, u, w)
    else if t.db.subs[u] != s.db.subs[u] then tr.(h := Some(Then(tr.h.value, [Write(t.db.subs[u])])))
    else tr
  }

  function ObserveTurn(s: State, c: Choice, h: History, tr: Track, u: UserId, w: Wid): Track {
    var before, after := WorkerOf(s, w).pc, WorkerOf(Step(s, w, c), w).pc;
    if c.Crash? then tr.(open := None)
    else if !InTurn(before, u) then
      if InTurn(after, u) && c.Start? && c.program.Remind? then
        var copied := if u in WorkerOf(s, w).cache then tr.loaded else |h.events|;
        Track(Some(h), Some(Turn(c.program.stage, c.program.now, |h.events|, copied)), copied)
      else tr
    else if InTurn(after, u) || tr.open.None? then tr
    else Track(Some(Then(h, [tr.open.value])), None, if before.Committing? then |h.events| + 1 else tr.loaded)
  }

  function TrackOf(clock: Time, schedule: seq<Action>, u: UserId, w: Wid): Track {
    if schedule == [] then NOTHING_SEEN
    else
      var before := schedule[..|schedule| - 1];
      Observe(Run(Start0(clock), before), schedule[|schedule| - 1], TrackOf(clock, before, u, w), u, w)
  }

  /** Claims committed on the row in a run. */
  function Marks(clock: Time, schedule: seq<Action>, u: UserId, stage: Stage): nat {
    if schedule == [] then 0
    else
      var before := schedule[..|schedule| - 1];
      Marks(clock, before, u, stage)
      + if MarkOf(Run(Start0(clock), before), schedule[|schedule| - 1], u) == Some(stage) then 1 else 0
  }

  /** `w` makes passes and nothing else, and nobody else lists the user. */
  predicate Allowed(a: Action, u: UserId, w: Wid) {
    a.Act? && a.choice.Start? ==> if a.worker == w then a.choice.program.Remind? else !Starts(a, u)
  }

  /** No pass over the user begins before an earlier one. */
  ghost predicate Serial(schedule: seq<Action>, u: UserId, w: Wid) {
    && (forall i | 0 <= i < |schedule| :: Allowed(schedule[i], u, w))
    && forall i, j | 0 <= i < j < |schedule| && Starts(schedule[i], u) && Starts(schedule[j], u) ::
         schedule[i].choice.program.now <= schedule[j].choice.program.now
  }

  // ---- what the onlooker knows ---------------------------------------------

  ghost predicate TurnOk(h: History, e: Event, me: Worker, loaded: nat, u: UserId, now: Time)
    requires InTurn(me.pc, u)
  {
    && e.Turn? && e.copied <= e.listed <= |h.events| && e.at <= now && TurnsUpTo(h, e.at, e.listed)
    && Expiring(RowAt(h, e.listed), e.at, e.stage)
    && Loaded(h, RowAt(h, e.copied), e.copied)
    && u in me.cache
    && match me.pc
       case Noticing(_, stage, copy) =>
         e.stage == stage && copy == RowAt(h, e.copied) == me.cache[u] && loaded == e.copied
       case Committing(next) =>
         && e.stage == next.stage && u in me.writes.subs && me.cache[u] == me.writes.subs[u]
         && RowAt(h, e.copied).stage != Some(e.stage) && !ShortTrial(RowAt(h, e.copied), e.stage)
       case _ => false
  }

  ghost predicate RowTracked(row: Subscription, me: Worker, h: History, open: Option<Event>, loaded: nat, u: UserId,
                             now: Time) {
    && IsRecord(h, row, now)
    && (InTurn(me.pc, u) ==> open.Some? && TurnOk(h, open.value, me, loaded, u, now))
    && (u in me.cache && !(InTurn(me.pc, u) && me.pc.Committing?) ==> Loaded(h, me.cache[u], loaded))
  }

  ghost predicate InPass(me: Worker) {
    match me.pc
    case Idle => true
    case Noticing(_, _, _) => true
    case Committing(next) => next.ToMark? || (next.ToIdle? && me.writes == NOTHING)
    case _ => false
  }

  ghost predicate Tracked(s: State, tr: Track, u: UserId, w: Wid, now: Time) {
    && Inv(s) && InPass(WorkerOf(s, w))
    && (forall v | v != w :: !InTurn(WorkerOf(s, v).pc, u))
    && (tr.h.Some? <==> u in s.db.subs)
    && if tr.h.None? then u !in WorkerOf(s, w).cache && !InTurn(WorkerOf(s, w).pc, u)
       else RowTracked(s.db.subs[u], WorkerOf(s, w), tr.h.value, tr.open, tr.loaded, u, now)
  }

  /** What one step adds: a claim exactly when the machine commits one. */
  ghost predicate Adds(tr: Track, tr': Track, mark: Option<Stage>) {
    if tr.h.None? then mark.None? && (tr'.h.Some? ==> tr'.h.value.events == [])
    else
      && tr'.h.Some?
      && var h, h' := tr.h.value, tr'.h.value;
         || (mark.None? && h' == h)
         || exists e ::
              && h' == Then(h, [e])
              && (Claims(h', |h.events|) <==> mark.Some?) && (mark.Some? ==> e.Turn? && e.stage == mark.value)
  }

  ghost predicate StaysTracked(s: State, a: Action, tr: Track, u: UserId, w: Wid, now: Time) {
    var tr' := Observe(s, a, tr, u, w);
    Tracked(Advance(s, a), tr', u, w, now) && Adds(tr, tr', MarkOf(s, a, u))
  }

  // ---- somebody else's step ------------------------------------------------

  lemma WriteIsTracked(row: Subscription, me: Worker, h: History, open: Option<Event>, loaded: nat, u: UserId,
                       now: Time, row': Subscription)
    requires RowTracked(row, me, h, open, loaded, u, now) && Follows(row, row')
    ensures RowTracked(row', me, Then(h, [Write(row')]), open, loaded, u, now)
    ensures !Claims(Then(h, [Write(row')]), |h.events|)
  {
    hide RowAt, Claims, Expiring, ShortTrial, IsRecord, Follows, Loaded;
    var g := Then(h, [Write(row')]);
    WriteIsRecorded(h, row, now, row');
    RowAfter(g, |h.events|);
    assert OnlyWrites(h, g);
    if u in me.cache && !(InTurn(me.pc, u) && me.pc.Committing?) {
      StaysLoaded(h, g, me.cache[u], loaded);
    }
    if InTurn(me.pc, u) {
      var e := open.value;
      PrefixIsKept(h, [Write(row')], e.listed);
      PrefixIsKept(h, [Write(row')], e.copied);
      StaysLoaded(h, g, RowAt(h, e.copied), e.copied);
    }
  }

  // ---- the steps of a turn -------------------------------------------------

  lemma ListingIsTracked(row: Subscription, me: Worker, h: History, open: Option<Event>, loaded: nat, u: UserId,
                         now: Time, stage: Stage)
    requires RowTracked(row, me, h, open, loaded, u, now) && me.pc.Idle? && Expiring(row, now, stage)
    ensures var copy := if u in me.cache then me.cache[u] else row;
            var copied := if u in me.cache then loaded else |h.events|;
            RowTracked(row, me.(pc := Noticing(u, stage, copy), cache := me.cache[u := copy]), h,
                       Some(Turn(stage, now, |h.events|, copied)), copied, u, now)
  {
    hide RowAt, Claims, Expiring, ShortTrial, WellFormed;
  }

  lemma RepeatIsTracked(row: Subscription, me: Worker, h: History, open: Option<Event>, loaded: nat, u: UserId,
                        now: Time, pc: Pc)
    requires RowTracked(row, me, h, open, loaded, u, now) && me.pc.Noticing? && me.pc.user == u && !InTurn(pc, u)
    requires var copy, stage := me.pc.copy, me.pc.stage;
             copy.stage == Some(stage) || ShortTrial(copy, stage) || row.stage == Some(stage)
    ensures open.Some? && RowTracked(row, me.(pc := pc), Then(h, [open.value]), None, loaded, u, now)
    ensures !Claims(Then(h, [open.value]), |h.events|)
  {
    hide RowAt, Claims, Expiring, ShortTrial, WellFormed, Loaded;
    var e, copy := open.value, me.pc.copy;
    TurnIsRecorded(h, row, e.at, e.stage, e.listed, copy, e.copied);
    TurnReloads(h, e.stage, e.at, e.listed, copy, e.copied);
  }

  lemma ClaimIsTracked(row: Subscription, me: Worker, h: History, open: Option<Event>, loaded: nat, u: UserId,
                       now: Time, writes: Db)
    requires RowTracked(row, me, h, open, loaded, u, now) && me.pc.Noticing? && me.pc.user == u
    requires var copy, stage := me.pc.copy, me.pc.stage; copy.stage != Some(stage) && !ShortTrial(copy, stage)
    requires u in writes.subs
    ensures RowTracked(row, me.(pc := Committing(ToMark(u, me.pc.stage)), writes := writes,
                                cache := me.cache[u := writes.subs[u]]), h, open, loaded, u, now)
  {
    hide RowAt, Claims, Expiring, ShortTrial, WellFormed, Loaded;
  }

  lemma MarkIsTracked(row: Subscription, me: Worker, h: History, open: Option<Event>, loaded: nat, u: UserId,
                      now: Time)
    requires RowTracked(row, me, h, open, loaded, u, now) && me.pc.Committing? && InTurn(me.pc, u)
    requires var stage := me.pc.next.stage;
             row.stage != Some(stage) && u in me.writes.subs && me.writes.subs[u] == row.(stage := Some(stage))
    ensures open.Some? && open.value.Turn? && open.value.stage == me.pc.next.stage
    ensures RowTracked(me.writes.subs[u], Worker(Idle, NOTHING, me.cache, None), Then(h, [open.value]), None,
                       |h.events| + 1, u, now)
    ensures Claims(Then(h, [open.value]), |h.events|)
  {
    hide RowAt, Claims, Expiring, ShortTrial, WellFormed, Loaded;
    var e := open.value;
    TurnIsRecorded(h, row, e.at, e.stage, e.listed, RowAt(h, e.copied), e.copied);
    TurnReloads(h, e.stage, e.at, e.listed, RowAt(h, e.copied), e.copied);
  }

  // ---- every step, every run -----------------------------------------------

  lemma OthersLeave(s: State, a: Action, u: UserId, w: Wid)
    requires (a.Act? ==> a.worker != w) && !Starts(a, u) && forall v | v != w :: !InTurn(WorkerOf(s, v).pc, u)
    ensures var t := Advance(s, a);
            WorkerOf(t, w) == WorkerOf(s, w) && (forall v | v != w :: !InTurn(WorkerOf(t, v).pc, u))
            && MarkOf(s, a, u).None?
  {
    hide Step;
    if a.Act? {
      TurnsAreStarted(s, a.worker, a.choice, u);
    }
    var t := Advance(s, a);
    forall v | v != w ensures !InTurn(WorkerOf(t, v).pc, u) {
      assert !InTurn(WorkerOf(s, v).pc, u);
    }
  }

  lemma OthersAreTracked(s: State, a: Action, tr: Track, u: UserId, w: Wid, now: Time)
    requires Tracked(s, tr, u, w, now) && (a.Act? ==> a.worker != w) && !Starts(a, u)
    ensures StaysTracked(s, a, tr, u, w, now)
  {
    hide Advance, Inv, InPass, InTurn, Starts, MarkOf, Follows, RowTracked, Claims, RowAt, ObserveTurn;
    var t := Advance(s, a);
    AdvanceKeepsInv(s, a);
    OthersLeave(s, a, u, w);
    if u in s.db.subs {
      EveryStepIsAnEvent(s, a, u);
      if t.db.subs[u] != s.db.subs[u] {
        WriteIsTracked(s.db.subs[u], WorkerOf(s, w), tr.h.value, tr.open, tr.loaded, u, now, t.db.subs[u]);
      }
    } else if u in t.db.subs {
      NewIsTracked(t.db.subs[u], WorkerOf(s, w), u, now);
    }
  }

  lemma NewIsTracked(row: Subscription, me: Worker, u: UserId, now: Time)
    requires u !in me.cache && !InTurn(me.pc, u)
    ensures RowTracked(row, me, History(row, []), None, 0, u, now)
  {
    NewRowIsRecorded(row, now);
  }

  /** A pass moves nobody else. */
  lemma OthersStay(s: State, c: Choice, u: UserId, w: Wid)
    requires InPass(WorkerOf(s, w)) && Allowed(Act(w, c), u, w)
    ensures forall v | v != w :: WorkerOf(Step(s, w, c), v) == WorkerOf(s, v)
  {
    hide Expiring, ShortTrial, Overlay, View;
  }

  /** A step of the passes, on the other users and on this one. */
  lemma OwnIsTracked(s: State, c: Choice, tr: Track, u: UserId, w: Wid, now: Time)
    requires Tracked(s, tr, u, w, now) && Allowed(Act(w, c), u, w)
    requires Starts(Act(w, c), u) ==> c.program.now == now
    ensures StaysTracked(s, Act(w, c), tr, u, w, now)
  {
    hide Inv, RowTracked, Claims, RowAt, Step;
    AdvanceKeepsInv(s, Act(w, c));
    if c.Crash? {
      CrashIsTracked(s, tr, u, w, now);
    } else {
      match WorkerOf(s, w).pc
      case Idle => IdleIsTracked(s, c, tr, u, w, now);
      case Noticing(_, _, _) => NoticeIsTracked(s, c, tr, u, w, now);
      case Committing(_) => CommitIsTracked(s, c, tr, u, w, now);
    }
  }

  lemma CrashIsTracked(s: State, tr: Track, u: UserId, w: Wid, now: Time)
    requires Tracked(s, tr, u, w, now)
    ensures StaysTracked(s, Act(w, Crash), tr, u, w, now)
  {
    hide Inv, Claims, RowAt, IsRecord, TurnOk, Loaded;
    KillKeepsInv(s, w);
    OthersStay(s, Crash, u, w);
  }

  /** Steps that are about other users. */
  lemma ElsewhereIsTracked(s: State, c: Choice, tr: Track, u: UserId, w: Wid, now: Time)
    requires Tracked(s, tr, u, w, now) && !c.Crash? && Allowed(Act(w, c), u, w)
    requires var t := Step(s, w, c);
             var me, me' := WorkerOf(s, w), WorkerOf(t, w);
             && !InTurn(me.pc, u) && !InTurn(me'.pc, u) && InPass(me')
             && (u in me'.cache ==> u in me.cache && me'.cache[u] == me.cache[u])
             && (u in t.db.subs <==> u in s.db.subs) && (u in s.db.subs ==> t.db.subs[u] == s.db.subs[u])
    ensures StaysTracked(s, Act(w, c), tr, u, w, now)
  {
    hide Inv, Claims, RowAt, IsRecord, Loaded, TurnOk, Step;
    AdvanceKeepsInv(s, Act(w, c));
    OthersStay(s, c, u, w);
  }

  lemma IdleIsTracked(s: State, c: Choice, tr: Track, u: UserId, w: Wid, now: Time)
    requires Tracked(s, tr, u, w, now) && WorkerOf(s, w).pc.Idle? && !c.Crash? && Allowed(Act(w, c), u, w)
    requires Starts(Act(w, c), u) ==> c.program.now == now
    ensures StaysTracked(s, Act(w, c), tr, u, w, now)
  {
    hide Inv, RowTracked, StaysTracked, Expiring, View;
    IdleIsQuiet(s, w);
    QuietView(s, w);
    if Starts(Act(w, c), u) && InTurn(WorkerOf(Step(s, w, c), w).pc, u) {
      StartIsTracked(s, c, tr, u, w, now);
    } else {
      ElsewhereIsTracked(s, c, tr, u, w, now);
    }
  }

  lemma StartIsTracked(s: State, c: Choice, tr: Track, u: UserId, w: Wid, now: Time)
    requires Tracked(s, tr, u, w, now) && WorkerOf(s, w).pc.Idle? && Starts(Act(w, c), u) && c.program.now == now
    requires InTurn(WorkerOf(Step(s, w, c), w).pc, u)
    ensures StaysTracked(s, Act(w, c), tr, u, w, now)
  {
    hide Inv, Claims, RowAt, RowTracked, Expiring, View;
    AdvanceKeepsInv(s, Act(w, c));
    OthersStay(s, c, u, w);
    IdleIsQuiet(s, w);
    QuietView(s, w);
    ListingIsTracked(s.db.subs[u], WorkerOf(s, w), tr.h.value, tr.open, tr.loaded, u, now, c.program.stage);
  }

  lemma NoticeIsTracked(s: State, c: Choice, tr: Track, u: UserId, w: Wid, now: Time)
    requires Tracked(s, tr, u, w, now) && WorkerOf(s, w).pc.Noticing? && !c.Crash? && Allowed(Act(w, c), u, w)
    ensures StaysTracked(s, Act(w, c), tr, u, w, now)
  {
    hide Inv, RowTracked, StaysTracked, ShortTrial, View;
    if WorkerOf(s, w).pc.user == u {
      TurnIsTracked(s, c, tr, u, w, now);
    } else {
      ListedRowIsThere(s, w);
      QuietView(s, w);
      ElsewhereIsTracked(s, c, tr, u, w, now);
    }
  }

  lemma TurnIsTracked(s: State, c: Choice, tr: Track, u: UserId, w: Wid, now: Time)
    requires Tracked(s, tr, u, w, now) && WorkerOf(s, w).pc.Noticing? && !c.Crash? && Allowed(Act(w, c), u, w)
    requires WorkerOf(s, w).pc.user == u
    ensures StaysTracked(s, Act(w, c), tr, u, w, now)
  {
    hide Inv, Claims, RowAt, RowTracked, ShortTrial, View;
    AdvanceKeepsInv(s, Act(w, c));
    OthersStay(s, c, u, w);
    ListedRowIsThere(s, w);
    QuietView(s, w);
    var me, me' := WorkerOf(s, w), WorkerOf(Step(s, w, c), w);
    var row, h := s.db.subs[u], tr.h.value;
    if me'.pc.Idle? || me'.pc == Committing(ToIdle) {
      RepeatIsTracked(row, me, h, tr.open, tr.loaded, u, now, me'.pc);
    } else if CanTake(s, w, SubRow(u)) {
      ClaimIsTracked(row, me, h, tr.open, tr.loaded, u, now, me'.writes);
    }
  }

  lemma ListedRowIsThere(s: State, w: Wid)
    requires Inv(s) && WorkerOf(s, w).pc.Noticing?
    ensures Quiet(WorkerOf(s, w)) && WorkerOf(s, w).pc.user in s.db.subs
  {
    AtItsPc(s, w);
  }

  lemma PassCommits(s: State, w: Wid)
    requires Inv(s) && WorkerOf(s, w).pc.Committing? && InPass(WorkerOf(s, w))
    ensures var me := WorkerOf(s, w);
            if me.pc.next.ToMark? then IsMark(s.db, me.writes, me.pc.next.user, me.pc.next.stage)
            else me.writes == NOTHING
  {
    AtItsPc(s, w);
  }

  lemma CommitIsTracked(s: State, c: Choice, tr: Track, u: UserId, w: Wid, now: Time)
    requires Tracked(s, tr, u, w, now) && WorkerOf(s, w).pc.Committing? && !c.Crash? && Allowed(Act(w, c), u, w)
    ensures StaysTracked(s, Act(w, c), tr, u, w, now)
  {
    hide Inv, RowTracked, StaysTracked;
    PassCommits(s, w);
    if InTurn(WorkerOf(s, w).pc, u) {
      MarkingIsTracked(s, c, tr, u, w, now);
    } else {
      ElsewhereIsTracked(s, c, tr, u, w, now);
    }
  }

  lemma MarkingIsTracked(s: State, c: Choice, tr: Track, u: UserId, w: Wid, now: Time)
    requires Tracked(s, tr, u, w, now) && WorkerOf(s, w).pc.Committing? && !c.Crash? && Allowed(Act(w, c), u, w)
    requires InTurn(WorkerOf(s, w).pc, u)
    ensures StaysTracked(s, Act(w, c), tr, u, w, now)
  {
    hide Inv, Claims, RowAt, RowTracked;
    AdvanceKeepsInv(s, Act(w, c));
    OthersStay(s, c, u, w);
    PassCommits(s, w);
    MarkIsTracked(s.db.subs[u], WorkerOf(s, w), tr.h.value, tr.open, tr.loaded, u, now);
  }

  /** One more step of a run. */
  lemma StepIsTracked(s: State, a: Action, tr: Track, u: UserId, w: Wid, now: Time)
    requires Tracked(s, tr, u, w, now) && Allowed(a, u, w) && (Starts(a, u) ==> a.choice.program.now == now)
    ensures StaysTracked(s, a, tr, u, w, now)
  {
    hide Tracked, StaysTracked;
    if a.Act? && a.worker == w {
      OwnIsTracked(s, a.choice, tr, u, w, now);
    } else {
      OthersAreTracked(s, a, tr, u, w, now);
    }
  }

  lemma LaterIsTracked(s: State, tr: Track, u: UserId, w: Wid, now: Time, later: Time)
    requires Tracked(s, tr, u, w, now) && now <= later
    ensures Tracked(s, tr, u, w, later)
  {
    hide Inv, InPass, InTurn, RowAt, WellFormed, Loaded;
  }

  /** No pass over the user begins after `now`. */
  predicate UpTo(schedule: seq<Action>, u: UserId, now: Time) {
    forall i | 0 <= i < |schedule| && Starts(schedule[i], u) :: schedule[i].choice.program.now <= now
  }

  lemma {:induction false} RunIsTracked(clock: Time, schedule: seq<Action>, u: UserId, w: Wid, now: Time)
    requires Serial(schedule, u, w) && UpTo(schedule, u, now)
    ensures Tracked(Run(Start0(clock), schedule), TrackOf(clock, schedule, u, w), u, w, now)
    ensures schedule != [] ==>
              var before := schedule[..|schedule| - 1];
              Adds(TrackOf(clock, before, u, w), TrackOf(clock, schedule, u, w),
                   MarkOf(Run(Start0(clock), before), schedule[|schedule| - 1], u))
  {
    hide Allowed, Adds;
    RunKeepsInv(clock, schedule);
    if schedule != [] {
      hide Tracked;
      var before, a := schedule[..|schedule| - 1], schedule[|schedule| - 1];
      var bound := if Starts(a, u) then a.choice.program.now else now;
      RunIsTracked(clock, before, u, w, bound);
      StepIsTracked(Run(Start0(clock), before), a, TrackOf(clock, before, u, w), u, w, bound);
      LaterIsTracked(Run(Start0(clock), schedule), TrackOf(clock, schedule, u, w), u, w, bound, now);
    }
  }

  lemma {:induction false} SomeLastPass(schedule: seq<Action>, u: UserId) returns (now: Time)
    ensures UpTo(schedule, u, now)
  {
    now := 0;
    if schedule != [] {
      var a := schedule[|schedule| - 1];
      now := SomeLastPass(schedule[..|schedule| - 1], u);
      if Starts(a, u) {
        now := Max(now, a.choice.program.now);
      }
    }
  }

  /** Notices in the history so far. */
  function ToldIn(tr: Track, stage: Stage): nat {
    if tr.h.None? then 0 else Told(tr.h.value, stage, 0, |tr.h.value.events|)
  }

  lemma AddsToTold(tr: Track, tr': Track, mark: Option<Stage>, stage: Stage)
    requires Adds(tr, tr', mark)
    ensures ToldIn(tr', stage) == ToldIn(tr, stage) + if mark == Some(stage) then 1 else 0
  {
    hide Claims;
    if tr.h.Some? && tr'.h != tr.h {
      var h, h' := tr.h.value, tr'.h.value;
      var e :| h' == Then(h, [e]) && (Claims(h', |h.events|) <==> mark.Some?)
               && (mark.Some? ==> e.Turn? && e.stage == mark.value);
      ToldIsKept(h, [e], stage, 0, |h.events|);
    }
  }

  lemma {:induction false} MarksAreTold(clock: Time, schedule: seq<Action>, u: UserId, w: Wid, stage: Stage)
    requires Serial(schedule, u, w)
    ensures ToldIn(TrackOf(clock, schedule, u, w), stage) == Marks(clock, schedule, u, stage)
  {
    hide Allowed, Adds, Told, Tracked, Observe, MarkOf;
    if schedule != [] {
      var before, a := schedule[..|schedule| - 1], schedule[|schedule| - 1];
      var now := SomeLastPass(schedule, u);
      RunIsTracked(clock, schedule, u, w, now);
      MarksAreTold(clock, before, u, w, stage);
      AddsToTold(TrackOf(clock, before, u, w), TrackOf(clock, schedule, u, w),
                 MarkOf(Run(Start0(clock), before), a, u), stage);
    }
  }

  /** In every run in which one worker makes the passes over a user, one after the
      other, whatever the rest do and whenever anybody dies: what happened to the row
      is a history of the reminder laws, and its notices are the claims committed. */
  lemma RunIsAHistory(clock: Time, schedule: seq<Action>, u: UserId, w: Wid)
    requires Serial(schedule, u, w)
    ensures var rows, h := Run(Start0(clock), schedule).db.subs, TrackOf(clock, schedule, u, w).h;
            && (h.Some? <==> u in rows)
            && (h.Some? ==>
                  && WellFormed(h.value) && RowAt(h.value, |h.value.events|) == rows[u]
                  && forall stage :: Told(h.value, stage, 0, |h.value.events|) == Marks(clock, schedule, u, stage))
  {
    hide Marks, Told, RowAt, WellFormed, Serial, Inv, TrackOf, Run, InPass;
    var now := SomeLastPass(schedule, u);
    RunIsTracked(clock, schedule, u, w, now);
    forall stage ensures ToldIn(TrackOf(clock, schedule, u, w), stage) == Marks(clock, schedule, u, stage) {
      MarksAreTold(clock, schedule, u, w, stage);
    }
  }

  /** For instance: a term whose date nobody has moved is told each stage at most once. */
  lemma FirstTermIsToldOnce(clock: Time, schedule: seq<Action>, u: UserId, w: Wid)
    requires Serial(schedule, u, w)
    requires var h := TrackOf(clock, schedule, u, w).h; h.Some? && Cycle(h.value, 0)
    ensures forall stage :: Marks(clock, schedule, u, stage) <= 1
  {
    hide Marks, Told, RowAt, WellFormed, Serial, TrackOf, Run, Cycle;
    RunIsAHistory(clock, schedule, u, w);
    UndisturbedCycleIsInOrder(TrackOf(clock, schedule, u, w).h.value, 0);
  }
}
