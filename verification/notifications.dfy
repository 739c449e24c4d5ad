/** The reminder job, run among other writers, with the history of every row. */
module Notifications {
  import opened Model
  import opened Records
  import opened Reminders
  import opened UnitOfWork
  import opened Sorting
  import opened Telegram

  datatype Report = Report(sent: nat, blocked: nat, failed: nat)
  {
    function Total(): nat {
      sent + blocked + failed
    }

    function Add(fate: Fate): Report {
      match fate
      case Sent => this.(sent := sent + 1)
      case Blocked => this.(blocked := blocked + 1)
      case Failed => this.(failed := failed + 1)
    }
  }

  /** What the bot has said and heard, message by message, since `was` were known to
      have blocked it: each message got through, was refused or failed, and is counted
      as that. */
  ghost predicate Said(talk: Talk, to: seq<UserId>, attempts: nat, report: Report, was: set<UserId>,
                       unreachable: set<UserId>) {
    && attempts == talk.First(|to|) && report.Total() == |to|
    && report.sent == talk.Deliveries(|to|) && report.blocked == talk.Refusals(|to|)
    && unreachable == was + set i | 0 <= i < |to| && talk.Refused(i) :: to[i]
  }

  /** `to` has every user in `told` once. */
  ghost predicate Lists(to: seq<UserId>, told: set<UserId>) {
    (forall u :: u in to <==> u in told) && |to| == |told| && forall i, j | 0 <= i < j < |to| :: to[i] != to[j]
  }

  lemma OneMoreListed(to: seq<UserId>, told: set<UserId>, u: UserId)
    requires Lists(to, told) && u !in told
    ensures Lists(to + [u], told + {u})
  {
    assert forall i | 0 <= i < |to| :: to[i] in to;
  }

  lemma NobodyYet(to: seq<UserId>)
    ensures to + [] == to && Lists([], {})
  {
  }

  /** Where a pass began to speak, and whom it knew to have blocked the bot. */
  datatype Pass = Pass(talk: Talk, known: set<UserId>)

  type Histories = map<UserId, History>

  /** The histories end in the committed rows; no turn belongs to a later pass. */
  ghost predicate Recorded(rows: map<UserId, Subscription>, hs: Histories, now: Time) {
    && hs.Keys == rows.Keys
    && forall u | u in hs :: IsRecord(hs[u], rows[u], now)
  }

  /** The pass listed the row as it was after `h` and reached it once since; `told`
      says whether the notice went out. */
  ghost predicate Handled(h: History, h': History, stage: Stage, now: Time, told: bool) {
    exists k :: TookTurn(h, h', stage, now, k) && (told <==> Claims(h', k))
  }

  ghost predicate TookTurn(h: History, h': History, stage: Stage, now: Time, k: nat) {
    && h'.first == h.first && h.events <= h'.events && |h.events| <= k < |h'.events|
    && h'.events[k].Turn? && h'.events[k].stage == stage && h'.events[k].at == now && h'.events[k].listed == |h.events|
    && forall j | |h.events| <= j < |h'.events| && j != k :: h'.events[j].Write?
  }

  lemma HandledStays(h: History, h': History, h'': History, stage: Stage, now: Time, told: bool)
    requires Handled(h, h', stage, now, told) && OnlyWrites(h', h'')
    ensures Handled(h, h'', stage, now, told)
  {
    hide Claims;
    var k :| TookTurn(h, h', stage, now, k) && (told <==> Claims(h', k));
    assert h'' == Then(h', h''.events[|h'.events|..]);
    PrefixIsKept(h', h''.events[|h'.events|..], k);
    assert TookTurn(h, h'', stage, now, k);
  }

  lemma TurnHandles(h: History, h': History, stage: Stage, now: Time, copied: nat)
    requires OnlyWrites(h, h')
    ensures var h'' := Then(h', [Turn(stage, now, |h.events|, copied)]);
            Handled(h, h'', stage, now, Claims(h'', |h'.events|))
  {
    hide Claims;
    assert TookTurn(h, Then(h', [Turn(stage, now, |h.events|, copied)]), stage, now, |h'.events|);
  }

  /** One stage of a pass, on all rows at once: whoever was expiring when the stage
      was listed was reached once, and nobody else. */
  ghost predicate StageRan(hs: Histories, hs': Histories, stage: Stage, now: Time, told: set<UserId>) {
    && hs.Keys <= hs'.Keys && told <= hs.Keys
    && forall u | u in hs ::
         if Expiring(RowAt(hs[u], |hs[u].events|), now, stage) then Handled(hs[u], hs'[u], stage, now, u in told)
         else u !in told && OnlyWrites(hs[u], hs'[u])
  }

  /** The stage halfway: `rest` has been listed and not been reached. */
  ghost predicate StageRuns(hs: Histories, hs': Histories, stage: Stage, now: Time, rest: set<UserId>,
                            told: set<UserId>) {
    && hs.Keys <= hs'.Keys && told <= hs.Keys && rest <= hs.Keys
    && forall u | u in hs ::
         if u !in rest && Expiring(RowAt(hs[u], |hs[u].events|), now, stage) then
           Handled(hs[u], hs'[u], stage, now, u in told)
         else
           u !in told && OnlyWrites(hs[u], hs'[u])
  }

  lemma WritesGoOn(hs: Histories, hs': Histories, hs'': Histories, stage: Stage, now: Time, rest: set<UserId>,
                   told: set<UserId>)
    requires StageRuns(hs, hs', stage, now, rest, told)
    requires hs'.Keys <= hs''.Keys && forall u | u in hs' :: OnlyWrites(hs'[u], hs''[u])
    ensures StageRuns(hs, hs'', stage, now, rest, told)
  {
    hide RowAt, Expiring, Handled;
    forall u | u in hs
      ensures if u !in rest && Expiring(RowAt(hs[u], |hs[u].events|), now, stage) then
                Handled(hs[u], hs''[u], stage, now, u in told)
              else
                u !in told && OnlyWrites(hs[u], hs''[u])
    {
      if Expiring(RowAt(hs[u], |hs[u].events|), now, stage) && u !in rest {
        HandledStays(hs[u], hs'[u], hs''[u], stage, now, u in told);
      }
    }
  }

  /** The session's objects are rows as they once were. */
  ghost predicate CacheOk(hs: Histories, cache: map<UserId, Subscription>, copied: map<UserId, nat>) {
    copied.Keys == cache.Keys && forall u | u in cache :: u in hs && Loaded(hs[u], cache[u], copied[u])
  }

  lemma CacheStays(hs: Histories, hs': Histories, cache: map<UserId, Subscription>, copied: map<UserId, nat>)
    requires CacheOk(hs, cache, copied) && forall u | u in hs :: u in hs' && OnlyWrites(hs[u], hs'[u])
    ensures CacheOk(hs', cache, copied)
  {
    hide Loaded, OnlyWrites;
    forall u | u in cache ensures u in hs' && Loaded(hs'[u], cache[u], copied[u]) {
      StaysLoaded(hs[u], hs'[u], cache[u], copied[u]);
    }
  }

  lemma NothingLoaded(hs: Histories)
    ensures CacheOk(hs, map[], map[])
  {
  }

  lemma LaterRecorded(rows: map<UserId, Subscription>, hs: Histories, now: Time, later: Time)
    requires Recorded(rows, hs, now) && now <= later
    ensures Recorded(rows, hs, later)
  {
    hide RowAt, WellFormed;
  }

  /** The stage's listing found the row as `h` ends, and the session holds a copy. */
  ghost predicate IsListed(h: History, stage: Stage, now: Time, copied: nat) {
    copied <= |h.events| && TurnsUpTo(h, now, |h.events|) && Expiring(RowAt(h, |h.events|), now, stage)
  }

  /** An object already in the session is not loaded again. */
  function Listing(cache: map<UserId, Subscription>, rows: map<UserId, Subscription>,
                   due: set<UserId>): (r: map<UserId, Subscription>)
    requires due <= rows.Keys
    ensures r.Keys == cache.Keys + due
  {
    map u | u in cache.Keys + due :: if u in cache then cache[u] else rows[u]
  }

  ghost function Copies(copied: map<UserId, nat>, hs: Histories, due: set<UserId>): (r: map<UserId, nat>)
    requires due <= hs.Keys
    ensures r.Keys == copied.Keys + due
  {
    map u | u in copied.Keys + due :: if u in copied then copied[u] else |hs[u].events|
  }

  lemma ListingLoads(rows: map<UserId, Subscription>, hs: Histories, now: Time, cache: map<UserId, Subscription>,
                     copied: map<UserId, nat>, due: set<UserId>, stage: Stage)
    requires Recorded(rows, hs, now) && CacheOk(hs, cache, copied) && due <= rows.Keys
    requires forall u | u in due :: Expiring(rows[u], now, stage)
    ensures due <= hs.Keys && CacheOk(hs, Listing(cache, rows, due), Copies(copied, hs, due))
    ensures forall u | u in due :: IsListed(hs[u], stage, now, Copies(copied, hs, due)[u])
  {
    hide RowAt, Claims, Expiring;
  }

  lemma StageBegins(rows: map<UserId, Subscription>, hs: Histories, stage: Stage, now: Time, due: set<UserId>)
    requires Recorded(rows, hs, now) && due == set u | u in rows && Expiring(rows[u], now, stage)
    ensures StageRuns(hs, hs, stage, now, due, {})
  {
    hide RowAt, Expiring;
  }

  lemma StillListed(hs: Histories, hs': Histories, stage: Stage, now: Time, rest: set<UserId>, told: set<UserId>,
                    u: UserId, copied: nat)
    requires StageRuns(hs, hs', stage, now, rest, told) && u in rest && IsListed(hs[u], stage, now, copied)
    ensures var listed := |hs[u].events|;
            && copied <= listed <= |hs'[u].events| && TurnsUpTo(hs'[u], now, listed)
            && Expiring(RowAt(hs'[u], listed), now, stage)
  {
    hide RowAt, Claims, Expiring, Handled;
    assert hs'[u] == Then(hs[u], hs'[u].events[|hs[u].events|..]);
    PrefixIsKept(hs[u], hs'[u].events[|hs[u].events|..], |hs[u].events|);
  }

  lemma StageIsOver(hs: Histories, hs': Histories, stage: Stage, now: Time, told: set<UserId>)
    requires StageRuns(hs, hs', stage, now, {}, told)
    ensures StageRan(hs, hs', stage, now, told)
  {
  }

  lemma TurnGoesOn(hs: Histories, mid: Histories, hs': Histories, stage: Stage, now: Time, rest: set<UserId>,
                   told: set<UserId>, u: UserId, copied: nat)
    requires StageRuns(hs, mid, stage, now, rest, told) && u in rest
             && Expiring(RowAt(hs[u], |hs[u].events|), now, stage)
    requires hs' == mid[u := Then(mid[u], [Turn(stage, now, |hs[u].events|, copied)])]
    ensures u !in told
    ensures StageRuns(hs, hs', stage, now, rest - {u}, if Claims(hs'[u], |mid[u].events|) then told + {u} else told)
  {
    hide RowAt, Claims, Expiring, Handled;
    TurnHandles(hs[u], mid[u], stage, now, copied);
  }

  lemma CacheReloads(hs: Histories, cache: map<UserId, Subscription>, copied: map<UserId, nat>, u: UserId, h: History,
                     copy: Subscription, at: nat)
    requires CacheOk(hs, cache, copied) && Loaded(h, copy, at)
    ensures CacheOk(hs[u := h], cache[u := copy], copied[u := at])
  {
    hide Loaded;
  }

  /** One message more, to `u`. */
  lemma SaidOneMore(talk: Talk, to: seq<UserId>, attempts: nat, report: Report, was: set<UserId>,
                    unreachable: set<UserId>, u: UserId, attempts': nat, report': Report, unreachable': set<UserId>)
    requires Said(talk, to, attempts, report, was, unreachable)
    requires var first, second := talk.replies(attempts), talk.replies(attempts + 1);
             && attempts' == attempts + (if first.RetryAfter? then 2 else 1)
             && report'.sent ==
                report.sent + (if first.Delivered? || (first.RetryAfter? && second.Delivered?) then 1 else 0)
             && report'.blocked == report.blocked + (if first.Forbidden? then 1 else 0)
             && unreachable' == unreachable + (if first.Forbidden? then {u} else {})
    requires report'.Total() == report.Total() + 1
    ensures Said(talk, to + [u], attempts', report', was, unreachable')
  {
    assert attempts == talk.First(|to|);
    var before, after := set i | 0 <= i < |to| && talk.Refused(i) :: to[i],
                         set i | 0 <= i < |to| + 1 && talk.Refused(i) :: (to + [u])[i];
    forall v ensures v in after <==> v in before || (v == u && talk.Refused(|to|)) {
      if v in before {
        var i :| 0 <= i < |to| && talk.Refused(i) && to[i] == v;
        assert (to + [u])[i] == v;
      }
    }
  }

  class NotificationService {
    const session: Session
    const bot: Bot
    const clock: Clock
    /** What others commit while the job waits, pause by pause. */
    const others: nat -> seq<(UserId, Subscription)>
    var pauses: nat
    /** Users found to have blocked the bot. */
    var unreachable: set<UserId>
    ghost var histories: Histories

    constructor (session: Session, bot: Bot, clock: Clock, others: nat -> seq<(UserId, Subscription)>)
      requires session.Clean()
      ensures this.session == session && this.bot == bot && this.clock == clock && this.others == others
      ensures unreachable == {} && Valid()
    {
      this.session, this.bot, this.clock, this.others := session, bot, clock, others;
      pauses, unreachable := 0, {};
      histories := map u | u in session.work.subs :: History(session.work.subs[u], []);
    }

    ghost predicate Valid()
      reads this, session, clock
    {
      session.Clean() && Recorded(session.work.subs, histories, clock.now)
    }

    /** The pass so far: whom it has spoken to, and what came of it. */
    ghost predicate Spoken(pass: Pass, to: seq<UserId>, report: Report)
      reads this, bot
    {
      pass.talk.replies == bot.replies && Said(pass.talk, to, bot.attempts, report, pass.known, unreachable)
    }

    /** Somebody else's commit, if it is one that the other writers make. */
    method Admit(u: UserId, row: Subscription)
      requires Valid()
      modifies session, this`histories
      ensures Valid() && old(histories).Keys <= histories.Keys
      ensures forall v | v in old(histories) :: OnlyWrites(old(histories)[v], histories[v])
    {
      hide WellFormed, RowAt;
      if u !in session.work.subs {
        NewRowIsRecorded(row, clock.now);
        histories := histories[u := History(row, [])];
        session.Save(u, row);
      } else if Follows(session.work.subs[u], row) {
        WriteIsRecorded(histories[u], session.work.subs[u], clock.now, row);
        histories := histories[u := Then(histories[u], [Write(row)])];
        session.Save(u, row);
      }
      session.Commit();
    }

    /** An await: others get to run. */
    method Pause()
      requires Valid()
      modifies session, this`histories, this`pauses
      ensures Valid() && old(histories).Keys <= histories.Keys
      ensures forall v | v in old(histories) :: OnlyWrites(old(histories)[v], histories[v])
    {
      var commits := others(pauses);
      pauses := pauses + 1;
      for i := 0 to |commits|
        invariant Valid() && old(histories).Keys <= histories.Keys
        invariant forall v | v in old(histories) :: OnlyWrites(old(histories)[v], histories[v])
      {
        Admit(commits[i].0, commits[i].1);
      }
    }

    /** mark_notified: repeats get None; the date and the status are not looked at. */
    method MarkNotified(u: UserId, stage: Stage) returns (claimed: bool)
      modifies session
      ensures claimed <==> u in old(session.work).subs && old(session.work).subs[u].stage != Some(stage)
      ensures session.work == if claimed then
                                WithSub(old(session.work), u, old(session.work).subs[u].(stage := Some(stage)))
                              else old(session.work)
      ensures session.committed == old(session.committed)
    {
      claimed := u in session.work.subs && session.work.subs[u].stage != Some(stage);
      if claimed {
        session.Save(u, session.work.subs[u].(stage := Some(stage)));
      }
    }

    /** One row's turn: the loop decides by its copy, claims and commits, and only
        then sends. The claim reloads the copy. */
    method RemindOne(now: Time, stage: Stage, u: UserId, copy: Subscription, report: Report, ghost listed: nat,
                     ghost copied: nat)
      returns (copy': Subscription, report': Report, ghost copied': nat)
      requires Valid() && now == clock.now && u in histories && TurnsUpTo(histories[u], now, listed)
      requires copied <= listed <= |histories[u].events| && Loaded(histories[u], copy, copied)
      requires Expiring(RowAt(histories[u], listed), now, stage)
      modifies session, bot, this`histories, this`unreachable
      ensures Valid() && histories == old(histories)[u := Then(old(histories)[u], [Turn(stage, now, listed, copied)])]
      ensures Loaded(histories[u], copy', copied')
      ensures if Claims(histories[u], |histories[u].events| - 1) then
                var first, second := bot.replies(old(bot.attempts)), bot.replies(old(bot.attempts) + 1);
                var reached := first.Delivered? || (first.RetryAfter? && second.Delivered?);
                && bot.attempts == old(bot.attempts) + (if first.RetryAfter? then 2 else 1)
                && report'.sent == report.sent + (if reached then 1 else 0)
                && report'.blocked == report.blocked + (if first.Forbidden? then 1 else 0)
                && report'.failed == report.failed + (if !reached && !first.Forbidden? then 1 else 0)
                && unreachable == old(unreachable) + (if first.Forbidden? then {u} else {})
              else bot.attempts == old(bot.attempts) && report' == report && unreachable == old(unreachable)
    {
      hide RowAt, Claims, Expiring, ShortTrial, WellFormed, TurnsUpTo, Loaded, IsRecord;
      copy', report', copied' := copy, report, copied;
      var claimed := false;
      ghost var h, row := histories[u], session.work.subs[u];
      assert IsRecord(h, row, now);
      TurnIsRecorded(h, row, now, stage, listed, copy, copied);
      histories := histories[u := Then(h, [Turn(stage, now, listed, copied)])];
      TurnReloads(h, stage, now, listed, copy, copied);
      if copy.stage != Some(stage) && !ShortTrial(copy, stage) {
        claimed := MarkNotified(u, stage);
        session.Commit();
      }
      if claimed {
        copy' := session.work.subs[u];
        copied' := |histories[u].events|;
        var fate := bot.Send();
        if fate.Blocked? {
          unreachable := unreachable + {u};
        }
        report' := report.Add(fate);
      }
    }

    /** The next turn of a stage, after others have had theirs. */
    method NextTurn(now: Time, stage: Stage, u: UserId, cache: map<UserId, Subscription>, report: Report,
                    ghost hs: Histories, ghost rest: set<UserId>, ghost told: set<UserId>,
                    ghost copied: map<UserId, nat>, ghost pass: Pass, ghost to: seq<UserId>)
      returns (cache': map<UserId, Subscription>, report': Report, ghost copied': map<UserId, nat>,
               ghost told': set<UserId>, ghost to': seq<UserId>)
      requires Valid() && now == clock.now && CacheOk(histories, cache, copied) && u in cache
      requires StageRuns(hs, histories, stage, now, rest, told) && u in rest && u in hs
               && IsListed(hs[u], stage, now, copied[u])
      requires Spoken(pass, to, report)
      modifies session, bot, this`histories, this`pauses, this`unreachable
      ensures Valid() && CacheOk(histories, cache', copied')
      ensures cache'.Keys == cache.Keys && (forall v | v in copied && v != u :: v in copied' && copied'[v] == copied[v])
      ensures StageRuns(hs, histories, stage, now, rest - {u}, told') && Spoken(pass, to', report')
      ensures (to' == to && told' == told) || (to' == to + [u] && u !in told && told' == told + {u})
    {
      hide RowAt, Claims, WellFormed, Handled, OnlyWrites, Loaded, Expiring, ShortTrial, TurnsUpTo, Said;
      ghost var before := histories;
      Pause();
      WritesGoOn(hs, before, histories, stage, now, rest, told);
      CacheStays(before, histories, cache, copied);
      StillListed(hs, histories, stage, now, rest, told, u, copied[u]);
      ghost var mid, listed, from := histories, |hs[u].events|, copied[u];
      ghost var attempts, known := bot.attempts, unreachable;
      var copy;
      ghost var at;
      copy, report', at := RemindOne(now, stage, u, cache[u], report, listed, from);
      TurnGoesOn(hs, mid, histories, stage, now, rest, told, u, from);
      CacheReloads(mid, cache, copied, u, histories[u], copy, at);
      cache', copied' := cache[u := copy], copied[u := at];
      told', to' := told, to;
      if Claims(histories[u], |mid[u].events|) {
        told', to' := told + {u}, to + [u];
        SaidOneMore(pass.talk, to, attempts, report, pass.known, known, u, bot.attempts, report', unreachable);
      }
    }

    /** list_expiring_between: the due rows, and the session's objects for them. */
    method ListDue(now: Time, stage: Stage, cache: map<UserId, Subscription>, ghost copied: map<UserId, nat>)
      returns (due: set<UserId>, cache': map<UserId, Subscription>, ghost copied': map<UserId, nat>)
      requires Valid() && now == clock.now && CacheOk(histories, cache, copied)
      ensures CacheOk(histories, cache', copied') && due <= cache'.Keys && cache'.Keys == copied'.Keys
      ensures StageRuns(histories, histories, stage, now, due, {})
      ensures forall u | u in due :: u in histories && IsListed(histories[u], stage, now, copied'[u])
      ensures forall u | u in due :: cache'[u] == if u in cache then cache[u] else session.work.subs[u]
    {
      var rows := session.work.subs;
      due := set u | u in rows && Expiring(rows[u], now, stage);
      StageBegins(rows, histories, stage, now, due);
      ListingLoads(rows, histories, now, cache, copied, due, stage);
      hide *;
      cache', copied' := Listing(cache, rows, due), Copies(copied, histories, due);
    }

    /** One stage: the rows are listed once; between the turns others write. `mine` are
        the users it sent to, in order. */
    method RemindStage(now: Time, stage: Stage, cache: map<UserId, Subscription>, report: Report,
                       ghost copied: map<UserId, nat>, ghost pass: Pass, ghost to: seq<UserId>)
      returns (cache': map<UserId, Subscription>, report': Report, ghost copied': map<UserId, nat>,
               ghost told: set<UserId>, ghost mine: seq<UserId>)
      requires Valid() && now == clock.now && CacheOk(histories, cache, copied) && Spoken(pass, to, report)
      modifies session, bot, this`histories, this`pauses, this`unreachable
      ensures Valid() && CacheOk(histories, cache', copied')
      ensures StageRan(old(histories), histories, stage, now, told)
      ensures Spoken(pass, to + mine, report') && Lists(mine, told)
    {
      hide *;
      ghost var hs := histories;
      var rest;
      rest, cache', copied' := ListDue(now, stage, cache, copied);
      report', told, mine := report, {}, [];
      NobodyYet(to);
      while rest != {}
        invariant Valid() && clock.now == now && CacheOk(histories, cache', copied')
        invariant StageRuns(hs, histories, stage, now, rest, told) && rest <= cache'.Keys
        invariant forall u | u in rest :: u in hs && u in copied' && IsListed(hs[u], stage, now, copied'[u])
        invariant Spoken(pass, to + mine, report') && Lists(mine, told)
        decreases rest
      {
        var u := AnyOf(rest);
        ghost var all, before := to + mine, told;
        cache', report', copied', told, all :=
          NextTurn(now, stage, u, cache', report', hs, rest, told, copied', pass, to + mine);
        if told != before {
          OneMoreListed(mine, before, u);
          assert to + mine + [u] == to + (mine + [u]);
          mine := mine + [u];
        }
        rest := rest - {u};
      }
      StageIsOver(hs, histories, stage, now, told);
    }

    /** The whole pass: both stages as the rows were when each was listed, one message
        to each user told, the report and the list of the unreachable as the messenger
        answered them, and every history still one that the laws above hold for. */
    method SendExpiryReminders()
      returns (report: Report, now: Time, ghost halfway: Histories, ghost told: set<UserId>, ghost told': set<UserId>,
               ghost to: seq<UserId>, ghost to': seq<UserId>)
      requires Valid()
      modifies session, bot, clock, this`histories, this`pauses, this`unreachable
      ensures Valid() && old(clock.now) <= now == clock.now
      ensures StageRan(old(histories), halfway, OneDay, now, told) && Lists(to, told)
      ensures StageRan(halfway, histories, ThreeDays, now, told') && Lists(to', told')
      ensures Said(Talk(bot.replies, old(bot.attempts)), to + to', bot.attempts, report, old(unreachable), unreachable)
    {
      hide Recorded, StageRan, CacheOk;
      now := clock.Read();
      LaterRecorded(session.work.subs, histories, old(clock.now), now);
      var cache;
      ghost var copied;
      ghost var pass := Pass(Talk(bot.replies, bot.attempts), unreachable);
      NothingLoaded(histories);
      cache, report, copied, told, to := RemindStage(now, OneDay, map[], Report(0, 0, 0), map[], pass, []);
      halfway := histories;
      assert [] + to == to;
      cache, report, copied, told', to' := RemindStage(now, ThreeDays, cache, report, copied, pass, to);
    }
  }
}
