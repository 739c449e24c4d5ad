/** Admin broadcasts: pages of users behind a cursor, written down page by page. */
module Broadcasts {
  import opened Model
  import opened Sorting
  import opened UnitOfWork
  import opened Telegram

  const PAGE_SIZE: nat := 25

  type Users = map<UserId, bool>

  datatype BroadcastStatus = Draft | Running | Done

  datatype Broadcast = Broadcast(status: BroadcastStatus, last: Option<UserId>, sent: nat, failed: nat, blocked: nat,
                                 updated: Time)
  {
    function Total(): nat {
      sent + failed + blocked
    }

    function Count(fate: Fate): Broadcast {
      match fate
      case Sent => this.(sent := sent + 1)
      case Failed => this.(failed := failed + 1)
      case Blocked => this.(blocked := blocked + 1)
    }
  }

  /** Reachable users past the cursor; a user's flag says the bot is blocked. */
  function Targets(users: Users, after: Option<UserId>): set<UserId> {
    set u | u in users && !users[u] && (after.Some? ==> u > after.value)
  }

  predicate Increasing(ids: seq<UserId>) {
    forall i, j | 0 <= i < j < |ids| :: ids[i] < ids[j]
  }

  /** `ids` are the smallest of `s`, in order. */
  ghost predicate Foremost(ids: seq<UserId>, s: set<UserId>) {
    && Increasing(ids) && (forall u | u in ids :: u in s)
    && forall u, v | u in s && u !in ids && v in ids :: v < u
  }

  /** From the start to here, exactly the foremost `ids` were attempted, each with one
      message of the talk, flagged exactly if that was refused, and counted once: as
      sent if it got through, as blocked if it was refused, as failed otherwise. */
  ghost predicate Passed(users: Users, row: Broadcast, users': Users, row': Broadcast, ids: seq<UserId>, talk: Talk) {
    && Foremost(ids, Targets(users, row.last))
    && users'.Keys == users.Keys && (forall u | u in users && u !in ids :: users'[u] == users[u])
    && (forall i | 0 <= i < |ids| :: ids[i] in users' && (users'[ids[i]] <==> talk.Refused(i)))
    && row'.last == (if ids == [] then row.last else Some(ids[|ids| - 1]))
    && row'.Total() == row.Total() + |ids|
    && row'.sent == row.sent + talk.Deliveries(|ids|)
    && row'.blocked == row.blocked + talk.Refusals(|ids|)
    && row'.blocked == row.blocked + |NowBlocked(users', ids)|
  }

  function NowBlocked(users: Users, ids: seq<UserId>): set<UserId> {
    set u | u in ids && u in users && users[u]
  }

  lemma WhatIsLeft(users: Users, row: Broadcast, users': Users, row': Broadcast, ids: seq<UserId>,
                     talk: Talk)
    requires Passed(users, row, users', row', ids, talk)
    ensures Foremost(ids, Targets(users, row.last))
    ensures Targets(users', row'.last) == Targets(users, row.last) - set u | u in ids
    ensures |Targets(users', row'.last)| + |ids| == |Targets(users, row.last)|
  {
    var before, done := Targets(users, row.last), set u | u in ids;
    forall u ensures u in Targets(users', row'.last) <==> u in before && u !in done {
      if ids != [] {
        assert ids[|ids| - 1] in ids;
        if u in done {
          var i :| 0 <= i < |ids| && ids[i] == u;
          assert u <= ids[|ids| - 1];
        }
      }
    }
    DistinctSize(ids);
    assert done <= before;
    assert |before - done| == |before| - |done|;
    assert Targets(users', row'.last) == before - done;
  }

  lemma {:induction false} DistinctSize(ids: seq<UserId>)
    requires Increasing(ids)
    ensures |set u | u in ids| == |ids|
  {
    if ids != [] {
      var n := |ids| - 1;
      DistinctSize(ids[..n]);
      assert (set u | u in ids) == (set u | u in ids[..n]) + {ids[n]};
    }
  }

  lemma ForemostGrows(ids: seq<UserId>, s: set<UserId>, u: UserId)
    requires Foremost(ids, s) && u in s && u !in ids && forall v | v in s && v !in ids :: u <= v
    ensures Foremost(ids + [u], s)
  {
    assert forall v | v in ids + [u] :: v in ids || v == u;
    assert forall v | v in ids :: v < u;
    assert forall i | 0 <= i < |ids| :: ids[i] in ids;
  }

  lemma BlockedGrows(mid: Users, ids: seq<UserId>, u: UserId, blocked: bool)
    requires u in mid && !mid[u] && u !in ids
    ensures var users' := if blocked then mid[u := true] else mid;
            |NowBlocked(users', ids + [u])| == |NowBlocked(mid, ids)| + if blocked then 1 else 0
  {
    if blocked {
      assert NowBlocked(mid[u := true], ids + [u]) == NowBlocked(mid, ids) + {u};
    } else {
      assert NowBlocked(mid, ids + [u]) == NowBlocked(mid, ids);
    }
  }

  /** One more user, the smallest that is left. */
  lemma OneMorePassed(users: Users, row: Broadcast, mid: Users, here: Broadcast, ids: seq<UserId>, talk: Talk,
                      u: UserId, fate: Fate)
    requires Passed(users, row, mid, here, ids, talk)
    requires u in Targets(mid, here.last) && forall v | v in Targets(mid, here.last) :: u <= v
    requires (fate.Sent? <==> talk.Reached(|ids|)) && (fate.Blocked? <==> talk.Refused(|ids|))
    ensures var users' := if fate.Blocked? then mid[u := true] else mid;
            Passed(users, row, users', here.Count(fate).(last := Some(u)), ids + [u], talk)
  {
    hide Talk.First, Talk.Reached, Talk.Refused, NowBlocked;
    WhatIsLeft(users, row, mid, here, ids, talk);
    assert u !in ids;
    forall v | v in Targets(users, row.last) && v !in ids ensures u <= v {
      assert v in Targets(mid, here.last);
    }
    ForemostGrows(ids, Targets(users, row.last), u);
    BlockedGrows(mid, ids, u, fate.Blocked?);
  }

  /** The filter changes under the paging, but only behind the cursor. */
  lemma CursorMoves(mid: Users, last: Option<UserId>, u: UserId, blocked: bool)
    requires u in Targets(mid, last) && forall v | v in Targets(mid, last) :: u <= v
    ensures Targets(if blocked then mid[u := true] else mid, Some(u)) == Targets(mid, last) - {u}
  {
  }

  lemma ForemostRest(ids: seq<UserId>, s: set<UserId>)
    requires Foremost(ids, s) && ids != []
    ensures Foremost(ids[1..], s - {ids[0]}) && ids[0] in s && forall v | v in s :: ids[0] <= v
  {
    assert ids[0] in ids;
    forall u | u in ids[1..] ensures u in s && u != ids[0] {
      assert u in ids;
    }
    forall v | v in s ensures ids[0] <= v {
      if v in ids {
        var i :| 0 <= i < |ids| && ids[i] == v;
      }
    }
    forall u, v | u in s - {ids[0]} && u !in ids[1..] && v in ids[1..] ensures v < u {
      assert ids == [ids[0]] + ids[1..];
      assert u !in ids && v in ids;
    }
  }

  /** Only this broadcast's row was written. */
  ghost predicate OnlyRow(rows: map<int, Broadcast>, rows': map<int, Broadcast>, id: int) {
    && id in rows' && rows'.Keys == rows.Keys
    && forall k | k in rows && k != id :: rows'[k] == rows[k]
  }

  lemma StatusDoesNotCount(users: Users, row: Broadcast, users': Users, row': Broadcast, ids: seq<UserId>,
                           talk: Talk, status: BroadcastStatus, updated: Time)
    requires Passed(users, row, users', row', ids, talk)
    ensures Passed(users, row, users', row'.(status := status, updated := updated), ids, talk)
  {
  }

  class BroadcastService {
    const bot: Bot
    const clock: Clock
    /** After how many attempts the process dies. */
    const dies: nat -> bool
    var users: Users
    var rows: map<int, Broadcast>
    var savedUsers: Users
    var savedRows: map<int, Broadcast>

    constructor (bot: Bot, clock: Clock, dies: nat -> bool, users: Users, rows: map<int, Broadcast>)
      ensures this.bot == bot && this.clock == clock && this.dies == dies && this.users == users && this.rows == rows
              && Clean()
    {
      this.bot, this.clock, this.dies, this.users, this.rows := bot, clock, dies, users, rows;
      savedUsers, savedRows := users, rows;
    }

    predicate Clean()
      reads this
    {
      users == savedUsers && rows == savedRows
    }

    method Commit()
      modifies this
      ensures Clean() && users == old(users) && rows == old(rows)
    {
      savedUsers, savedRows := users, rows;
    }

    method Die()
      modifies this
      ensures Clean() && users == old(savedUsers) && rows == old(savedRows)
    {
      users, rows := savedUsers, savedRows;
    }

    /** draft -> running, once: a duplicate tap gets nothing. */
    method Claim(id: int) returns (claimed: bool)
      requires Clean()
      modifies this, clock
      ensures Clean() && users == old(users) && clock.now >= old(clock.now)
      ensures claimed <==> id in old(rows) && old(rows)[id].status.Draft?
      ensures rows ==
              if claimed then old(rows)[id := old(rows)[id].(status := Running, updated := clock.now)] else old(rows)
      ensures claimed ==> !rows[id].status.Draft?
    {
      claimed := id in rows && rows[id].status.Draft?;
      if claimed {
        var now := clock.Read();
        rows := rows[id := rows[id].(status := Running, updated := now)];
      }
      Commit();
    }

    /** iter_broadcast_targets. */
    method NextPage(after: Option<UserId>) returns (page: seq<UserId>)
      ensures Foremost(page, Targets(users, after))
      ensures |page| <= 25 && (|page| < 25 ==> |page| == |Targets(users, after)|)
      ensures page == [] <==> Targets(users, after) == {}
    {
      var all := Sort((a: UserId, b: UserId) => a < b, Targets(users, after));
      page := if |all| <= PAGE_SIZE then all else all[..PAGE_SIZE];
      forall u, v | u in all && u !in page && v in page ensures v < u {
        var i :| 0 <= i < |all| && all[i] == u;
        var j :| 0 <= j < |page| && page[j] == v;
        assert page == all[..|page|];
        assert i < |page| ==> u in page;
      }
      assert Targets(users, after) != {} ==> |all| > 0;
    }

    /** One copy: whoever has blocked the bot is flagged, and exactly one counter
        grows, as the replies to this user's one or two attempts say. */
    method SendOne(id: int, u: UserId) returns (ghost fate: Fate)
      requires id in rows && u in users
      modifies this`users, this`rows, bot
      ensures id in rows
      ensures var first, second := bot.replies(old(bot.attempts)), bot.replies(old(bot.attempts) + 1);
              var row, row' := old(rows)[id], rows[id];
              var reached := first.Delivered? || (first.RetryAfter? && second.Delivered?);
              && bot.attempts == old(bot.attempts) + (if first.RetryAfter? then 2 else 1)
              && users == (if first.Forbidden? then old(users)[u := true] else old(users))
              && rows == old(rows)[id := row.(sent := row'.sent, failed := row'.failed, blocked := row'.blocked)]
              && row'.sent == row.sent + (if reached then 1 else 0)
              && row'.blocked == row.blocked + (if first.Forbidden? then 1 else 0)
              && row'.failed == row.failed + (if !reached && !first.Forbidden? then 1 else 0)
              && (fate.Sent? <==> reached) && (fate.Blocked? <==> first.Forbidden?)
      ensures rows == old(rows)[id := old(rows)[id].Count(fate)]
    {
      var outcome := bot.Send();
      if outcome.Blocked? {
        users := users[u := true];
      }
      rows := rows[id := rows[id].Count(outcome)];
      fate := outcome;
    }

    /** The next user of a page, cursor and all. */
    method SendNext(id: int, page: seq<UserId>, ghost users0: Users, ghost row0: Broadcast, ghost ids: seq<UserId>,
                    ghost talk: Talk)
      requires id in rows && Passed(users0, row0, users, rows[id], ids, talk)
      requires page != [] && Foremost(page, Targets(users, rows[id].last))
      requires talk.replies == bot.replies && bot.attempts == talk.First(|ids|)
      modifies this`users, this`rows, bot
      ensures OnlyRow(old(rows), rows, id) && rows[id].status == old(rows)[id].status
      ensures Passed(users0, row0, users, rows[id], ids + [page[0]], talk)
      ensures Foremost(page[1..], Targets(users, rows[id].last)) && bot.attempts == talk.First(|ids| + 1)
    {
      ghost var mid, here := users, rows[id];
      ForemostRest(page, Targets(mid, here.last));
      ghost var fate := SendOne(id, page[0]);
      rows := rows[id := rows[id].(last := Some(page[0]))];
      OneMorePassed(users0, row0, mid, here, ids, talk, page[0], fate);
      CursorMoves(mid, here.last, page[0], fate.Blocked?);
    }

    /** One page; the cursor moves with every user, and nothing is written down.
        `n` users were attempted when the process died, or all of them. */
    method SendPage(id: int, page: seq<UserId>, ghost users0: Users, ghost row0: Broadcast, ghost ids: seq<UserId>,
                    ghost talk: Talk)
      returns (alive: bool, ghost n: nat)
      requires id in rows && Passed(users0, row0, users, rows[id], ids, talk)
      requires Foremost(page, Targets(users, rows[id].last))
      requires talk.replies == bot.replies && bot.attempts == talk.First(|ids|)
      modifies this`users, this`rows, bot
      ensures n <= |page| && (alive ==> n == |page|) && bot.attempts == talk.First(|ids| + n)
      ensures OnlyRow(old(rows), rows, id) && rows[id].status == old(rows)[id].status
      ensures Passed(users0, row0, users, rows[id], ids + page[..n], talk)
      ensures (forall i :: !dies(i)) ==> alive
    {
      hide Passed, Foremost, Targets, Talk.First;
      n := 0;
      assert ids + page[..0] == ids;
      for i := 0 to |page|
        invariant n == i && OnlyRow(old(rows), rows, id) && rows[id].status == old(rows)[id].status
        invariant Passed(users0, row0, users, rows[id], ids + page[..i], talk)
        invariant Foremost(page[i..], Targets(users, rows[id].last)) && bot.attempts == talk.First(|ids| + i)
      {
        SendNext(id, page[i..], users0, row0, ids + page[..i], talk);
        assert ids + page[..i + 1] == ids + page[..i] + [page[i..][0]];
        assert page[i..][1..] == page[i + 1..];
        n := i + 1;
        if dies(bot.attempts) {
          return false, n;
        }
      }
      alive := true;
    }

    method Checkpoint(id: int)
      requires id in rows
      modifies this, clock
      ensures Clean() && users == old(users) && clock.now >= old(clock.now)
      ensures rows == old(rows)[id := old(rows)[id].(updated := clock.now)]
    {
      var now := clock.Read();
      rows := rows[id := rows[id].(updated := now)];
      Commit();
    }

    /** One page and its checkpoint. A death in between takes the page back. */
    method RunPage(id: int, page: seq<UserId>, ghost users0: Users, ghost row0: Broadcast, ghost ids: seq<UserId>,
                    ghost talk: Talk)
      returns (alive: bool, ghost ids': seq<UserId>)
      requires Clean() && id in rows && Passed(users0, row0, users, rows[id], ids, talk)
      requires page != [] && Foremost(page, Targets(users, rows[id].last)) && |page| <= PAGE_SIZE
      requires talk.replies == bot.replies && bot.attempts == talk.First(|ids|)
      modifies this, bot, clock
      ensures Clean() && OnlyRow(old(rows), rows, id) && rows[id].status == old(rows)[id].status
      ensures clock.now >= old(clock.now)
      ensures Foremost(ids', Targets(users0, row0.last)) && ids <= ids' && |ids'| <= |ids| + PAGE_SIZE
      ensures bot.attempts == talk.First(|ids'|)
      ensures Passed(users0, row0, users, rows[id], if alive then ids' else ids, talk)
      ensures alive ==> |ids'| > |ids| && |Targets(users, rows[id].last)| < |Targets(old(users), old(rows)[id].last)|
      ensures (forall i :: !dies(i)) ==> alive
    {
      hide Passed, Foremost, Targets, Talk.First;
      WhatIsLeft(users0, row0, users, rows[id], ids, talk);
      ghost var n;
      alive, n := SendPage(id, page, users0, row0, ids, talk);
      ids' := ids + page[..n];
      WhatIsLeft(users0, row0, users, rows[id], ids', talk);
      if alive {
        ghost var here := rows[id];
        Checkpoint(id);
        StatusDoesNotCount(users0, row0, users, here, ids', talk, here.status, rows[id].updated);
      } else {
        Die();
      }
    }

    /** Send to everyone past the cursor. `ids` are the users attempted; `kept` of
        them are on record if the process dies, so at most a page is repeated. */
    method Run(id: int) returns (finished: bool, ghost ids: seq<UserId>, ghost kept: seq<UserId>)
      requires Clean() && id in rows
      modifies this, bot, clock
      ensures Clean() && OnlyRow(old(rows), rows, id) && clock.now >= old(clock.now)
      ensures Foremost(ids, Targets(old(users), old(rows)[id].last))
      ensures kept <= ids && |ids| <= |kept| + PAGE_SIZE
      ensures var talk := Talk(bot.replies, old(bot.attempts));
              Passed(old(users), old(rows)[id], users, rows[id], kept, talk) && bot.attempts == talk.First(|ids|)
      ensures finished ==> kept == ids && Targets(users, rows[id].last) == {} && rows[id].status.Done?
      ensures !finished ==> rows[id].status.Running?
      ensures (forall i :: !dies(i)) ==> finished
    {
      ghost var users0, row0, talk := users, rows[id], Talk(bot.replies, bot.attempts);
      if !rows[id].status.Running? {
        rows := rows[id := rows[id].(status := Running)];
        Checkpoint(id);
      }
      ids, kept := [], [];
      var page := NextPage(rows[id].last);
      while page != []
        invariant Clean() && OnlyRow(old(rows), rows, id) && rows[id].status.Running?
        invariant kept == ids && Passed(users0, row0, users, rows[id], ids, talk) && clock.now >= old(clock.now)
        invariant Foremost(page, Targets(users, rows[id].last)) && |page| <= PAGE_SIZE
        invariant bot.attempts == talk.First(|ids|)
        invariant page == [] ==> Targets(users, rows[id].last) == {}
        decreases |Targets(users, rows[id].last)|
      {
        var alive;
        alive, ids := RunPage(id, page, users0, row0, ids, talk);
        if !alive {
          return false, ids, kept;
        }
        kept := ids;
        page := NextPage(rows[id].last);
      }
      ghost var here := rows[id];
      rows := rows[id := rows[id].(status := Done)];
      Checkpoint(id);
      StatusDoesNotCount(users0, row0, users, here, ids, talk, Done, rows[id].updated);
      finished := true;
    }

    /** Runs repeated until one survives: whatever the crashes, the audience past
        the cursor hears the message, and each crash costs at most a page of copies. */
    method Campaign(id: int, lives: nat) returns (finished: bool, ghost crashes: nat, ghost copies: nat)
      requires Clean() && id in rows
      modifies this, bot, clock
      ensures Clean() && OnlyRow(old(rows), rows, id) && clock.now >= old(clock.now)
      ensures crashes <= lives
      ensures copies <= |Targets(old(users), old(rows)[id].last)| - |Targets(users, rows[id].last)| +
                PAGE_SIZE * crashes
      ensures rows[id].Total() - old(rows)[id].Total() ==
                |Targets(old(users), old(rows)[id].last)| - |Targets(users, rows[id].last)|
      ensures finished ==> Targets(users, rows[id].last) == {} && rows[id].status.Done?
      ensures lives > 0 && (forall i :: !dies(i)) ==> finished && crashes == 0
    {
      finished, crashes, copies := false, 0, 0;
      ghost var all := |Targets(users, rows[id].last)|;
      var life: nat := lives;
      while life > 0 && !finished
        invariant life <= lives && crashes <= lives - life
        invariant Clean() && OnlyRow(old(rows), rows, id) && clock.now >= old(clock.now)
        invariant copies <= all - |Targets(users, rows[id].last)| + PAGE_SIZE * crashes
        invariant rows[id].Total() - old(rows)[id].Total() == all - |Targets(users, rows[id].last)|
        invariant finished ==> Targets(users, rows[id].last) == {} && rows[id].status.Done?
        invariant (forall i :: !dies(i)) ==> crashes == 0 && (life < lives ==> finished)
        decreases life
      {
        ghost var users0, row0, talk := users, rows[id], Talk(bot.replies, bot.attempts);
        ghost var ids, kept;
        finished, ids, kept := Run(id);
        WhatIsLeft(users0, row0, users, rows[id], kept, talk);
        copies := copies + |ids|;
        crashes := crashes + if finished then 0 else 1;
        life := life - 1;
      }
    }

    /** A running broadcast that nobody has written to since the cutoff. */
    predicate Stale(id: int, cutoff: Time)
      reads this
    {
      id in rows && rows[id].status.Running? && rows[id].updated < cutoff
    }

    /** Finish what a restart interrupted, oldest id first; if the process dies
        again, what is left is still running, for the next resumer. */
    method ResumeStale(cutoff: Time) returns (alive: bool, resumed: seq<int>)
      requires Clean()
      modifies this, bot, clock
      ensures Clean() && rows.Keys == old(rows).Keys && clock.now >= old(clock.now)
      ensures Increasing(resumed)
      ensures forall id :: id in resumed <==>
                id in old(rows) && old(rows)[id].status.Running? && old(rows)[id].updated < cutoff
      ensures forall id | id in rows && id !in resumed :: rows[id] == old(rows)[id]
      ensures forall id | id in resumed :: id in rows && (rows[id].status.Done? || (!alive && rows[id].status.Running?))
      ensures forall u | u in old(users) :: u in users && (old(users)[u] ==> users[u])
      ensures (forall i :: !dies(i)) ==> alive
    {
      resumed := Sort((a: int, b: int) => a < b, set id | id in rows && Stale(id, cutoff));
      for k := 0 to |resumed|
        invariant Clean() && rows.Keys == old(rows).Keys && clock.now >= old(clock.now)
        invariant forall id | id in rows && id !in resumed[..k] :: rows[id] == old(rows)[id]
        invariant forall id | id in resumed[..k] :: id in rows && rows[id].status.Done?
        invariant forall u | u in old(users) :: u in users && (old(users)[u] ==> users[u])
      {
        assert resumed[k] in resumed;
        assert resumed[..k + 1] == resumed[..k] + [resumed[k]];
        var finished;
        ghost var ids, kept;
        finished, ids, kept := Run(resumed[k]);
        if !finished {
          return false, resumed;
        }
      }
      assert resumed[..|resumed|] == resumed;
      alive := true;
    }
  }
}
