/** A fixed window per key over a store that forgets counters on its own. */
module RateLimit {
  import opened Model

  /** `deadline` None is a counter without a time to live. */
  datatype Counter = Counter(count: int, deadline: Option<Time>)

  /** What the store still knows of a counter. */
  function Alive(c: Option<Counter>, now: Time): Option<Counter> {
    if c.Some? && c.value.deadline.Some? && c.value.deadline.value <= now then None else c
  }

  function Count(c: Option<Counter>): int {
    if c.Some? then c.value.count else 0
  }

  /** INCR, then EXPIRE ... NX; a lifetime that is not positive deletes the key. */
  function Hit(c: Option<Counter>, window: int, now: Time): Option<Counter> {
    var alive := Alive(c, now);
    if alive.Some? && alive.value.deadline.Some? then Some(Counter(alive.value.count + 1, alive.value.deadline))
    else if window <= 0 then None
    else Some(Counter(Count(alive) + 1, Some(now + window)))
  }

  class RedisRateLimiter {
    const prefix: string
    var counters: map<string, Counter>

    constructor (prefix: string, counters: map<string, Counter>)
      ensures this.prefix == prefix && this.counters == counters
    {
      this.prefix, this.counters := prefix, counters;
    }

    function Stored(key: string): Option<Counter>
      reads this
    {
      var full := prefix + ":" + key;
      if full in counters then Some(counters[full]) else None
    }

    /** Count this hit and make sure the counter can expire. */
    method Allow(key: string, limit: int, window: int, now: Time) returns (allowed: bool)
      modifies this
      ensures Stored(key) == Hit(old(Stored(key)), window, now)
      ensures allowed <==> Count(Alive(old(Stored(key)), now)) + 1 <= limit
      ensures window > 0 ==> Stored(key).Some? && Stored(key).value.deadline.Some?
      ensures forall other | other != key :: Stored(other) == old(Stored(other))
    {
      var full := prefix + ":" + key;
      var alive := Alive(Stored(key), now);
      var count := Count(alive) + 1;
      if alive.Some? && alive.value.deadline.Some? {
        counters := counters[full := Counter(count, alive.value.deadline)];
      } else if window <= 0 {
        counters := map k | k in counters && k != full :: counters[k];
      } else {
        counters := counters[full := Counter(count, Some(now + window))];
      }
      allowed := count <= limit;
      forall other | other != key ensures prefix + ":" + other != full {
        assert (prefix + ":" + other)[|prefix| + 1..] == other && full[|prefix| + 1..] == key;
      }
    }
  }

  // ---- one key, any sequence of hits ---------------------------------------

  /** The counter after the first `n` hits; `start` may be a counter left behind
      by an older version, without a time to live. */
  function After(start: Option<Counter>, hits: seq<Time>, window: int, n: nat): Option<Counter>
    requires n <= |hits|
  {
    if n == 0 then start else Hit(After(start, hits, window, n - 1), window, hits[n - 1])
  }

  predicate Admitted(start: Option<Counter>, hits: seq<Time>, window: int, limit: int, i: nat)
    requires i < |hits|
  {
    Count(Alive(After(start, hits, window, i), hits[i])) + 1 <= limit
  }

  ghost predicate Regular(start: Option<Counter>, hits: seq<Time>, window: int) {
    && window > 0
    && (forall i, j | 0 <= i < j < |hits| :: hits[i] <= hits[j])
    && (start.Some? ==> start.value.count >= 0 && start.value.deadline.None?)
  }

  /** When the window that counted hit `i` closes. */
  function Closes(start: Option<Counter>, hits: seq<Time>, window: int, i: nat): Time
    requires i < |hits|
  {
    var c := After(start, hits, window, i + 1);
    if c.Some? && c.value.deadline.Some? then c.value.deadline.value else hits[i]
  }

  /** Every counter can expire after every call, within a window of the hit. */
  lemma {:induction false} EveryCounterExpires(start: Option<Counter>, hits: seq<Time>, window: int, i: nat)
    requires Regular(start, hits, window) && i < |hits|
    ensures var c := After(start, hits, window, i + 1);
            && c.Some? && c.value.deadline.Some? && c.value.count >= 1
            && hits[i] < c.value.deadline.value <= hits[i] + window
            && Closes(start, hits, window, i) == c.value.deadline.value
  {
    if i > 0 {
      EveryCounterExpires(start, hits, window, i - 1);
    }
  }

  /** Windows never overlap: a hit is counted in the window before it, or opens
      one of its own after that one has closed. */
  lemma WindowsFollow(start: Option<Counter>, hits: seq<Time>, window: int, i: nat)
    requires Regular(start, hits, window) && i + 1 < |hits|
    ensures var d, e := Closes(start, hits, window, i), Closes(start, hits, window, i + 1);
            e == if d <= hits[i + 1] then hits[i + 1] + window else d
  {
    EveryCounterExpires(start, hits, window, i);
    EveryCounterExpires(start, hits, window, i + 1);
  }

  lemma {:induction false} ClosesGrows(start: Option<Counter>, hits: seq<Time>, window: int, i: nat, j: nat)
    requires Regular(start, hits, window) && i <= j < |hits|
    ensures var d, e := Closes(start, hits, window, i), Closes(start, hits, window, j);
            e == d || (e >= d + window && hits[j] >= d)
    ensures hits[j] >= Closes(start, hits, window, j) - window
  {
    EveryCounterExpires(start, hits, window, j);
    if i < j {
      ClosesGrows(start, hits, window, i, j - 1);
      WindowsFollow(start, hits, window, j - 1);
    }
  }

  /** Even constant hammering is let in again: the first hit at or after the end of
      a window opens the next one. */
  lemma HammeringIsReadmitted(start: Option<Counter>, hits: seq<Time>, window: int, limit: int, i: nat, j: nat)
    requires Regular(start, hits, window) && limit >= 1 && i < j < |hits|
    requires hits[j - 1] < Closes(start, hits, window, i) <= hits[j]
    ensures Admitted(start, hits, window, limit, j)
    ensures Closes(start, hits, window, i) <= hits[i] + window
  {
    EveryCounterExpires(start, hits, window, i);
    EveryCounterExpires(start, hits, window, j - 1);
    ClosesGrows(start, hits, window, i, j - 1);
  }

  // ---- who is let in -------------------------------------------------------

  /** Which hit opened the window of hit `i`, from the moments alone: a window lasts
      from its first hit for `window`, and the first hit after it opens the next. */
  function Opener(hits: seq<Time>, window: int, i: nat): (o: nat)
    requires i < |hits|
    ensures o <= i
  {
    if i == 0 then 0
    else
      var o := Opener(hits, window, i - 1);
      if hits[i] >= hits[o] + window then i else o
  }

  lemma {:induction false} CountedSinceOpening(start: Option<Counter>, hits: seq<Time>, window: int, i: nat)
    requires Regular(start, hits, window) && i < |hits|
    ensures var o, c := Opener(hits, window, i), After(start, hits, window, i + 1);
            && c.Some? && c.value.deadline == Some(hits[o] + window) && hits[i] < hits[o] + window
            && c.value.count == i - o + 1 + (if o == 0 && start.Some? then start.value.count else 0)
  {
    if i > 0 {
      CountedSinceOpening(start, hits, window, i - 1);
    }
  }

  /** Exactly who is let in: hit `i` passes if and only if it is among the first
      `limit` of its window. A counter left behind without a time to live is charged
      to the first window. */
  lemma AdmittedExactly(start: Option<Counter>, hits: seq<Time>, window: int, limit: int, i: nat)
    requires Regular(start, hits, window) && i < |hits|
    ensures var o := Opener(hits, window, i);
            Admitted(start, hits, window, limit, i) <==>
              i - o + 1 + (if o == 0 && start.Some? then start.value.count else 0) <= limit
  {
    if i > 0 {
      CountedSinceOpening(start, hits, window, i - 1);
    }
  }

  /** Without a window nothing is remembered: every hit is the first. */
  lemma {:induction false} NoWindowNoMemory(hits: seq<Time>, window: int, limit: int, i: nat)
    requires window <= 0 && i < |hits|
    ensures After(None, hits, window, i + 1).None? && (Admitted(None, hits, window, limit, i) <==> limit >= 1)
  {
    if i > 0 {
      NoWindowNoMemory(hits, window, limit, i - 1);
    }
  }

  // ---- how many are let in -------------------------------------------------

  /** Of the first `n` hits, those let in by the window closing at `d`; with
      `late`, without those at the moment it opened. */
  function LetIn(start: Option<Counter>, hits: seq<Time>, window: int, limit: int, d: Time, late: bool, n: nat): nat
    requires n <= |hits|
  {
    if n == 0 then 0
    else
      LetIn(start, hits, window, limit, d, late, n - 1)
      + if Admitted(start, hits, window, limit, n - 1) && Closes(start, hits, window, n - 1) == d
           && (late ==> hits[n - 1] > d - window) then 1 else 0
  }

  lemma {:induction false} WindowLets(start: Option<Counter>, hits: seq<Time>, window: int, limit: nat, d: Time,
                                      late: bool, n: nat)
    requires Regular(start, hits, window) && n <= |hits|
    ensures n > 0 && Closes(start, hits, window, n - 1) < d ==> LetIn(start, hits, window, limit, d, late, n) == 0
    ensures n > 0 && Closes(start, hits, window, n - 1) == d ==>
              var count := Count(After(start, hits, window, n));
              LetIn(start, hits, window, limit, d, late, n) <=
                Max(0, (if count < limit then count else limit) - if late then 1 else 0)
    ensures LetIn(start, hits, window, limit, d, late, n) <= Max(0, limit - if late then 1 else 0)
  {
    if n > 0 {
      EveryCounterExpires(start, hits, window, n - 1);
      WindowLets(start, hits, window, limit, d, late, n - 1);
      if n > 1 {
        EveryCounterExpires(start, hits, window, n - 2);
        WindowsFollow(start, hits, window, n - 2);
      }
    }
  }

  /** No window admits more than the limit. */
  lemma WindowAdmitsAtMostLimit(start: Option<Counter>, hits: seq<Time>, window: int, limit: nat, d: Time)
    requires Regular(start, hits, window)
    ensures LetIn(start, hits, window, limit, d, false, |hits|) <= limit
  {
    WindowLets(start, hits, window, limit, d, false, |hits|);
  }

  /** Of the first `n` hits, those let in from `t` on for the length of a window. */
  function LetInFrom(start: Option<Counter>, hits: seq<Time>, window: int, limit: int, t: Time, n: nat): nat
    requires n <= |hits|
  {
    if n == 0 then 0
    else
      LetInFrom(start, hits, window, limit, t, n - 1)
      + if Admitted(start, hits, window, limit, n - 1) && t <= hits[n - 1] < t + window then 1 else 0
  }

  /** What the first `n` hits say about the interval from `t` on: all counted there
      belong to the window closing at `d` or to the one closing at `e` after it. */
  ghost predicate Meet(start: Option<Counter>, hits: seq<Time>, window: int, limit: int, t: Time, n: nat, d: Time,
                       e: Time)
    requires n <= |hits|
  {
    && (d - window >= t ==> e == d)
    && LetInFrom(start, hits, window, limit, t, n)
       <= LetIn(start, hits, window, limit, d, d - window < t, n)
          + (if e == d then 0 else LetIn(start, hits, window, limit, e, false, n))
    && (n > 0 && t <= hits[n - 1] < t + window ==>
          Closes(start, hits, window, n - 1) == e && (e != d ==> e >= d + window && t < d))
    && (n == 0 || hits[n - 1] < t ==> LetInFrom(start, hits, window, limit, t, n) == 0)
  }

  /** The first hit of the interval sets both. */
  lemma FirstMeets(start: Option<Counter>, hits: seq<Time>, window: int, limit: int, t: Time, n: nat, d: Time, e: Time)
    requires Regular(start, hits, window) && 0 < n <= |hits| && Meet(start, hits, window, limit, t, n - 1, d, e)
    requires t <= hits[n - 1] < t + window && (n == 1 || hits[n - 2] < t)
    ensures var c := Closes(start, hits, window, n - 1); Meet(start, hits, window, limit, t, n, c, c)
  {
    hide After, Regular;
    EveryCounterExpires(start, hits, window, n - 1);
    hide Admitted, Closes;
  }

  /** A later one is in the same window, or opens the second. */
  lemma LaterMeets(start: Option<Counter>, hits: seq<Time>, window: int, limit: int, t: Time, n: nat, d: Time, e: Time)
    requires Regular(start, hits, window) && 1 < n <= |hits| && Meet(start, hits, window, limit, t, n - 1, d, e)
    requires t <= hits[n - 2] <= hits[n - 1] < t + window
    ensures Meet(start, hits, window, limit, t, n, d, Closes(start, hits, window, n - 1))
  {
    hide After;
    WindowsFollow(start, hits, window, n - 2);
    EveryCounterExpires(start, hits, window, n - 2);
    EveryCounterExpires(start, hits, window, n - 1);
    hide Admitted, Closes, Regular;
  }

  lemma {:induction false} TwoWindowsMeet(start: Option<Counter>, hits: seq<Time>, window: int, limit: int, t: Time,
                                          n: nat)
    returns (d: Time, e: Time)
    requires Regular(start, hits, window) && n <= |hits|
    ensures Meet(start, hits, window, limit, t, n, d, e)
  {
    if n == 0 {
      return t, t;
    }
    d, e := TwoWindowsMeet(start, hits, window, limit, t, n - 1);
    hide After, Admitted, Closes;
    if t <= hits[n - 1] < t + window {
      if n == 1 || hits[n - 2] < t {
        FirstMeets(start, hits, window, limit, t, n, d, e);
        d, e := Closes(start, hits, window, n - 1), Closes(start, hits, window, n - 1);
      } else {
        LaterMeets(start, hits, window, limit, t, n, d, e);
        e := Closes(start, hits, window, n - 1);
      }
    }
  }

  /** Around the seam of two windows more than the limit may pass, but never
      twice the limit: the hit that opened the first window lies before. */
  lemma AnyIntervalAdmitsLessThanTwice(start: Option<Counter>, hits: seq<Time>, window: int, limit: nat, t: Time)
    requires Regular(start, hits, window)
    ensures LetInFrom(start, hits, window, limit, t, |hits|) <= Max(0, 2 * limit - 1)
  {
    var d, e := TwoWindowsMeet(start, hits, window, limit, t, |hits|);
    WindowLets(start, hits, window, limit, d, d - window < t, |hits|);
    WindowLets(start, hits, window, limit, e, false, |hits|);
  }

  // ---- cooldown ------------------------------------------------------------

  datatype Press = Claim(at: Time) | Release

  function LastTurn(period: nat, presses: seq<Press>): Option<Time> {
    if presses == [] then None
    else
      var last, p := LastTurn(period, presses[..|presses| - 1]), presses[|presses| - 1];
      if p.Release? then None
      else if last.Some? && p.at - last.value < period then last
      else Some(p.at)
  }

  predicate Granted(period: nat, presses: seq<Press>, i: nat)
    requires i < |presses|
  {
    var last := LastTurn(period, presses[..i]);
    presses[i].Claim? && (last.Some? ==> presses[i].at - last.value >= period)
  }

  class Cooldown {
    const period: nat
    var last: Option<Time>
    ghost var presses: seq<Press>

    constructor (period: nat)
      ensures this.period == period && presses == [] && Valid()
    {
      this.period, last, presses := period, None, [];
    }

    ghost predicate Valid()
      reads this
    {
      last == LastTurn(period, presses)
    }

    method TryClaim(now: Time) returns (granted: bool)
      requires Valid()
      modifies this
      ensures Valid() && presses == old(presses) + [Claim(now)]
      ensures granted <==> Granted(period, presses, |presses| - 1)
    {
      assert (presses + [Claim(now)])[..|presses|] == presses;
      presses := presses + [Claim(now)];
      if last.Some? && now - last.value < period {
        return false;
      }
      last := Some(now);
      granted := true;
    }

    method GiveBack()
      requires Valid()
      modifies this
      ensures Valid() && presses == old(presses) + [Release] && last.None?
    {
      assert (presses + [Release])[..|presses|] == presses;
      presses := presses + [Release];
      last := None;
    }
  }

  ghost predicate Unreleased(presses: seq<Press>, i: nat, j: nat)
    requires i <= j <= |presses|
  {
    forall k | i < k < j :: presses[k].Claim?
  }

  lemma {:induction false} TurnIsRemembered(period: nat, presses: seq<Press>, i: nat, j: nat)
    requires i < j <= |presses| && Granted(period, presses, i) && Unreleased(presses, i, j)
    ensures LastTurn(period, presses[..j]).Some? && LastTurn(period, presses[..j]).value >= presses[i].at
  {
    assert presses[..j][..j - 1] == presses[..j - 1];
    if j > i + 1 {
      TurnIsRemembered(period, presses, i, j - 1);
    }
  }

  lemma {:induction false} LastTurnWasGranted(period: nat, presses: seq<Press>, j: nat) returns (i: nat)
    requires j <= |presses| && LastTurn(period, presses[..j]).Some?
    ensures i < j && Granted(period, presses, i) && Unreleased(presses, i, j)
    ensures LastTurn(period, presses[..j]) == Some(presses[i].at)
  {
    assert presses[..j][..j - 1] == presses[..j - 1];
    if Granted(period, presses, j - 1) {
      i := j - 1;
    } else {
      i := LastTurnWasGranted(period, presses, j - 1);
    }
  }

  /** Exactly when a press gets a turn: every granted turn that has not been given
      back since is at least a period old. */
  lemma GrantedExactly(period: nat, presses: seq<Press>, j: nat)
    requires j < |presses| && presses[j].Claim?
    ensures Granted(period, presses, j) <==>
              forall i | 0 <= i < j && Granted(period, presses, i) && Unreleased(presses, i, j) ::
                presses[j].at - presses[i].at >= period
  {
    if Granted(period, presses, j) {
      forall i | 0 <= i < j && Granted(period, presses, i) && Unreleased(presses, i, j)
        ensures presses[j].at - presses[i].at >= period
      {
        TurnIsRemembered(period, presses, i, j);
      }
    } else {
      var i := LastTurnWasGranted(period, presses, j);
    }
  }

  /** Unless the turn was given back, two turns are a whole period apart. */
  lemma TurnsAreApart(period: nat, presses: seq<Press>, i: nat, j: nat)
    requires i < j < |presses| && Granted(period, presses, i) && Granted(period, presses, j)
             && Unreleased(presses, i, j)
    ensures presses[j].at - presses[i].at >= period
  {
    TurnIsRemembered(period, presses, i, j);
  }
}
