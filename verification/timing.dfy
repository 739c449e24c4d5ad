/** Each notice once and in its own window: exactly when the reminder job keeps its
    promise for a cycle, and for a date. */
module Timing {
  import opened Model
  import opened Reminders

  // ---- exactly once --------------------------------------------------------

  /** Some pass lists, loads and reaches the active row in the stage's window. */
  ghost predicate Covered(h: History, c: nat, stage: Stage)
    requires c <= |h.events|
  {
    exists k :: c <= k < |h.events| && Covers(h, c, stage, k)
  }

  predicate Covers(h: History, c: nat, stage: Stage, k: nat)
    requires c <= k < |h.events|
  {
    match h.events[k]
    case Write(_) => false
    case Turn(s, at, listed, copied) =>
      && s == stage && c <= copied <= listed <= k
      && RowAt(h, listed).status.Active? && Near(RowAt(h, c), at, stage)
  }

  /** No trial that is too short is ever told, whatever else happens. */
  lemma {:induction false} ShortTrialIsNeverTold(h: History, c: nat, stage: Stage, n: nat)
    requires Cycle(h, c) && c <= n <= |h.events| && ShortTrial(RowAt(h, c), stage)
    ensures Told(h, stage, c, n) == 0
    decreases n
  {
    if n > c {
      ShortTrialIsNeverTold(h, c, stage, n - 1);
      if Tells(h, stage, n - 1) {
        var copied := h.events[n - 1].copied;
        if copied <= c {
          DatesGrow(h, copied, c);
        } else {
          DateStands(h, c, copied);
        }
        ShortStaysShort(RowAt(h, copied), RowAt(h, c), stage);
      }
    }
  }

  /** By the end of a covering turn the marker says so. */
  lemma CoveringTurnMarks(h: History, c: nat, stage: Stage, k: nat)
    requires Cycle(h, c) && c <= k < |h.events| && Covers(h, c, stage, k) && !ShortTrial(RowAt(h, c), stage)
    ensures Tells(h, stage, k) || RowAt(h, k).stage == Some(stage) || RowAt(h, h.events[k].copied).stage == Some(stage)
  {
    hide RowAt, Claims;
    ClaimsWhen(h, k);
    DateStands(h, c, h.events[k].listed);
    DateStands(h, c, h.events[k].copied);
    ExpiringIsNear(RowAt(h, h.events[k].listed), h.events[k].at, stage);
  }

  /** So the notice has gone out by then. */
  lemma CoveringTurnIsTold(h: History, c: nat, stage: Stage, k: nat) returns (j: nat)
    requires Cycle(h, c) && c <= k < |h.events| && Covers(h, c, stage, k) && !ShortTrial(RowAt(h, c), stage)
    ensures c <= j <= k && Tells(h, stage, j)
  {
    CoveringTurnMarks(h, c, stage, k);
    if Tells(h, stage, k) {
      j := k;
    } else if RowAt(h, k).stage == Some(stage) {
      j := MarkerIsLastNotice(h, c, k);
    } else {
      j := MarkerIsLastNotice(h, c, h.events[k].copied);
    }
  }

  /** The notice goes out while the row, as it is at the claim, is in the window. This
      is what the claim does not check. */
  predicate InTime(h: History, stage: Stage, k: nat)
    requires k < |h.events|
  {
    Tells(h, stage, k) && Near(RowAt(h, k), h.events[k].at, stage)
  }

  /** The cycle's own notice of the stage went out. */
  ghost predicate ToldInTime(h: History, c: nat, stage: Stage)
    requires c <= |h.events|
  {
    exists k :: c <= k < |h.events| && InTime(h, stage, k)
  }

  ghost predicate AllTimely(h: History, c: nat, stage: Stage)
    requires c <= |h.events|
  {
    forall k | c <= k < |h.events| && Tells(h, stage, k) :: InTime(h, stage, k)
  }

  lemma ReloadedAfter(h: History, c: nat, j: nat, k: nat)
    requires Cycle(h, c) && j < k < |h.events| && Claims(h, j) && h.events[k].Turn?
    ensures j < h.events[k].copied
  {
  }

  lemma TurnsFollow(h: History, j: nat, k: nat)
    requires WellFormed(h) && j < |h.events| && k < |h.events| && h.events[j].Turn? && h.events[k].Turn?
    ensures j < k ==> h.events[j].at <= h.events[k].at && j < h.events[k].listed
    ensures j < k && Claims(h, j) ==> j < h.events[k].copied
    ensures h.events[j].at < h.events[k].at ==> j < k
  {
  }

  /** An untimely one-day notice was listed before the cycle, so whatever covers the
      windows comes later, three days before one day. */
  lemma CoversComeLater(h: History, c: nat, k: nat, k3: nat, k1: nat)
    requires Cycle(h, c) && c <= k < |h.events| && Tells(h, OneDay, k) && !Near(RowAt(h, k), h.events[k].at, OneDay)
    requires c <= k3 < |h.events| && Covers(h, c, ThreeDays, k3)
    requires c <= k1 < |h.events| && Covers(h, c, OneDay, k1)
    ensures k < k3 < k1 && h.events[k3].Turn? && h.events[k1].Turn? && k < h.events[k3].copied
  {
    hide RowAt, Told, Expiring;
    StaleIfUntimely(h, c, k);
    NearOrder(RowAt(h, c), h.events[k3].at, h.events[k1].at);
    hide Near, Covers;
    TurnsFollow(h, k3, k);
    TurnsFollow(h, k3, k1);
    TurnsFollow(h, k, k3);
  }

  lemma StaleIfUntimely(h: History, c: nat, k: nat)
    requires Cycle(h, c) && c <= k < |h.events| && Claims(h, k) && !Near(RowAt(h, k), h.events[k].at, h.events[k].stage)
    ensures h.events[k].listed < c
  {
    hide RowAt, Near;
    if c <= h.events[k].listed {
      FreshNoticeIsNear(h, c, k);
    }
  }

  lemma NearOrder(row: Subscription, three: Time, one: Time)
    requires Near(row, three, ThreeDays) && Near(row, one, OneDay)
    ensures three < one
  {
  }

  /** It is followed by the three-day notice, and that by a second one-day notice. */
  lemma UntimelyNoticeIsRepeated(h: History, c: nat, k: nat)
    requires Cycle(h, c) && c <= k < |h.events| && Tells(h, OneDay, k) && !Near(RowAt(h, k), h.events[k].at, OneDay)
    requires Covered(h, c, OneDay) && Covered(h, c, ThreeDays)
    requires !ShortTrial(RowAt(h, c), OneDay) && !ShortTrial(RowAt(h, c), ThreeDays)
    ensures Told(h, OneDay, c, |h.events|) >= 2
  {
    hide RowAt, Told, Cycle, Covers, Near, ShortTrial;
    var k3 :| c <= k3 < |h.events| && Covers(h, c, ThreeDays, k3);
    var k1 :| c <= k1 < |h.events| && Covers(h, c, OneDay, k1);
    CoversComeLater(h, c, k, k3, k1);
    var i := ToldAfter(h, c, ThreeDays, k3, k);
    ReloadedAfter(h, c, i, k1);
    var j := ToldAfter(h, c, OneDay, k1, i);
    TwiceTold(h, c, OneDay, k, j);
  }

  /** The covering turn, or a turn after `after`, sends the notice: at `after` the
      marker went to the other stage. */
  lemma ToldAfter(h: History, c: nat, stage: Stage, k: nat, after: nat) returns (j: nat)
    requires Cycle(h, c) && c <= after < k < |h.events| && Covers(h, c, stage, k) && !ShortTrial(RowAt(h, c), stage)
    requires Tells(h, Other(stage), after) && after < h.events[k].copied
    ensures after < j <= k && Tells(h, stage, j)
  {
    CoveringTurnMarks(h, c, stage, k);
    hide RowAt, Claims;
    if Tells(h, stage, k) {
      j := k;
    } else if RowAt(h, k).stage == Some(stage) {
      j := MarkerIsLastNotice(h, c, k);
    } else {
      j := MarkerIsLastNotice(h, c, h.events[k].copied);
    }
  }

  lemma TwiceTold(h: History, c: nat, stage: Stage, j: nat, k: nat)
    requires c <= j < k < |h.events| && Tells(h, stage, j) && Tells(h, stage, k)
    ensures Told(h, stage, c, |h.events|) >= 2
  {
    ToldCounts(h, c, j, k);
    ToldCounts(h, c, k, |h.events|);
  }

  lemma TimelyIsInOrder(h: History, c: nat)
    requires Cycle(h, c) && AllTimely(h, c, OneDay)
    ensures InOrder(h, c)
  {
    hide RowAt, Near, Final;
    forall j | c <= j < |h.events| && Tells(h, OneDay, j) && Told(h, OneDay, c, j) == 0
      ensures Final(RowAt(h, j), h.events[j].at)
    {
      NearIsFinal(RowAt(h, j), h.events[j].at);
    }
    EachStageOnceAndInOrder(h, c);
  }

  lemma NearIsFinal(row: Subscription, at: Time)
    requires Near(row, at, OneDay)
    ensures Final(row, at)
  {
  }

  lemma CoveredIsTold(h: History, c: nat, stage: Stage)
    requires Cycle(h, c) && Covered(h, c, stage) && !ShortTrial(RowAt(h, c), stage)
    ensures Told(h, stage, c, |h.events|) >= 1
  {
    var k :| c <= k < |h.events| && Covers(h, c, stage, k);
    var j := CoveringTurnIsTold(h, c, stage, k);
    ToldCounts(h, c, j, |h.events|);
  }

  /** Since a claim, and without a clear, the marker is the last notice. */
  lemma {:induction false} MarkerSince(h: History, j: nat, n: nat) returns (m: nat)
    requires WellFormed(h) && j < n <= |h.events| && Claims(h, j)
    requires forall k | j < k < n :: !Clears(h, k)
    ensures j <= m < n && Claims(h, m) && RowAt(h, n).stage == Some(h.events[m].stage)
    decreases n
  {
    hide RowAt, Claims;
    RowAfter(h, n - 1);
    if Claims(h, n - 1) || n == j + 1 {
      m := n - 1;
    } else {
      if h.events[n - 1].Write? {
        OthersKeep(h, n - 1);
      }
      m := MarkerSince(h, j, n - 1);
    }
  }

  ghost predicate DateHolds(h: History, j: nat, k: nat)
    requires j <= k <= |h.events|
  {
    forall n | j <= n <= k :: RowAt(h, n).expires == RowAt(h, j).expires
  }

  lemma ClaimIsListed(h: History, m: nat)
    requires m < |h.events| && Claims(h, m)
    ensures h.events[m].Turn? && h.events[m].listed <= m
    ensures h.events[m].copied <= m && RowAt(h, h.events[m].listed).status.Active?
    ensures Near(RowAt(h, h.events[m].listed), h.events[m].at, h.events[m].stage)
    ensures !ShortTrial(RowAt(h, h.events[m].copied), h.events[m].stage)
  {
    ExpiringIsNear(RowAt(h, h.events[m].listed), h.events[m].at, h.events[m].stage);
  }

  /** Between two moments of one window the other stage has nothing to say. */
  lemma OtherIsApart(h: History, stage: Stage, j: nat, m: nat, k: nat)
    requires WellFormed(h) && j < m < k < |h.events| && DateHolds(h, j, k)
    requires h.events[j].Turn? && Claims(h, m) && h.events[k].Turn?
    requires Near(RowAt(h, j), h.events[j].at, stage) && Near(RowAt(h, j), h.events[k].at, stage)
    ensures h.events[m].stage == stage
  {
    hide RowAt, Claims;
    ClaimIsListed(h, m);
    TurnsFollow(h, j, m);
    TurnsFollow(h, m, k);
    var row := RowAt(h, h.events[m].listed);
    assert row.expires == RowAt(h, j).expires;
  }

  lemma CycleHoldsDate(h: History, c: nat, j: nat, k: nat)
    requires Cycle(h, c) && c <= j <= k <= |h.events|
    ensures DateHolds(h, j, k)
  {
    forall n | j <= n <= k ensures RowAt(h, n).expires == RowAt(h, j).expires {
      DateStands(h, c, n);
      DateStands(h, c, j);
    }
  }

  lemma {:induction false} TwoTells(h: History, stage: Stage, c: nat, n: nat) returns (j: nat, k: nat)
    requires c <= n <= |h.events| && Told(h, stage, c, n) >= 2
    ensures c <= j < k < n && Tells(h, stage, j) && Tells(h, stage, k)
    decreases n
  {
    if Tells(h, stage, n - 1) {
      k := n - 1;
      j := OneTell(h, stage, c, n - 1);
    } else {
      j, k := TwoTells(h, stage, c, n - 1);
    }
  }

  lemma {:induction false} OneTell(h: History, stage: Stage, c: nat, n: nat) returns (j: nat)
    requires c <= n <= |h.events| && Told(h, stage, c, n) >= 1
    ensures c <= j < n && Tells(h, stage, j)
    decreases n
  {
    if Tells(h, stage, n - 1) {
      j := n - 1;
    } else {
      j := OneTell(h, stage, c, n - 1);
    }
  }

  lemma ClaimFindsAnother(h: History, k: nat)
    requires k < |h.events| && Claims(h, k)
    ensures h.events[k].Turn? && RowAt(h, k).stage != Some(h.events[k].stage)
  {
  }

  /** Notices that are all in time are never repeated within a cycle. */
  lemma TimelyStageIsOnce(h: History, c: nat, stage: Stage)
    requires Cycle(h, c) && AllTimely(h, c, stage)
    ensures Told(h, stage, c, |h.events|) <= 1
  {
    hide RowAt, Claims, Near, DateHolds;
    if Told(h, stage, c, |h.events|) >= 2 {
      var j, k := TwoTells(h, stage, c, |h.events|);
      assert InTime(h, stage, j) && InTime(h, stage, k);
      hide Told;
      CycleHoldsDate(h, c, j, k);
      SameWindow(h, c, stage, j, k);
      ClaimFindsAnother(h, k);
      ClaimFindsAnother(h, j);
      var m := MarkerSince(h, j, k);
      if m != j {
        OtherIsApart(h, stage, j, m, k);
      }
      assert false;
    }
  }

  lemma SameWindow(h: History, c: nat, stage: Stage, j: nat, k: nat)
    requires Cycle(h, c) && c <= j <= k < |h.events| && InTime(h, stage, j) && InTime(h, stage, k)
    ensures Near(RowAt(h, j), h.events[j].at, stage) && Near(RowAt(h, j), h.events[k].at, stage)
  {
    hide RowAt, Claims;
    DateStands(h, c, j);
    DateStands(h, c, k);
  }

  lemma CoveredAndTimely(h: History, c: nat, stage: Stage)
    requires Cycle(h, c) && Covered(h, c, stage) && !ShortTrial(RowAt(h, c), stage) && AllTimely(h, c, stage)
    ensures ToldInTime(h, c, stage)
  {
    hide RowAt, Claims, Covers;
    var k :| c <= k < |h.events| && Covers(h, c, stage, k);
    var j := CoveringTurnIsTold(h, c, stage, k);
    assert InTime(h, stage, j);
  }

  /** Exactly when the cycle's own notice goes out, and no other of its stage: for a
      covered stage, if and only if every claim found the row still in the window. */
  lemma StageInTimeExactly(h: History, c: nat, stage: Stage)
    requires Cycle(h, c) && Covered(h, c, stage) && !ShortTrial(RowAt(h, c), stage)
    ensures Told(h, stage, c, |h.events|) == 1 && ToldInTime(h, c, stage) <==> AllTimely(h, c, stage)
  {
    hide RowAt, Claims, Covered, ShortTrial, Told, Near;
    if AllTimely(h, c, stage) {
      TimelyStageIsOnce(h, c, stage);
      CoveredIsTold(h, c, stage);
      CoveredAndTimely(h, c, stage);
    } else if Told(h, stage, c, |h.events|) == 1 && ToldInTime(h, c, stage) {
      var j :| c <= j < |h.events| && InTime(h, stage, j);
      var k :| c <= k < |h.events| && Tells(h, stage, k) && !InTime(h, stage, k);
      if j < k {
        TwiceTold(h, c, stage, j, k);
      } else {
        TwiceTold(h, c, stage, k, j);
      }
    }
  }

  /** For the far stage the timing alone decides: a three-day notice sent too early
      leaves no room for the real one. */
  lemma ThreeDaysInTimeExactly(h: History, c: nat)
    requires Cycle(h, c) && Covered(h, c, ThreeDays) && !ShortTrial(RowAt(h, c), ThreeDays)
    ensures ToldInTime(h, c, ThreeDays) <==> AllTimely(h, c, ThreeDays)
  {
    hide RowAt, Claims, Covered, ShortTrial, Told, Near;
    if AllTimely(h, c, ThreeDays) {
      CoveredAndTimely(h, c, ThreeDays);
    } else if ToldInTime(h, c, ThreeDays) {
      var j :| c <= j < |h.events| && Tells(h, ThreeDays, j) && !InTime(h, ThreeDays, j);
      var k :| c <= k < |h.events| && InTime(h, ThreeDays, k);
      EarlyNoticeSilences(h, c, j, k);
    }
  }

  /** Only the first turn of a cycle can be stale, and after a stale three-day notice
      the next one has to wait for a one-day notice, which comes too late for it. */
  lemma EarlyNoticeSilences(h: History, c: nat, j: nat, k: nat)
    requires Cycle(h, c) && c <= j < |h.events| && c <= k < |h.events|
    requires Tells(h, ThreeDays, j) && !InTime(h, ThreeDays, j)
    ensures !InTime(h, ThreeDays, k)
  {
    hide RowAt, Claims, Near;
    if InTime(h, ThreeDays, k) {
      ClaimFindsAnother(h, k);
      ClaimFindsAnother(h, j);
      StaleIfUntimely(h, c, j);
      TurnsFollow(h, k, j);
      var m := MarkerSince(h, j, k);
      ClaimFindsAnother(h, m);
      assert h.events[m].stage == OneDay;
      TurnsFollow(h, j, m);
      FreshNoticeIsNear(h, c, m);
      TurnsFollow(h, m, k);
      DateStands(h, c, m);
      DateStands(h, c, k);
      NearIsLater(RowAt(h, m), RowAt(h, k), h.events[m].at, h.events[k].at);
    }
  }

  lemma NearIsLater(row: Subscription, row': Subscription, one: Time, three: Time)
    requires row.expires == row'.expires && Near(row, one, OneDay) && Near(row', three, ThreeDays)
    ensures three < one
  {
  }

  /** Exactly when a cycle whose windows are both covered sends each notice exactly
      once, early or not: if and only if no one-day notice was claimed on a row that had
      meanwhile been given more than a day. */
  lemma EachStageOnceExactly(h: History, c: nat)
    requires Cycle(h, c) && Covered(h, c, OneDay) && Covered(h, c, ThreeDays)
    requires !ShortTrial(RowAt(h, c), OneDay) && !ShortTrial(RowAt(h, c), ThreeDays)
    ensures (forall stage :: Told(h, stage, c, |h.events|) == 1) <==> AllTimely(h, c, OneDay)
  {
    hide RowAt, ShortTrial, Told;
    if AllTimely(h, c, OneDay) {
      TimelyIsInOrder(h, c);
      forall stage ensures Told(h, stage, c, |h.events|) == 1 {
        match stage
        case OneDay => CoveredIsTold(h, c, OneDay);
        case ThreeDays => CoveredIsTold(h, c, ThreeDays);
      }
    } else {
      var k :| c <= k < |h.events| && Tells(h, OneDay, k) && !Near(RowAt(h, k), h.events[k].at, OneDay);
      UntimelyNoticeIsRepeated(h, c, k);
      assert Told(h, OneDay, c, |h.events|) >= 2;
    }
  }

  /** Each notice went out once, and in its own window. */
  ghost predicate EachOnceInTime(h: History, c: nat)
    requires c <= |h.events|
  {
    forall stage :: Told(h, stage, c, |h.events|) == 1 && ToldInTime(h, c, stage)
  }

  /** The whole promise, and exactly when it holds: in a cycle whose windows are both
      covered each notice goes out once, in its own window and in order, if and only if
      no claim found the row outside the window. */
  lemma PromiseHoldsExactly(h: History, c: nat)
    requires Cycle(h, c) && Covered(h, c, OneDay) && Covered(h, c, ThreeDays)
    requires !ShortTrial(RowAt(h, c), OneDay) && !ShortTrial(RowAt(h, c), ThreeDays)
    ensures EachOnceInTime(h, c) && InOrder(h, c) <==> AllTimely(h, c, OneDay) && AllTimely(h, c, ThreeDays)
  {
    hide RowAt, Claims, Covered, ShortTrial, Told, ToldInTime, AllTimely, InOrder;
    StageInTimeExactly(h, c, OneDay);
    StageInTimeExactly(h, c, ThreeDays);
    if AllTimely(h, c, OneDay) && AllTimely(h, c, ThreeDays) {
      TimelyIsInOrder(h, c);
      forall stage ensures Told(h, stage, c, |h.events|) == 1 && ToldInTime(h, c, stage) {
        match stage
        case OneDay =>
        case ThreeDays =>
      }
    }
  }

  // ---- one date, more than one cycle ---------------------------------------

  /** The reconciler writes a date over itself to mend an account, and that clears the
      marker: the same notice goes out again, for the same date and in its window. */
  lemma ClearTellsAgain(row: Subscription, now: Time, stage: Stage) returns (h: History)
    requires Expiring(row, now, stage) && row.stage != Some(stage) && !ShortTrial(row, stage)
    ensures h.first == row && |h.events| == 3 && h.events[0] == Turn(stage, now, 0, 0)
    ensures h.events[1] == Write(ExtendTo(RowAt(h, 1), RowAt(h, 1).expires)) && h.events[2] == Turn(stage, now, 2, 2)
    ensures WellFormed(h) && DateHolds(h, 0, 3) && InTime(h, stage, 0) && InTime(h, stage, 2)
  {
    var told := row.(stage := Some(stage));
    var mended := ExtendTo(told, told.expires);
    h := History(row, [Turn(stage, now, 0, 0), Write(mended), Turn(stage, now, 2, 2)]);
    assert RowAt(h, 0) == row && RowAt(h, 1) == told && RowAt(h, 2) == mended;
    assert RowAt(h, 3) == mended.(stage := Some(stage));
    ExpiringIsNear(row, now, stage);
  }

  lemma {:induction false} NothingSince(h: History, m: nat, n: nat)
    requires WellFormed(h) && m <= n <= |h.events| && RowAt(h, m).stage.None?
    requires forall k | m <= k < n :: !Claims(h, k)
    ensures RowAt(h, n).stage.None?
    decreases n
  {
    hide RowAt, Claims;
    if m < n {
      NothingSince(h, m, n - 1);
      RowAfter(h, n - 1);
    }
  }

  lemma ClearedIsEmpty(h: History, m: nat)
    requires WellFormed(h) && m < |h.events| && Clears(h, m)
    ensures RowAt(h, m + 1).stage.None?
  {
    hide Claims;
    RowAfter(h, m);
  }

  /** A turn in the window of an active row that is long enough for the stage. */
  ghost predicate TurnArrives(h: History, stage: Stage, j: nat, k: nat)
    requires j < |h.events| && k < |h.events|
  {
    match h.events[k]
    case Write(_) => false
    case Turn(s, at, listed, copied) =>
      && s == stage && j < copied <= listed <= k && RowAt(h, listed).status.Active?
      && Near(RowAt(h, j), at, stage) && !ShortTrial(RowAt(h, j), stage)
  }

  /** Exactly when one date is told a stage again: a notice went out in time, a later
      turn reaches the row in the same window, and the date stands. Then the notice
      goes out again if and only if somebody cleared the marker, without giving a new
      date, before the later pass had loaded the row. */
  lemma DateIsToldAgainExactly(h: History, stage: Stage, j: nat, k: nat)
    requires WellFormed(h) && j < k < |h.events| && DateHolds(h, j, k)
    requires InTime(h, stage, j) && TurnArrives(h, stage, j, k)
    ensures (exists i :: j < i <= k && Tells(h, stage, i)) <==> exists m :: j < m < h.events[k].copied && Clears(h, m)
  {
    hide RowAt, Claims, ShortTrial, Near, Clears, DateHolds;
    if i :| j < i <= k && Tells(h, stage, i) {
      ToldAgainMeansCleared(h, stage, j, k, i);
    }
    if m :| j < m < h.events[k].copied && Clears(h, m) {
      ClearedMeansToldAgain(h, stage, j, k, m);
    }
  }

  lemma ToldAgainMeansCleared(h: History, stage: Stage, j: nat, k: nat, i: nat)
    requires WellFormed(h) && j < i <= k < |h.events| && DateHolds(h, j, k)
    requires InTime(h, stage, j) && TurnArrives(h, stage, j, k) && Tells(h, stage, i)
    ensures exists m :: j < m < h.events[k].copied && Clears(h, m)
  {
    ClaimFindsAnother(h, i);
    ClaimFindsAnother(h, j);
    if i == k {
      ClaimsWhen(h, k);
    }
    hide RowAt, Claims, ShortTrial, Near, Clears, DateHolds;
    TurnsFollow(h, i, k);
    var n := if i == k then h.events[k].copied else i;
    if forall m | j < m < n :: !Clears(h, m) {
      var m := MarkerSince(h, j, n);
      if m != j {
        OtherIsApart(h, stage, j, m, k);
      }
      assert false;
    }
  }

  lemma ClearedMeansToldAgain(h: History, stage: Stage, j: nat, k: nat, m: nat)
    requires WellFormed(h) && j < k < |h.events| && DateHolds(h, j, k)
    requires InTime(h, stage, j) && TurnArrives(h, stage, j, k) && j < m < h.events[k].copied && Clears(h, m)
    ensures exists i :: j < i <= k && Tells(h, stage, i)
  {
    hide RowAt, Claims, ShortTrial, Near, Clears, DateHolds, Expiring;
    if forall i | j < i <= k :: !Tells(h, stage, i) {
      ClaimFindsAnother(h, j);
      forall i | j < i < k && !Tells(h, stage, i) ensures !Claims(h, i) {
        if Claims(h, i) {
          OtherIsApart(h, stage, j, i, k);
        }
      }
      ClearedIsEmpty(h, m);
      NothingSince(h, m + 1, h.events[k].copied);
      NothingSince(h, m + 1, k);
      ReachingTells(h, stage, j, k);
      assert false;
    }
  }

  lemma ReachingTells(h: History, stage: Stage, j: nat, k: nat)
    requires WellFormed(h) && j < k < |h.events| && DateHolds(h, j, k) && TurnArrives(h, stage, j, k)
    requires RowAt(h, h.events[k].copied).stage != Some(stage) && RowAt(h, k).stage != Some(stage)
    ensures Tells(h, stage, k)
  {
    hide RowAt, Claims, Expiring, Near, ShortTrial;
    var Turn(_, at, listed, copied) := h.events[k];
    ClaimsWhen(h, k);
    SameDate(RowAt(h, j), RowAt(h, listed), at, stage);
    ExpiringIsNear(RowAt(h, listed), at, stage);
    DatesGrow(h, j, copied);
    if ShortTrial(RowAt(h, copied), stage) {
      ShortStaysShort(RowAt(h, j), RowAt(h, copied), stage);
    }
  }

  /** So no date is told a stage twice in time unless it was cleared in between. */
  lemma NoDateIsToldTwice(h: History, stage: Stage, j: nat, k: nat)
    requires WellFormed(h) && j < k < |h.events| && DateHolds(h, j, k)
    requires InTime(h, stage, j) && InTime(h, stage, k)
    ensures exists m :: j < m < h.events[k].copied && Clears(h, m)
  {
    hide DateHolds, Clears;
    ClaimReaches(h, stage, j, k);
    ToldAgainMeansCleared(h, stage, j, k, k);
  }

  lemma SameDate(row: Subscription, row': Subscription, at: Time, stage: Stage)
    requires row.expires == row'.expires && Near(row, at, stage)
    ensures Near(row', at, stage)
  {
  }

  lemma ClaimReaches(h: History, stage: Stage, j: nat, k: nat)
    requires WellFormed(h) && j < k < |h.events| && DateHolds(h, j, k)
    requires InTime(h, stage, j) && InTime(h, stage, k)
    ensures TurnArrives(h, stage, j, k)
  {
    hide RowAt, Claims, Near, ShortTrial;
    ClaimFindsAnother(h, j);
    ClaimIsListed(h, k);
    TurnsFollow(h, j, k);
    var copied := h.events[k].copied;
    DatesGrow(h, j, copied);
    SameDate(RowAt(h, k), RowAt(h, j), h.events[k].at, stage);
    if ShortTrial(RowAt(h, j), stage) {
      ShortStaysShort(RowAt(h, copied), RowAt(h, j), stage);
    }
  }

  // ---- paced passes --------------------------------------------------------

  lemma {:induction false} FirstNear(row: Subscription, moments: seq<Time>, stage: Stage, n: nat) returns (k: nat)
    requires n < |moments| && forall i | 0 < i < |moments| :: moments[i] <= moments[i - 1] + DAY
    requires moments[0] <= row.expires - Days(stage) * DAY < moments[n]
    ensures k < |moments| && Near(row, moments[k], stage)
  {
    if row.expires - Days(stage) * DAY < moments[n - 1] {
      k := FirstNear(row, moments, stage, n - 1);
    } else {
      k := n;
    }
  }

  /** Every pass in the stage's window lists the active row and reaches it, both
      after the cycle began. */
  ghost predicate PassesReach(h: History, c: nat, stage: Stage, moments: seq<Time>)
    requires c <= |h.events|
  {
    forall i | 0 <= i < |moments| && Near(RowAt(h, c), moments[i], stage) ::
      exists k :: c <= k < |h.events| && h.events[k].Turn? && h.events[k].at == moments[i] && Covers(h, c, stage, k)
  }

  /** Passes at most a day apart, from before the window until after it, find the row
      in its window. A trial too short for the stage is never told; otherwise a notice
      is counted, exactly once if the first one-day notice was final; and it is the
      cycle's own, in its window and alone, if and only if every claim of the stage
      found the row still in the window. */
  lemma EveryStageIsToldOnce(h: History, c: nat, stage: Stage, moments: seq<Time>)
    requires Cycle(h, c) && moments != [] && PassesReach(h, c, stage, moments)
    requires forall i | 0 < i < |moments| :: moments[i] <= moments[i - 1] + DAY
    requires moments[0] <= RowAt(h, c).expires - Days(stage) * DAY < moments[|moments| - 1]
    ensures ShortTrial(RowAt(h, c), stage) ==> Told(h, stage, c, |h.events|) == 0
    ensures !ShortTrial(RowAt(h, c), stage) ==> Told(h, stage, c, |h.events|) >= 1
    ensures !ShortTrial(RowAt(h, c), stage) && FirstIsFinal(h, c) ==> Told(h, stage, c, |h.events|) == 1
    ensures !ShortTrial(RowAt(h, c), stage) ==>
              (Told(h, stage, c, |h.events|) == 1 && ToldInTime(h, c, stage) <==> AllTimely(h, c, stage))
  {
    hide RowAt, Claims, ShortTrial, FirstIsFinal, Told;
    if ShortTrial(RowAt(h, c), stage) {
      ShortTrialIsNeverTold(h, c, stage, |h.events|);
    } else {
      var i := FirstNear(RowAt(h, c), moments, stage, |moments| - 1);
      CoveredIsTold(h, c, stage);
      StageInTimeExactly(h, c, stage);
      if FirstIsFinal(h, c) {
        EachStageOnceAndInOrder(h, c);
      }
    }
  }
}
