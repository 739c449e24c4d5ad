/** Expiry reminders: one notice three days out, one a day out. A pass lists the
    rows once; each is then claimed and committed on its own, while others write. */
module Reminders {
  import opened Model

  // ---- the history of one row ----------------------------------------------

  /** Somebody else's commit, or the row's turn in a reminder pass that began at
      `at`: after how many events the pass listed the row, and after how many its
      session had loaded the object that the loop looks at. */
  datatype Event =
    | Write(row: Subscription)
    | Turn(stage: Stage, at: Time, listed: nat, copied: nat)

  datatype History = History(first: Subscription, events: seq<Event>)

  function Then(h: History, more: seq<Event>): History {
    History(h.first, h.events + more)
  }

  /** The committed row after `n` events. */
  function RowAt(h: History, n: nat): Subscription
    requires n <= |h.events|
    decreases n, 0
  {
    if n == 0 then h.first
    else
      match h.events[n - 1]
      case Write(row) => row
      case Turn(stage, _, _, _) => if Claims(h, n - 1) then RowAt(h, n - 1).(stage := Some(stage)) else RowAt(h, n - 1)
  }

  /** The turn sends its notice: the row was in the listing, the copy did not speak
      against it, and mark_notified found another marker. Nothing looks at the date
      or the status of the row as it is now. */
  predicate Claims(h: History, k: nat)
    requires k < |h.events|
    decreases k, 1
  {
    match h.events[k]
    case Write(_) => false
    case Turn(stage, at, listed, copied) =>
      && listed <= k && copied <= k
      && Expiring(RowAt(h, listed), at, stage)
      && RowAt(h, copied).stage != Some(stage) && !ShortTrial(RowAt(h, copied), stage)
      && RowAt(h, k).stage != Some(stage)
  }

  /** One event, unfolded. */
  lemma RowAfter(h: History, k: nat)
    requires k < |h.events|
    ensures h.events[k].Write? ==> RowAt(h, k + 1) == h.events[k].row && !Claims(h, k)
    ensures Claims(h, k) ==> RowAt(h, k + 1) == RowAt(h, k).(stage := Some(h.events[k].stage))
    ensures h.events[k].Turn? && !Claims(h, k) ==> RowAt(h, k + 1) == RowAt(h, k)
  {
  }

  lemma ClaimsWhen(h: History, k: nat)
    requires k < |h.events| && h.events[k].Turn? && h.events[k].listed <= k && h.events[k].copied <= k
    ensures var Turn(stage, at, listed, copied) := h.events[k];
            Claims(h, k) <==>
              && Expiring(RowAt(h, listed), at, stage)
              && RowAt(h, copied).stage != Some(stage) && !ShortTrial(RowAt(h, copied), stage)
              && RowAt(h, k).stage != Some(stage)
  {
  }

  /** What the other writers do to a row: a new date always clears the marker. */
  predicate Follows(row: Subscription, row': Subscription) {
    && row'.origin == row.origin && row'.created == row.created && row'.panelId == row.panelId
    && row'.expires >= row.expires
    && (row'.stage.None? || (row'.stage == row.stage && row'.expires == row.expires))
  }

  /** One pass at a time: each listing comes after the turn before it, and a session
      that has claimed a row has reloaded it. */
  ghost predicate WellFormed(h: History) {
    && (forall k | 0 <= k < |h.events| && h.events[k].Write? :: Follows(RowAt(h, k), h.events[k].row))
    && (forall k | 0 <= k < |h.events| && h.events[k].Turn? :: h.events[k].copied <= h.events[k].listed <= k)
    && (forall j, k | 0 <= j < k < |h.events| && h.events[j].Turn? && h.events[k].Turn? ::
          h.events[j].at <= h.events[k].at && j < h.events[k].listed && (Claims(h, j) ==> j < h.events[k].copied))
  }

  lemma {:induction false} PrefixIsKept(h: History, more: seq<Event>, n: nat)
    requires n <= |h.events|
    ensures RowAt(Then(h, more), n) == RowAt(h, n)
    ensures n < |h.events| ==> (Claims(Then(h, more), n) <==> Claims(h, n))
    decreases n
  {
    if n > 0 {
      PrefixIsKept(h, more, n - 1);
    }
    if n < |h.events| && h.events[n].Turn? {
      var Turn(_, _, listed, copied) := h.events[n];
      if listed < n {
        PrefixIsKept(h, more, listed);
      }
      if copied < n {
        PrefixIsKept(h, more, copied);
      }
    }
  }

  /** Dates only grow, and nothing else that the loop looks at ever changes. */
  lemma {:induction false} DatesGrow(h: History, m: nat, n: nat)
    requires WellFormed(h) && m <= n <= |h.events|
    ensures RowAt(h, m).expires <= RowAt(h, n).expires
    ensures RowAt(h, m).origin == RowAt(h, n).origin && RowAt(h, m).created == RowAt(h, n).created
    decreases n
  {
    hide RowAt, Claims;
    if m < n {
      DatesGrow(h, m, n - 1);
      RowAfter(h, n - 1);
    }
  }

  // ---- one cycle -----------------------------------------------------------

  /** A commit that starts the reminder cycle over. */
  predicate Clears(h: History, k: nat)
    requires k < |h.events|
  {
    h.events[k].Write? && !(h.events[k].row.stage == RowAt(h, k).stage
                            && h.events[k].row.expires == RowAt(h, k).expires)
  }

  /** From `c` on the history is one cycle. */
  ghost predicate Cycle(h: History, c: nat) {
    && WellFormed(h) && c <= |h.events| && RowAt(h, c).stage.None?
    && forall k | c <= k < |h.events| :: !Clears(h, k)
  }

  /** A commit that clears nothing leaves marker and date alone. */
  lemma OthersKeep(h: History, k: nat)
    requires WellFormed(h) && k < |h.events| && h.events[k].Write? && !Clears(h, k)
    ensures RowAt(h, k + 1).stage == RowAt(h, k).stage && RowAt(h, k + 1).expires == RowAt(h, k).expires
    ensures RowAt(h, k + 1).origin == RowAt(h, k).origin && RowAt(h, k + 1).created == RowAt(h, k).created
  {
    hide RowAt, Claims;
    RowAfter(h, k);
  }

  lemma {:induction false} DateStands(h: History, c: nat, n: nat)
    requires Cycle(h, c) && c <= n <= |h.events|
    ensures RowAt(h, n).expires == RowAt(h, c).expires
    ensures RowAt(h, n).origin == RowAt(h, c).origin && RowAt(h, n).created == RowAt(h, c).created
    decreases n
  {
    hide RowAt, Claims;
    if c < n {
      DateStands(h, c, n - 1);
      RowAfter(h, n - 1);
      if h.events[n - 1].Write? {
        assert !Clears(h, n - 1);
        OthersKeep(h, n - 1);
      }
    }
  }

  predicate Tells(h: History, stage: Stage, k: nat)
    requires k < |h.events|
  {
    Claims(h, k) && h.events[k].stage == stage
  }

  /** Notices of a stage sent in the cycle before event `n`. */
  function Told(h: History, stage: Stage, c: nat, n: nat): nat
    requires c <= n <= |h.events|
    decreases n
  {
    if n == c then 0 else Told(h, stage, c, n - 1) + if Tells(h, stage, n - 1) then 1 else 0
  }

  /** Each notice at most once, and the far one first. */
  ghost predicate InOrder(h: History, c: nat)
    requires c <= |h.events|
  {
    && (forall stage :: Told(h, stage, c, |h.events|) <= 1)
    && forall i, j | c <= i < |h.events| && c <= j < |h.events| && Tells(h, ThreeDays, i)
       && Tells(h, OneDay, j) :: i < j
  }

  /** The moments at which a stage's window contains the expiry. */
  predicate Near(row: Subscription, at: Time, stage: Stage) {
    row.expires - Days(stage) * DAY < at <= row.expires - Days(stage) * DAY + DAY
  }

  lemma ExpiringIsNear(row: Subscription, at: Time, stage: Stage)
    ensures Expiring(row, at, stage) <==> row.status.Active? && Near(row, at, stage)
  {
  }

  /** The listing by the clock: rows that run out within a day, or on the third day. */
  lemma StageWindows(row: Subscription, now: Time)
    ensures Expiring(row, now, OneDay) <==> row.status.Active? && now <= row.expires < now + DAY
    ensures Expiring(row, now, ThreeDays) <==> row.status.Active? && now + 2 * DAY <= row.expires < now + 3 * DAY
  {
  }

  /** Whole days only: a trial is too short for a stage if it lasts less than one day
      more than the notice is early. */
  lemma ShortTrialsExactly(row: Subscription)
    ensures ShortTrial(row, OneDay) <==> row.origin.Trial? && row.expires - row.created < 2 * DAY
    ensures ShortTrial(row, ThreeDays) <==> row.origin.Trial? && row.expires - row.created < 4 * DAY
  {
  }

  /** A notice of a row listed in this cycle comes when it should. */
  lemma FreshNoticeIsNear(h: History, c: nat, k: nat)
    requires Cycle(h, c) && c <= k < |h.events| && Claims(h, k) && c <= h.events[k].listed
    ensures Near(RowAt(h, k), h.events[k].at, h.events[k].stage)
  {
    DateStands(h, c, h.events[k].listed);
    DateStands(h, c, k);
    ExpiringIsNear(RowAt(h, h.events[k].listed), h.events[k].at, h.events[k].stage);
  }

  /** The marker is the last notice of the cycle. */
  lemma {:induction false} MarkerIsLastNotice(h: History, c: nat, n: nat) returns (k: nat)
    requires Cycle(h, c) && c <= n <= |h.events| && RowAt(h, n).stage.Some?
    ensures c <= k < n && Tells(h, RowAt(h, n).stage.value, k)
    ensures forall j | k < j < n :: !Claims(h, j)
    decreases n
  {
    hide RowAt, Claims;
    assert n > c;
    RowAfter(h, n - 1);
    if Claims(h, n - 1) {
      k := n - 1;
    } else {
      if h.events[n - 1].Write? {
        assert !Clears(h, n - 1);
        OthersKeep(h, n - 1);
      }
      k := MarkerIsLastNotice(h, c, n - 1);
    }
  }

  /** No pass that begins at `at` or later can find the row three days out. */
  predicate Final(row: Subscription, at: Time) {
    row.expires < at + 2 * DAY || ShortTrial(row, ThreeDays)
  }

  lemma ShortStaysShort(row: Subscription, row': Subscription, stage: Stage)
    requires row.expires <= row'.expires && row.origin == row'.origin && row.created == row'.created
    requires ShortTrial(row', stage)
    ensures ShortTrial(row, stage)
  {
  }

  /** After a final one-day notice the cycle sends nothing. */
  lemma NothingAfterFinal(h: History, c: nat, j: nat, k: nat)
    requires Cycle(h, c) && c <= j < k < |h.events|
    requires Tells(h, OneDay, j) && Final(RowAt(h, j), h.events[j].at)
    ensures !Tells(h, ThreeDays, k)
  {
    if Tells(h, ThreeDays, k) {
      var Turn(_, at, listed, copied) := h.events[k];
      DateStands(h, c, j);
      DateStands(h, c, listed);
      DatesGrow(h, copied, listed);
      if ShortTrial(RowAt(h, j), ThreeDays) {
        ShortStaysShort(RowAt(h, copied), RowAt(h, j), ThreeDays);
      }
    }
  }

  /** The first one-day notice of the cycle, if any, is final. */
  ghost predicate FirstIsFinal(h: History, c: nat) {
    forall j | c <= j < |h.events| && Tells(h, OneDay, j)
           && Told(h, OneDay, c, j) == 0 :: Final(RowAt(h, j), h.events[j].at)
  }

  /** The marker is an exact record: it says one day exactly if that notice went
      out, and then nothing follows. */
  ghost predicate MarkerIsTrue(h: History, c: nat, n: nat)
    requires c <= n <= |h.events|
  {
    match RowAt(h, n).stage
    case None => Told(h, OneDay, c, n) == 0 && Told(h, ThreeDays, c, n) == 0
    case Some(ThreeDays) => Told(h, OneDay, c, n) == 0 && Told(h, ThreeDays, c, n) == 1
    case Some(OneDay) =>
      && Told(h, OneDay, c, n) == 1 && Told(h, ThreeDays, c, n) <= 1
      && exists j :: c <= j < n && Tells(h, OneDay, j) && Told(h, OneDay, c, j) == 0
  }

  lemma {:induction false} MarkerTellsTheTruth(h: History, c: nat, n: nat)
    requires Cycle(h, c) && FirstIsFinal(h, c) && c <= n <= |h.events|
    ensures MarkerIsTrue(h, c, n)
    decreases n
  {
    hide RowAt, Claims;
    if n > c {
      MarkerTellsTheTruth(h, c, n - 1);
      RowAfter(h, n - 1);
      if Claims(h, n - 1) {
        NoticeKeepsTrue(h, c, n - 1);
      } else if h.events[n - 1].Write? {
        assert !Clears(h, n - 1);
        OthersKeep(h, n - 1);
      }
    }
  }

  function Other(stage: Stage): Stage {
    if stage.OneDay? then ThreeDays else OneDay
  }

  /** One notice, on the marker and in the count. */
  lemma NoticeCounts(h: History, c: nat, k: nat)
    requires c <= k < |h.events| && Claims(h, k)
    ensures var stage := h.events[k].stage;
            && Tells(h, stage, k) && RowAt(h, k).stage != Some(stage) && RowAt(h, k + 1).stage == Some(stage)
            && Told(h, stage, c, k + 1) == Told(h, stage, c, k) + 1
            && Told(h, Other(stage), c, k + 1) == Told(h, Other(stage), c, k)
  {
  }

  lemma NoticeKeepsTrue(h: History, c: nat, k: nat)
    requires Cycle(h, c) && FirstIsFinal(h, c) && c <= k < |h.events| && MarkerIsTrue(h, c, k) && Claims(h, k)
    ensures MarkerIsTrue(h, c, k + 1)
  {
    hide RowAt, Claims, Tells, Told, Cycle;
    NoticeCounts(h, c, k);
    if RowAt(h, k).stage == Some(OneDay) {
      var j :| c <= j < k && Tells(h, OneDay, j) && Told(h, OneDay, c, j) == 0;
      NothingAfterFinal(h, c, j, k);
    }
  }

  /** A cycle tells each stage at most once, three days before one day, if its first
      one-day notice came when three days were no longer ahead. */
  lemma EachStageOnceAndInOrder(h: History, c: nat)
    requires Cycle(h, c) && FirstIsFinal(h, c)
    ensures InOrder(h, c)
  {
    MarkerTellsTheTruth(h, c, |h.events|);
    forall stage ensures Told(h, stage, c, |h.events|) <= 1 {
      match stage
      case OneDay =>
      case ThreeDays =>
    }
    forall i, j | c <= i < |h.events| && c <= j < |h.events| && Tells(h, ThreeDays, i) && Tells(h, OneDay, j)
      ensures i < j
    {
      MarkerTellsTheTruth(h, c, j);
      assert Told(h, OneDay, c, j) == 0 by {
        ToldCounts(h, c, j, |h.events|);
      }
      if j < i {
        NothingAfterFinal(h, c, j, i);
      }
    }
  }

  /** In particular if nothing cleared the row between a listing and its claim. */
  lemma UndisturbedCycleIsInOrder(h: History, c: nat)
    requires Cycle(h, c) && forall k | c <= k < |h.events| && Claims(h, k) :: c <= h.events[k].listed
    ensures InOrder(h, c)
  {
    forall j | c <= j < |h.events| && Tells(h, OneDay, j) ensures Final(RowAt(h, j), h.events[j].at) {
      FreshNoticeIsNear(h, c, j);
    }
    EachStageOnceAndInOrder(h, c);
  }

  /** The cycle goes on, with passes that begin after what has happened so far. */
  ghost predicate Continues(h: History, c: nat, more: seq<Event>) {
    && Cycle(Then(h, more), c)
    && forall k | 0 <= k < |more| && more[k].Turn? :: |h.events| <= more[k].listed
  }

  lemma {:induction false} ToldIsKept(h: History, more: seq<Event>, stage: Stage, c: nat, n: nat)
    requires c <= n <= |h.events|
    ensures Told(Then(h, more), stage, c, n) == Told(h, stage, c, n)
    decreases n
  {
    if n > c {
      ToldIsKept(h, more, stage, c, n - 1);
      PrefixIsKept(h, more, n - 1);
    }
  }

  /** Exactly when a one-day notice is safe: every future of the cycle is in order
      if and only if the row, as it was when the notice was claimed, would no longer
      be found three days out. The claim does not check that. */
  lemma NoticeIsSafeExactly(h: History, c: nat)
    requires Cycle(h, c) && c < |h.events|
    requires Tells(h, OneDay, |h.events| - 1) && Told(h, OneDay, c, |h.events| - 1) == 0
    ensures (forall more | Continues(h, c, more) :: InOrder(Then(h, more), c))
            <==> Final(RowAt(h, |h.events| - 1), h.events[|h.events| - 1].at)
  {
    var j := |h.events| - 1;
    if Final(RowAt(h, j), h.events[j].at) {
      forall more | Continues(h, c, more) ensures InOrder(Then(h, more), c) {
        FinalStaysFinal(h, c, more);
        EachStageOnceAndInOrder(Then(h, more), c);
      }
    } else {
      var more := Spoil(h, c);
    }
  }

  lemma FinalStaysFinal(h: History, c: nat, more: seq<Event>)
    requires c < |h.events| && Continues(h, c, more)
    requires Tells(h, OneDay, |h.events| - 1) && Told(h, OneDay, c, |h.events| - 1) == 0
    requires Final(RowAt(h, |h.events| - 1), h.events[|h.events| - 1].at)
    ensures FirstIsFinal(Then(h, more), c)
  {
    var g, n := Then(h, more), |h.events|;
    forall k | c <= k < |g.events| && Tells(g, OneDay, k) && Told(g, OneDay, c, k) == 0
      ensures Final(RowAt(g, k), g.events[k].at)
    {
      if k < n {
        OldNoticeIsKept(h, c, more, k);
      } else {
        assert g.events[k] == more[k - n];
        FreshNoticeIsNear(g, c, k);
      }
    }
  }

  lemma OldNoticeIsKept(h: History, c: nat, more: seq<Event>, k: nat)
    requires c <= k < |h.events| && Tells(Then(h, more), OneDay, k)
    requires Tells(h, OneDay, |h.events| - 1) && Told(h, OneDay, c, |h.events| - 1) == 0
    ensures k == |h.events| - 1 && RowAt(Then(h, more), k) == RowAt(h, k)
  {
    PrefixIsKept(h, more, k);
    ToldCounts(h, c, k, |h.events| - 1);
  }

  lemma {:induction false} ToldCounts(h: History, c: nat, k: nat, n: nat)
    requires c <= k <= n <= |h.events|
    ensures forall stage :: Told(h, stage, c, k) <= Told(h, stage, c, n)
    ensures forall stage :: k < n && Tells(h, stage, k) ==> Told(h, stage, c, k) < Told(h, stage, c, n)
    decreases n
  {
    if k < n {
      ToldCounts(h, c, k, n - 1);
    }
  }

  /** The three-day window still lies ahead: the next pass in it finds the marker
      gone past it, and tells the stages in the wrong order. */
  lemma Spoil(h: History, c: nat) returns (more: seq<Event>)
    requires Cycle(h, c) && c < |h.events|
    requires Tells(h, OneDay, |h.events| - 1)
    requires !Final(RowAt(h, |h.events| - 1), h.events[|h.events| - 1].at)
    ensures Continues(h, c, more) && !InOrder(Then(h, more), c)
  {
    hide RowAt, Claims, Told, Cycle, InOrder, Continues;
    var n := |h.events|;
    var row := RowAt(h, n).(status := SubscriptionStatus.Active);
    var at := row.expires - 2 * DAY;
    more := [Write(row), Turn(ThreeDays, at, n + 1, n + 1)];
    SpoilMoment(h);
    SpoilGoesOn(h, c, row, at);
    SpoilTells(h, row, at);
    OutOfOrder(Then(h, more), c, n - 1, n + 1);
  }

  lemma SpoilMoment(h: History)
    requires h.events != [] && Tells(h, OneDay, |h.events| - 1)
    requires !Final(RowAt(h, |h.events| - 1), h.events[|h.events| - 1].at)
    ensures var row := RowAt(h, |h.events|).(status := SubscriptionStatus.Active);
            h.events[|h.events| - 1].Turn? && h.events[|h.events| - 1].at <= row.expires - 2 * DAY
              && !ShortTrial(row, ThreeDays)
  {
  }

  lemma OutOfOrder(h: History, c: nat, j: nat, k: nat)
    requires c <= j < k < |h.events| && Tells(h, OneDay, j) && Tells(h, ThreeDays, k)
    ensures !InOrder(h, c)
  {
  }

  lemma SpoilGoesOn(h: History, c: nat, row: Subscription, at: Time)
    requires Cycle(h, c) && c < |h.events| && h.events[|h.events| - 1].Turn? && h.events[|h.events| - 1].at <= at
    requires row == RowAt(h, |h.events|).(status := SubscriptionStatus.Active)
    ensures Continues(h, c, [Write(row), Turn(ThreeDays, at, |h.events| + 1, |h.events| + 1)])
  {
    hide RowAt, Claims, Told;
    var n := |h.events|;
    LastTurnIsLatest(h);
    OneMoreWrite(h, c, row);
    var g := Then(h, [Write(row)]);
    LastTurnStays(h, row, at);
    OneMoreTurn(g, c, ThreeDays, at);
    assert Then(h, [Write(row), Turn(ThreeDays, at, n + 1, n + 1)]) == Then(g, [Turn(ThreeDays, at, n + 1, n + 1)]);
  }

  lemma SpoilTells(h: History, row: Subscription, at: Time)
    requires h.events != [] && Tells(h, OneDay, |h.events| - 1)
             && row == RowAt(h, |h.events|).(status := SubscriptionStatus.Active)
    requires row.expires == at + 2 * DAY && !ShortTrial(row, ThreeDays)
    ensures var g := Then(h, [Write(row), Turn(ThreeDays, at, |h.events| + 1, |h.events| + 1)]);
            Tells(g, ThreeDays, |h.events| + 1) && Tells(g, OneDay, |h.events| - 1)
  {
    var n := |h.events|;
    var more := [Write(row), Turn(ThreeDays, at, n + 1, n + 1)];
    var g := Then(h, more);
    PrefixIsKept(h, more, n - 1);
    PrefixIsKept(h, more, n);
    assert g.events[n] == more[0] && g.events[n + 1] == more[1];
    assert RowAt(g, n + 1) == row && row.stage == Some(OneDay);
  }

  lemma LastTurnStays(h: History, row: Subscription, at: Time)
    requires WellFormed(h) && forall k | 0 <= k < |h.events| && h.events[k].Turn? :: h.events[k].at <= at
    ensures forall k | 0 <= k <= |h.events| && Then(h, [Write(row)]).events[k].Turn? ::
              Then(h, [Write(row)]).events[k].at <= at
  {
  }

  /** A history goes on with another writer's commit ... */
  lemma WriteKeepsForm(h: History, row: Subscription)
    requires WellFormed(h) && Follows(RowAt(h, |h.events|), row)
    ensures WellFormed(Then(h, [Write(row)])) && RowAt(Then(h, [Write(row)]), |h.events| + 1) == row
  {
    hide RowAt, Claims;
    var g := Then(h, [Write(row)]);
    forall k | 0 <= k <= |h.events|
      ensures RowAt(g, k) == RowAt(h, k) && (k < |h.events| ==> Claims(g, k) == Claims(h, k))
    {
      PrefixIsKept(h, [Write(row)], k);
    }
    RowAfter(g, |h.events|);
  }

  /** ... or with a turn, if it was listed after the last one. */
  lemma TurnKeepsForm(h: History, stage: Stage, at: Time, listed: nat, copied: nat)
    requires WellFormed(h) && copied <= listed <= |h.events|
    requires forall k | 0 <= k < |h.events| && h.events[k].Turn? ::
               h.events[k].at <= at && k < listed && (Claims(h, k) ==> k < copied)
    ensures WellFormed(Then(h, [Turn(stage, at, listed, copied)]))
  {
    hide RowAt, Claims;
    var g := Then(h, [Turn(stage, at, listed, copied)]);
    forall k | 0 <= k <= |h.events|
      ensures RowAt(g, k) == RowAt(h, k) && (k < |h.events| ==> Claims(g, k) == Claims(h, k))
    {
      PrefixIsKept(h, [Turn(stage, at, listed, copied)], k);
    }
  }

  lemma OneMoreWrite(h: History, c: nat, row: Subscription)
    requires Cycle(h, c) && Follows(RowAt(h, |h.events|), row)
    requires row.stage == RowAt(h, |h.events|).stage && row.expires == RowAt(h, |h.events|).expires
    ensures Cycle(Then(h, [Write(row)]), c) && RowAt(Then(h, [Write(row)]), |h.events| + 1) == row
  {
    WriteKeepsForm(h, row);
    CycleIsKept(h, c, Write(row));
  }

  lemma OneMoreTurn(h: History, c: nat, stage: Stage, at: Time)
    requires Cycle(h, c) && forall k | 0 <= k < |h.events| && h.events[k].Turn? :: h.events[k].at <= at
    ensures Cycle(Then(h, [Turn(stage, at, |h.events|, |h.events|)]), c)
  {
    TurnKeepsForm(h, stage, at, |h.events|, |h.events|);
    CycleIsKept(h, c, Turn(stage, at, |h.events|, |h.events|));
  }

  lemma CycleIsKept(h: History, c: nat, e: Event)
    requires Cycle(h, c) && WellFormed(Then(h, [e]))
    requires e.Write? ==> e.row.stage == RowAt(h, |h.events|).stage && e.row.expires == RowAt(h, |h.events|).expires
    ensures Cycle(Then(h, [e]), c)
  {
    hide RowAt, Claims;
    var g := Then(h, [e]);
    PrefixIsKept(h, [e], c);
    forall k | c <= k < |g.events| ensures !Clears(g, k) {
      PrefixIsKept(h, [e], k);
      if k < |h.events| {
        assert !Clears(h, k);
      }
    }
  }

  lemma LastTurnIsLatest(h: History)
    requires WellFormed(h) && h.events != [] && h.events[|h.events| - 1].Turn?
    ensures forall k | 0 <= k < |h.events| && h.events[k].Turn? :: h.events[k].at <= h.events[|h.events| - 1].at
  {
  }

  // ---- what a stale claim does ---------------------------------------------

  /** A row listed a day before its end and renewed before its turn: the pass still
      claims the one-day notice, the real three-day notice follows, and the real
      one-day notice goes out a second time in the same cycle. */
  lemma StaleClaimTellsTwice(row: Subscription, now: Time, renewed: Time, tariff: Tariff, newest: bool)
    returns (h: History)
    requires Expiring(row, now, OneDay) && row.stage != Some(OneDay) && !ShortTrial(row, OneDay)
    requires tariff.duration >= 2 * DAY
    ensures h.first == row && |h.events| == 4 && h.events[0] == Write(Renew(row, renewed, tariff, newest))
    ensures h.events[1] == Turn(OneDay, now, 0, 0)
    ensures Cycle(h, 1) && Tells(h, OneDay, 1) && Tells(h, ThreeDays, 2) && Tells(h, OneDay, 3)
    ensures Told(h, OneDay, 1, 4) == 2
  {
    var after := Renew(row, renewed, tariff, newest);
    var e := after.expires;
    h := History(row, [Write(after), Turn(OneDay, now, 0, 0), Turn(ThreeDays, e - 2 * DAY, 2, 2),
                       Turn(OneDay, e, 3, 3)]);
    assert RowAt(h, 0) == row && RowAt(h, 1) == after;
    assert RowAt(h, 2) == after.(stage := Some(OneDay));
    assert RowAt(h, 3) == after.(stage := Some(ThreeDays));
    assert Told(h, OneDay, 1, 2) == 1 && Told(h, OneDay, 1, 3) == 1;
  }

  /** The same with the three-day notice: the stale one goes out, and the real one
      is taken for a repeat. */
  lemma StaleClaimSilencesTheRealOne(row: Subscription, now: Time, renewed: Time, tariff: Tariff, newest: bool)
    returns (h: History)
    requires Expiring(row, now, ThreeDays) && row.stage != Some(ThreeDays) && !ShortTrial(row, ThreeDays)
    ensures h.first == row && |h.events| == 3 && h.events[0] == Write(Renew(row, renewed, tariff, newest))
    ensures h.events[1] == Turn(ThreeDays, now, 0, 0) && h.events[2].Turn?
    ensures Cycle(h, 1) && Tells(h, ThreeDays, 1) && (tariff.duration >= DAY ==> !Near(RowAt(h, 1), now, ThreeDays))
    ensures Near(RowAt(h, 2), h.events[2].at, ThreeDays) && h.events[2].stage == ThreeDays && !Tells(h, ThreeDays, 2)
  {
    var after := Renew(row, renewed, tariff, newest);
    h := History(row, [Write(after), Turn(ThreeDays, now, 0, 0), Turn(ThreeDays, after.expires - 2 * DAY, 2, 2)]);
    assert RowAt(h, 0) == row && RowAt(h, 1) == after;
    assert RowAt(h, 2) == after.(stage := Some(ThreeDays));
  }
}
