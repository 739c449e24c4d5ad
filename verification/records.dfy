/** Keeping the history of a row while it is being made. */
module Records {
  import opened Model
  import opened Reminders

  ghost predicate TurnsUpTo(h: History, now: Time, listed: nat) {
    forall k | 0 <= k < |h.events| && h.events[k].Turn? :: h.events[k].at <= now && k < listed
  }

  /** The session's objects, and after how many events each was loaded. */
  ghost predicate Loaded(h: History, copy: Subscription, copied: nat) {
    && copied <= |h.events| && copy == RowAt(h, copied)
    && forall k | copied <= k < |h.events| :: !Claims(h, k)
  }

  ghost predicate IsRecord(h: History, row: Subscription, now: Time) {
    WellFormed(h) && RowAt(h, |h.events|) == row && TurnsUpTo(h, now, |h.events|)
  }

  lemma WriteIsRecorded(h: History, row: Subscription, now: Time, row': Subscription)
    requires IsRecord(h, row, now) && Follows(row, row')
    ensures IsRecord(Then(h, [Write(row')]), row', now)
  {
    hide RowAt, Claims;
    WriteKeepsForm(h, row');
  }

  lemma TurnIsRecorded(h: History, row: Subscription, now: Time, stage: Stage, listed: nat, copy: Subscription,
                       copied: nat)
    requires IsRecord(h, row, now) && TurnsUpTo(h, now, listed) && copied <= listed <= |h.events|
    requires Loaded(h, copy, copied) && Expiring(RowAt(h, listed), now, stage)
    ensures var h' := Then(h, [Turn(stage, now, listed, copied)]);
            var claimed := copy.stage != Some(stage) && !ShortTrial(copy, stage) && row.stage != Some(stage);
            && (Claims(h', |h.events|) <==> claimed)
            && RowAt(h', |h'.events|) == (if claimed then row.(stage := Some(stage)) else row)
            && IsRecord(h', RowAt(h', |h'.events|), now)
  {
    hide RowAt, Claims, Expiring, ShortTrial;
    var e := Turn(stage, now, listed, copied);
    TurnKeepsForm(h, stage, now, listed, copied);
    PrefixIsKept(h, [e], |h.events|);
    PrefixIsKept(h, [e], listed);
    PrefixIsKept(h, [e], copied);
    ClaimsWhen(Then(h, [e]), |h.events|);
    RowAfter(Then(h, [e]), |h.events|);
  }

  /** Nothing but other writers' commits was added. */
  ghost predicate OnlyWrites(h: History, h': History) {
    && h'.first == h.first && h.events <= h'.events
    && forall k | |h.events| <= k < |h'.events| :: h'.events[k].Write?
  }

  lemma StaysLoaded(h: History, h': History, copy: Subscription, copied: nat)
    requires Loaded(h, copy, copied) && OnlyWrites(h, h')
    ensures Loaded(h', copy, copied)
  {
    hide RowAt, Claims;
    var more := h'.events[|h.events|..];
    assert h' == Then(h, more);
    PrefixIsKept(h, more, copied);
    forall k | copied <= k < |h'.events| ensures !Claims(h', k) {
      if k < |h.events| {
        PrefixIsKept(h, more, k);
      } else {
        RowAfter(h', k);
      }
    }
  }

  lemma NewRowIsRecorded(row: Subscription, now: Time)
    ensures IsRecord(History(row, []), row, now)
  {
  }

  /** After its turn the copy is either fresh or was not claimed. */
  lemma TurnReloads(h: History, stage: Stage, now: Time, listed: nat, copy: Subscription, copied: nat)
    requires Loaded(h, copy, copied)
    ensures var h' := Then(h, [Turn(stage, now, listed, copied)]);
            if Claims(h', |h.events|) then Loaded(h', RowAt(h', |h'.events|), |h'.events|) else Loaded(h', copy, copied)
  {
    hide RowAt, Claims;
    var e := Turn(stage, now, listed, copied);
    PrefixIsKept(h, [e], copied);
    forall k | copied <= k < |h.events| ensures !Claims(Then(h, [e]), k) {
      PrefixIsKept(h, [e], k);
    }
  }
}
