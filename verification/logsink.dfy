/** The log channel: first occurrences go out, repeats are counted and reported. */
module LogSink {
  import opened Model
  import opened Sorting

  const MESSAGE_LIMIT: int := 4096
  const DEDUP_WINDOW: Time := 600 * SECOND

  // ---- splitting -----------------------------------------------------------

  datatype Split = Chunks(chunks: seq<string>) | ValueError

  function ChunksOf(text: string, limit: int): seq<string>
    requires limit >= 1
  {
    if |text| <= limit then [text] else [text[..limit]] + ChunksOf(text[limit..], limit)
  }

  function SplitMessage(text: string, limit: int): Split {
    if limit < 1 then ValueError else Chunks(ChunksOf(text, limit))
  }

  function Join(chunks: seq<string>): string {
    if chunks == [] then "" else chunks[0] + Join(chunks[1..])
  }

  /** At least one chunk, none too long, all full but the last, none empty unless
      the text is, and joined they are the text; only a senseless limit fails. */
  lemma {:induction false} SplittingLosesNothing(text: string, limit: int)
    ensures SplitMessage(text, limit).ValueError? <==> limit < 1
    ensures limit >= 1 ==>
              var chunks := SplitMessage(text, limit).chunks;
              && Join(chunks) == text && |chunks| >= 1
              && (forall i | 0 <= i < |chunks| - 1 :: |chunks[i]| == limit)
              && |chunks[|chunks| - 1]| <= limit
              && (chunks[|chunks| - 1] == "" ==> text == "")
    decreases |text|
  {
    if limit >= 1 && |text| > limit {
      SplittingLosesNothing(text[limit..], limit);
      var rest := ChunksOf(text[limit..], limit);
      var chunks := ChunksOf(text, limit);
      assert chunks[1..] == rest && text == text[..limit] + text[limit..];
      forall i | 0 <= i < |chunks| - 1 ensures |chunks[i]| == limit {
        if i > 0 {
          assert chunks[i] == rest[i - 1];
        }
      }
      assert chunks[|chunks| - 1] == rest[|rest| - 1];
    }
  }

  // ---- what makes two records the same error -------------------------------

  datatype Record = Record(level: string, name: string, function_: string, line: int)

  datatype Signature = Raw(start: string) | Site(record: Record)

  function SignatureOf(text: string, record: Option<Record>): Signature {
    if record.Some? then Site(record.value) else Raw(if |text| <= 200 then text else text[..200])
  }

  function Letter(text: string, i: nat): Option<char> {
    if i < |text| then Some(text[i]) else None
  }

  lemma SameStart(a: string, b: string)
    requires |a| <= 200 && |b| <= 200 && forall i: nat | i < 200 :: Letter(a, i) == Letter(b, i)
    ensures a == b
  {
    assert |a| < 200 ==> Letter(a, |a|) == Letter(b, |a|);
    assert |b| < 200 ==> Letter(a, |b|) == Letter(b, |b|);
    forall i: nat | i < |a| ensures a[i] == b[i] {
      assert Letter(a, i) == Letter(b, i);
    }
  }

  /** Two records are the same error exactly if they come from one place at one level,
      or, without a record, if they do not differ in their first 200 characters. */
  lemma SameErrorExactly(text: string, record: Option<Record>, text': string, record': Option<Record>)
    ensures SignatureOf(text, record) == SignatureOf(text', record') <==>
              && (record.Some? <==> record'.Some?)
              && if record.Some? && record'.Some? then
                   var a, b := record.value, record'.value;
                   a.level == b.level && a.name == b.name && a.function_ == b.function_ && a.line == b.line
                 else forall i: nat | i < 200 :: Letter(text, i) == Letter(text', i)
  {
    if record.None? && record'.None? {
      var a, b := SignatureOf(text, None).start, SignatureOf(text', None).start;
      assert forall i: nat | i < 200 :: Letter(text, i) == Letter(a, i) && Letter(text', i) == Letter(b, i);
      if forall i: nat | i < 200 :: Letter(text, i) == Letter(text', i) {
        SameStart(a, b);
      }
    }
  }

  // ---- what went out -------------------------------------------------------

  datatype Event =
    | Full(signature: Signature, at: Time, text: string)
    | Report(signature: Signature, count: nat, sample: string)

  function ReportText(count: nat, sample: string): string {
    "⏱ Повторов подавлено: " + Show(count)
    + " за последние " + Show(DEDUP_WINDOW / SECOND / 60) + " мин:\n\n" + sample
  }

  /** Digits, up to the first character that is none. */
  lemma {:induction false} NumberEnds(m: string, a: string, n: string, b: string)
    requires (forall c | c in m :: c in DIGITS) && (forall c | c in n :: c in DIGITS)
    requires a != "" && b != "" && a[0] !in DIGITS && b[0] !in DIGITS && m + a == n + b
    ensures m == n && a == b
  {
    if m == "" || n == "" {
      assert (m + a)[0] == (n + b)[0];
      assert m == n;
      assert a == m + a && b == n + b;
    } else {
      assert (m + a)[0] == m[0] && (n + b)[0] == n[0];
      assert (m + a)[1..] == m[1..] + a && (n + b)[1..] == n[1..] + b;
      NumberEnds(m[1..], a, n[1..], b);
      assert m == [m[0]] + m[1..] && n == [n[0]] + n[1..];
    }
  }

  lemma {:induction false} ShowNatDigits(n: nat)
    ensures forall c | c in ShowNat(n) :: c in DIGITS
  {
    if n >= 10 {
      ShowNatDigits(n / 10);
    }
  }

  lemma NumberInText(head: string, m: string, tail: string, a: string, n: string, b: string)
    requires (forall c | c in m :: c in DIGITS) && (forall c | c in n :: c in DIGITS)
    requires tail != "" && tail[0] !in DIGITS && head + m + tail + a == head + n + tail + b
    ensures m == n && a == b
  {
    var x, y := m + (tail + a), n + (tail + b);
    assert head + m + tail + a == head + x && head + n + tail + b == head + y;
    assert x == (head + x)[|head|..] && y == (head + y)[|head|..];
    NumberEnds(m, tail + a, n, tail + b);
    assert a == (tail + a)[|tail|..] && b == (tail + b)[|tail|..];
  }

  /** A report says how many there were and what they looked like: no two reports with
      the same text differ in either. */
  lemma ReportsAreReadable(count: nat, sample: string, count': nat, sample': string)
    requires ReportText(count, sample) == ReportText(count', sample')
    ensures count == count' && sample == sample'
  {
    hide Show;
    var head := "⏱ Повторов подавлено: ";
    var tail := " за последние " + Show(DEDUP_WINDOW / SECOND / 60) + " мин:\n\n";
    assert tail[0] == ' ';
    ReportParts(count, sample, head, tail);
    ReportParts(count', sample', head, tail);
    CountIsDigits(count);
    CountIsDigits(count');
    hide ReportText;
    NumberInText(head, Show(count), tail, sample, Show(count'), sample');
    CountsDiffer(count, count');
  }

  lemma ReportParts(count: nat, sample: string, head: string, tail: string)
    requires head == "⏱ Повторов подавлено: "
    requires tail == " за последние " + Show(DEDUP_WINDOW / SECOND / 60) + " мин:\n\n"
    ensures ReportText(count, sample) == head + Show(count) + tail + sample
  {
    hide Show;
  }

  lemma CountIsDigits(count: nat)
    ensures forall c | c in Show(count) :: c in DIGITS
  {
    ShowNatDigits(count);
  }

  lemma CountsDiffer(m: nat, n: nat)
    requires Show(m) == Show(n)
    ensures m == n
  {
    ShowNatInjective(m, n);
  }

  function TextOf(e: Event): string {
    if e.Full? then e.text else ReportText(e.count, e.sample)
  }

  /** Everything handed to Telegram, in order. */
  function Outgoing(history: seq<Event>): seq<string> {
    if history == [] then []
    else Outgoing(history[..|history| - 1]) + ChunksOf(TextOf(history[|history| - 1]), MESSAGE_LIMIT)
  }

  lemma OutgoingGrows(history: seq<Event>, e: Event)
    ensures Outgoing(history + [e]) == Outgoing(history) + ChunksOf(TextOf(e), MESSAGE_LIMIT)
  {
    assert (history + [e])[..|history|] == history;
  }

  function Occurrences(records: seq<Signature>, s: Signature): nat {
    if records == [] then 0
    else Occurrences(records[..|records| - 1], s) + if records[|records| - 1] == s then 1 else 0
  }

  function SentInFull(history: seq<Event>, s: Signature): nat {
    if history == [] then 0
    else
      var e := history[|history| - 1];
      SentInFull(history[..|history| - 1], s) + if e.Full? && e.signature == s then 1 else 0
  }

  function Reported(history: seq<Event>, s: Signature): nat {
    if history == [] then 0
    else
      var e := history[|history| - 1];
      Reported(history[..|history| - 1], s) + if e.Report? && e.signature == s then e.count else 0
  }

  function LastFull(history: seq<Event>, s: Signature): Option<Time> {
    if history == [] then None
    else
      var e := history[|history| - 1];
      if e.Full? && e.signature == s then Some(e.at) else LastFull(history[..|history| - 1], s)
  }

  /** Every full sending of `s` came a whole window after the one before it. */
  predicate Spaced(history: seq<Event>, s: Signature) {
    history == []
    || var before, e := history[..|history| - 1], history[|history| - 1];
       && Spaced(before, s)
       && (e.Full? && e.signature == s && LastFull(before, s).Some? ==>
           e.at - LastFull(before, s).value >= DEDUP_WINDOW)
  }

  lemma {:induction false} LastFullIsLatest(history: seq<Event>, s: Signature, i: nat)
    requires Spaced(history, s) && i < |history| && history[i].Full? && history[i].signature == s
    ensures LastFull(history, s).Some? && history[i].at <= LastFull(history, s).value
  {
    var n := |history| - 1;
    if i < n {
      LastFullIsLatest(history[..n], s, i);
    }
  }

  /** So any two of them, not only neighbours, are a window apart. */
  lemma {:induction false} FullSendsAreApart(history: seq<Event>, s: Signature, i: nat, j: nat)
    requires Spaced(history, s) && i < j < |history|
    requires history[i].Full? && history[i].signature == s && history[j].Full? && history[j].signature == s
    ensures history[j].at - history[i].at >= 600 * SECOND
  {
    var n := |history| - 1;
    if j < n {
      FullSendsAreApart(history[..n], s, i, j);
    } else {
      LastFullIsLatest(history[..n], s, i);
    }
  }

  function Repeats(tally: map<Signature, (nat, string)>, s: Signature): nat {
    if s in tally then tally[s].0 else 0
  }

  /** One signature's books: everything seen was sent, reported or is pending, and
      the moment on file is that of the last full sending. */
  ghost predicate Balanced(records: seq<Signature>, history: seq<Event>, sentAt: map<Signature, Time>,
                           tally: map<Signature, (nat, string)>, clock: Time, s: Signature)
  {
    && Occurrences(records, s) == SentInFull(history, s) + Reported(history, s) + Repeats(tally, s)
    && Spaced(history, s)
    && (if s in sentAt then LastFull(history, s) == Some(sentAt[s]) && sentAt[s] <= clock
        else LastFull(history, s).Some? ==> LastFull(history, s).value + DEDUP_WINDOW <= clock)
    && (s in tally ==> s in sentAt && tally[s].0 > 0)
  }

  lemma ReportBalances(records: seq<Signature>, history: seq<Event>, sentAt: map<Signature, Time>,
                       tally: map<Signature, (nat, string)>, clock: Time, gone: Signature, s: Signature)
    requires Balanced(records, history, sentAt, tally, clock, s)
    requires gone in sentAt && clock - sentAt[gone] >= DEDUP_WINDOW
    ensures var history' := if gone in tally then history + [Report(gone, tally[gone].0, tally[gone].1)] else history;
            Balanced(records, history', sentAt - {gone}, tally - {gone}, clock, s)
  {
    if gone in tally {
      var e := Report(gone, tally[gone].0, tally[gone].1);
      assert (history + [e])[..|history|] == history;
    }
  }

  lemma RepeatBalances(records: seq<Signature>, history: seq<Event>, sentAt: map<Signature, Time>,
                       tally: map<Signature, (nat, string)>, clock: Time, came: Signature, sample: string, s: Signature)
    requires Balanced(records, history, sentAt, tally, clock, s) && came in sentAt
    ensures Balanced(records + [came], history, sentAt, tally[came := (Repeats(tally, came) + 1, sample)], clock, s)
  {
    assert (records + [came])[..|records|] == records;
  }

  lemma FirstBalances(records: seq<Signature>, history: seq<Event>, sentAt: map<Signature, Time>,
                      tally: map<Signature, (nat, string)>, clock: Time, came: Signature, text: string, s: Signature)
    requires Balanced(records, history, sentAt, tally, clock, s) && came !in sentAt
    ensures Balanced(records + [came], history + [Full(came, clock, text)], sentAt[came := clock], tally, clock, s)
  {
    assert (records + [came])[..|records|] == records;
    assert (history + [Full(came, clock, text)])[..|history|] == history;
  }

  lemma TimeBalances(records: seq<Signature>, history: seq<Event>, sentAt: map<Signature, Time>,
                     tally: map<Signature, (nat, string)>, clock: Time, later: Time, s: Signature)
    requires Balanced(records, history, sentAt, tally, clock, s) && clock <= later
    ensures Balanced(records, history, sentAt, tally, later, s)
  {
  }

  // ---- the sink ------------------------------------------------------------

  class TelegramSink {
    var sentAt: map<Signature, Time>
    var tally: map<Signature, (nat, string)>
    /** Chunks handed to Telegram; what it does with them changes nothing here. */
    var outbox: seq<string>
    ghost var clock: Time
    ghost var records: seq<Signature>
    ghost var history: seq<Event>

    constructor (now: Time)
      ensures Valid() && records == [] && history == [] && clock == now
    {
      sentAt, tally, outbox, clock, records, history := map[], map[], [], now, [], [];
    }

    ghost predicate Valid()
      reads this
    {
      && (forall s :: Balanced(records, history, sentAt, tally, clock, s))
      && tally.Keys <= sentAt.Keys && outbox == Outgoing(history)
    }

    /** _send_text: the chunks, in order. */
    method HandOver(text: string)
      modifies this`outbox
      ensures outbox == old(outbox) + ChunksOf(text, MESSAGE_LIMIT)
    {
      var chunks := SplitMessage(text, MESSAGE_LIMIT).chunks;
      var before := outbox;
      for i := 0 to |chunks|
        invariant outbox == before + chunks[..i]
      {
        assert chunks[..i + 1] == chunks[..i] + [chunks[i]];
        outbox := outbox + [chunks[i]];
      }
      assert chunks[..|chunks|] == chunks;
    }

    method SendText(ghost e: Event, text: string)
      requires text == TextOf(e) && outbox == Outgoing(history)
      modifies this`outbox, this`history
      ensures history == old(history) + [e] && outbox == Outgoing(history)
      ensures outbox == old(outbox) + ChunksOf(text, MESSAGE_LIMIT)
    {
      HandOver(text);
      OutgoingGrows(history, e);
      history := history + [e];
    }

    /** Forget one signature whose window has closed, reporting its tally. */
    method Forget(s: Signature)
      requires Valid() && s in sentAt && clock - sentAt[s] >= DEDUP_WINDOW
      modifies this
      ensures Valid() && sentAt == old(sentAt) - {s} && tally == old(tally) - {s}
      ensures clock == old(clock) && records == old(records) && old(outbox) <= outbox
      ensures history ==
              if s in old(tally) then old(history) + [Report(s, old(tally)[s].0, old(tally)[s].1)] else old(history)
    {
      ghost var was, were, said := sentAt, tally, history;
      sentAt := sentAt - {s};
      if s in tally {
        var count, sample := tally[s].0, tally[s].1;
        tally := tally - {s};
        SendText(Report(s, count, sample), ReportText(count, sample));
      } else {
        assert tally - {s} == tally;
      }
      forall t ensures Balanced(records, history, sentAt, tally, clock, t) {
        ReportBalances(records, said, was, were, clock, s, t);
      }
    }

    /** _flush_expired: report every tally whose window has closed. */
    method FlushExpired(now: Time)
      requires Valid() && now == clock
      modifies this
      ensures Valid() && clock == old(clock) && records == old(records)
      ensures sentAt == map s | s in old(sentAt) && clock - old(sentAt)[s] < DEDUP_WINDOW :: old(sentAt)[s]
      ensures tally.Keys == old(tally).Keys * sentAt.Keys && forall s | s in tally :: tally[s] == old(tally)[s]
      ensures old(history) <= history && old(outbox) <= outbox
    {
      var rest := sentAt.Keys;
      while rest != {}
        invariant Valid() && clock == old(clock) && records == old(records) && old(history) <= history
        invariant old(outbox) <= outbox
        invariant rest <= sentAt.Keys <= old(sentAt).Keys
        invariant forall s | s in sentAt ::
                    sentAt[s] == old(sentAt)[s] && (s !in rest ==> clock - sentAt[s] < DEDUP_WINDOW)
        invariant forall s | s in old(sentAt) && s !in sentAt :: clock - old(sentAt)[s] >= DEDUP_WINDOW
        invariant tally.Keys == old(tally).Keys * sentAt.Keys && forall s | s in tally :: tally[s] == old(tally)[s]
        decreases rest
      {
        var s := AnyOf(rest);
        rest := rest - {s};
        if now - sentAt[s] >= DEDUP_WINDOW {
          Forget(s);
        }
      }
    }

    /** One record: sent in full if its signature was quiet for a window, counted
        otherwise. Nothing is lost, and tallies that are due ride along. */
    method Sink(text: string, record: Option<Record>, now: Time)
      requires Valid() && now >= clock
      modifies this
      ensures Valid() && clock == now && records == old(records) + [SignatureOf(text, record)]
      ensures old(history) <= history && forall t | t in sentAt :: now - sentAt[t] < DEDUP_WINDOW
      ensures old(outbox) <= outbox
      ensures var s := SignatureOf(text, record);
              if s in old(sentAt) && now - old(sentAt)[s] < DEDUP_WINDOW then
                && s in sentAt && sentAt[s] == old(sentAt)[s]
                && s in tally
                && tally[s] == if s in old(tally) then (old(tally)[s].0 + 1, old(tally)[s].1) else (1, text)
              else
                && s in sentAt && sentAt[s] == now && s !in tally
                && history != [] && history[|history| - 1] == Full(s, now, text)
                && exists said :: outbox == said + ChunksOf(text, MESSAGE_LIMIT)
    {
      hide Balanced, SignatureOf, ChunksOf, Outgoing;
      var s := SignatureOf(text, record);
      Wait(now);
      FlushExpired(now);
      if s in sentAt {
        Repeat(s, if s in tally then tally[s].1 else text);
      } else {
        First(s, text, now);
      }
    }

    ghost method Wait(now: Time)
      requires Valid() && now >= clock
      modifies this`clock
      ensures Valid() && clock == now
    {
      ghost var was := clock;
      clock := now;
      forall t ensures Balanced(records, history, sentAt, tally, now, t) {
        TimeBalances(records, history, sentAt, tally, was, now, t);
      }
    }

    method Repeat(s: Signature, sample: string)
      requires Valid() && s in sentAt
      modifies this
      ensures Valid() && clock == old(clock) && records == old(records) + [s] && history == old(history)
              && sentAt == old(sentAt) && outbox == old(outbox)
      ensures tally == old(tally)[s := (Repeats(old(tally), s) + 1, sample)]
    {
      ghost var seen, were := records, tally;
      tally := tally[s := (Repeats(tally, s) + 1, sample)];
      records := records + [s];
      forall t ensures Balanced(records, history, sentAt, tally, clock, t) {
        RepeatBalances(seen, history, sentAt, were, clock, s, sample, t);
      }
    }

    method First(s: Signature, text: string, now: Time)
      requires Valid() && now == clock && s !in sentAt
      modifies this
      ensures Valid() && clock == old(clock) && records == old(records) + [s] && tally == old(tally)
      ensures sentAt == old(sentAt)[s := clock] && history == old(history) + [Full(s, clock, text)]
      ensures outbox == old(outbox) + ChunksOf(text, MESSAGE_LIMIT)
    {
      ghost var seen, said, was := records, history, sentAt;
      sentAt := sentAt[s := now];
      records := records + [s];
      SendText(Full(s, now, text), text);
      forall t ensures Balanced(records, history, sentAt, tally, clock, t) {
        FirstBalances(seen, said, was, tally, clock, s, text, t);
      }
    }
  }
}
