/** The atomic ledger the payment protocol is meant to implement: per user, the
    list of durations granted, in the order in which they landed. */
module Ledger {
  import opened Model

  datatype Invoice = Invoice(pay: PayId, tariff: Tariff, created: Time)

  /** `at` is the moment the granting worker read before it took the user's lock. */
  datatype Entry =
    | Bought(invoice: Invoice, at: Time)
    | Tried(at: Time, days: nat)
    | Granted(at: Time, days: nat)
  {
    function Duration(): nat {
      if Bought? then invoice.tariff.duration else days
    }

    function Origin(): Origin {
      match this
      case Bought(_, _) => Purchase
      case Tried(_, _) => Trial
      case Granted(_, _) => AdminGrant
    }
  }

  type Account = seq<Entry>

  /** Days accumulate: each grant starts at the later of its own moment and the
      expiry as it then stands. */
  function Expiry(a: Account): Time
    requires a != []
  {
    var e := a[|a| - 1];
    if |a| == 1 then e.at + e.Duration() else Max(e.at, Expiry(a[..|a| - 1])) + e.Duration()
  }

  function Total(a: Account): nat {
    if a == [] then 0 else Total(a[..|a| - 1]) + a[|a| - 1].Duration()
  }

  /** Time during which the subscription had already run out when it was renewed. */
  function Lapses(a: Account): nat {
    if |a| <= 1 then 0
    else Lapses(a[..|a| - 1]) + Max(0, a[|a| - 1].at - Expiry(a[..|a| - 1]))
  }

  function Latest(a: Account): Time
    requires a != []
  {
    if |a| == 1 then a[0].at else Max(Latest(a[..|a| - 1]), a[|a| - 1].at)
  }

  /** When the newest bought invoice was raised. */
  function TopCreated(a: Account): Option<Time> {
    if a == [] then None
    else
      var e, top := a[|a| - 1], TopCreated(a[..|a| - 1]);
      if e.Bought? && (top.None? || e.invoice.created >= top.value) then Some(e.invoice.created) else top
  }

  function Devices(a: Account): int
    requires a != []
  {
    var e, rest := a[|a| - 1], a[..|a| - 1];
    if e.Bought? && (TopCreated(rest).None? || e.invoice.created >= TopCreated(rest).value) then
      e.invoice.tariff.devices
    else if rest == [] then DEFAULT_MAX_DEVICES
    else Devices(rest)
  }

  // ---- conservation of days ------------------------------------------------

  /** Nothing is lost and nothing is invented: first moment, plus every duration,
      plus the gaps in which the subscription had lapsed. */
  lemma {:induction false} DaysAreConserved(a: Account)
    requires a != []
    ensures Expiry(a) == a[0].at + Total(a) + Lapses(a)
    ensures a[0].at + Total(a) <= Expiry(a) <= Latest(a) + Total(a)
    ensures a[0].at <= Latest(a)
  {
    var init := a[..|a| - 1];
    if init == [] {
      assert Total(init) == 0;
    } else {
      DaysAreConserved(init);
    }
  }

  /** The expiry in closed form: the best starting point over all grants, from
      which that grant and everything after it was served without a gap. */
  lemma {:induction false} ExpiryIsBestStart(a: Account) returns (best: nat)
    requires a != []
    ensures forall i | 0 <= i < |a| :: a[i].at + Total(a[i..]) <= Expiry(a)
    ensures best < |a| && Expiry(a) == a[best].at + Total(a[best..])
  {
    var n := |a| - 1;
    var init := a[..n];
    forall i | 0 <= i <= n ensures Total(a[i..]) == Total(init[i..]) + a[n].Duration() {
      assert a[i..][..n - i] == init[i..];
      assert a[i..][n - i] == a[n];
    }
    if n == 0 {
      best := 0;
    } else {
      best := ExpiryIsBestStart(init);
      if Expiry(init) < a[n].at {
        best := n;
      }
    }
  }

  // ---- order independence --------------------------------------------------

  function Sum(xs: seq<int>): int {
    if xs == [] then 0 else xs[0] + Sum(xs[1..])
  }

  function Durations(a: Account): seq<int> {
    seq(|a|, i requires 0 <= i < |a| => a[i].Duration())
  }

  lemma {:induction false} SumAppend(xs: seq<int>, ys: seq<int>)
    ensures Sum(xs + ys) == Sum(xs) + Sum(ys)
  {
    if xs == [] {
      assert xs + ys == ys;
    } else {
      SumAppend(xs[1..], ys);
      assert (xs + ys)[1..] == xs[1..] + ys;
    }
  }

  lemma SumWithout(ys: seq<int>, k: nat)
    requires k < |ys|
    ensures Sum(ys) == ys[k] + Sum(ys[..k] + ys[k + 1..])
  {
    SumAppend(ys[..k], ys[k + 1..]);
    SumAppend(ys[..k], ys[k..]);
    assert ys == ys[..k] + ys[k..];
  }

  lemma WithoutHead(xs: seq<int>, ys: seq<int>, k: nat)
    requires xs != [] && k < |ys| && ys[k] == xs[0] && multiset(xs) == multiset(ys)
    ensures multiset(xs[1..]) == multiset(ys[..k] + ys[k + 1..])
  {
    var p, q := ys[..k], ys[k + 1..];
    assert ys == p + [ys[k]] + q;
    assert xs == [xs[0]] + xs[1..];
    assert multiset(p + [ys[k]] + q) == multiset(p + q) + multiset{ys[k]};
    assert multiset(xs[1..]) == multiset([xs[0]] + xs[1..]) - multiset{xs[0]};
    assert multiset(p + q) == multiset(p + [ys[k]] + q) - multiset{ys[k]};
  }

  lemma {:induction false} SumIgnoresOrder(xs: seq<int>, ys: seq<int>)
    requires multiset(xs) == multiset(ys)
    ensures Sum(xs) == Sum(ys)
  {
    if xs == [] {
      assert |multiset(xs)| == |ys|;
    } else {
      assert xs[0] in multiset(ys);
      var k :| 0 <= k < |ys| && ys[k] == xs[0];
      WithoutHead(xs, ys, k);
      SumIgnoresOrder(xs[1..], ys[..k] + ys[k + 1..]);
      SumWithout(ys, k);
    }
  }

  lemma {:induction false} TotalIsSum(a: Account)
    ensures Total(a) == Sum(Durations(a))
  {
    if a != [] {
      var n := |a| - 1;
      TotalIsSum(a[..n]);
      assert Durations(a) == Durations(a[..n]) + [a[n].Duration()];
      SumAppend(Durations(a[..n]), [a[n].Duration()]);
    }
  }

  /** Two accounts opened at the same moment with the same durations, applied in
      any order and at any later moments, expire together if neither ever lapsed. */
  lemma ExpiryIgnoresOrder(a: Account, b: Account)
    requires a != [] && b != [] && a[0].at == b[0].at
    requires multiset(Durations(a)) == multiset(Durations(b))
    requires Lapses(a) == 0 && Lapses(b) == 0
    ensures Expiry(a) == Expiry(b)
  {
    DaysAreConserved(a);
    DaysAreConserved(b);
    TotalIsSum(a);
    TotalIsSum(b);
    SumIgnoresOrder(Durations(a), Durations(b));
  }

  /** Exactly when swapping two renewals is harmless: equal durations, or a
      second moment by which neither of the two orders has lapsed. */
  lemma SwapIsHarmlessExactly(a: Account, d1: nat, t1: Time, d2: nat, t2: Time)
    requires a != [] && t1 <= Expiry(a) && t1 <= t2
    ensures Expiry(a + [Granted(t1, d1)] + [Granted(t2, d2)]) == Expiry(a + [Granted(t1, d2)] + [Granted(t2, d1)])
            <==> d1 == d2 || (t2 <= Expiry(a) + d1 && t2 <= Expiry(a) + d2)
  {
    assert (a + [Granted(t1, d1)] + [Granted(t2, d2)])[..|a| + 1] == a + [Granted(t1, d1)];
    assert (a + [Granted(t1, d2)] + [Granted(t2, d1)])[..|a| + 1] == a + [Granted(t1, d2)];
    assert (a + [Granted(t1, d1)])[..|a|] == a == (a + [Granted(t1, d2)])[..|a|];
  }

  /** `k` is the purchase the device count comes from: of the newest invoices,
      the one applied last. */
  ghost predicate Decides(a: Account, k: nat) {
    && k < |a| && a[k].Bought?
    && (forall j | 0 <= j < |a| && a[j].Bought? :: a[j].invoice.created <= a[k].invoice.created)
    && (forall j | k < j < |a| && a[j].Bought? :: a[j].invoice.created < a[k].invoice.created)
  }

  lemma {:induction false} TopIsNewest(a: Account)
    ensures TopCreated(a).None? <==> forall j | 0 <= j < |a| :: !a[j].Bought?
    ensures TopCreated(a).Some? ==>
              && (forall j | 0 <= j < |a| && a[j].Bought? :: a[j].invoice.created <= TopCreated(a).value)
              && (exists j :: 0 <= j < |a| && a[j].Bought? && a[j].invoice.created == TopCreated(a).value)
  {
    if a != [] {
      var n := |a| - 1;
      TopIsNewest(a[..n]);
      if TopCreated(a).Some? {
        if TopCreated(a) == TopCreated(a[..n]) {
          var j :| 0 <= j < n && a[..n][j].Bought? && a[..n][j].invoice.created == TopCreated(a[..n]).value;
          assert a[j].Bought? && a[j].invoice.created == TopCreated(a).value;
        } else {
          assert a[n].Bought? && a[n].invoice.created == TopCreated(a).value;
        }
      }
    }
  }

  lemma {:induction false} DevicesFollowNewest(a: Account) returns (k: nat)
    requires exists j :: 0 <= j < |a| && a[j].Bought?
    ensures Decides(a, k) && Devices(a) == a[k].invoice.tariff.devices
  {
    var n := |a| - 1;
    var init := a[..n];
    TopIsNewest(init);
    if a[n].Bought? && (TopCreated(init).None? || a[n].invoice.created >= TopCreated(init).value) {
      k := n;
      assert forall j | 0 <= j < n && a[j].Bought? :: init[j].Bought? && a[j].invoice.created <= a[n].invoice.created;
    } else {
      var j :| 0 <= j < |a| && a[j].Bought?;
      if j == n {
        var i :| 0 <= i < n && init[i].Bought?;
      } else {
        assert init[j].Bought?;
      }
      k := DevicesFollowNewest(init);
      assert forall i | 0 <= i < n :: init[i] == a[i];
      var t :| 0 <= t < n && init[t].Bought? && init[t].invoice.created == TopCreated(init).value;
    }
  }

  lemma DevicesWithoutPurchase(a: Account)
    requires a != [] && forall j | 0 <= j < |a| :: !a[j].Bought?
    ensures Devices(a) == DEFAULT_MAX_DEVICES
  {
    var init := a[..|a| - 1];
    TopIsNewest(init);
    if init != [] {
      DevicesWithoutPurchase(init);
    }
  }

  /** The invoices an account has been paid for. */
  function Invoices(a: Account): multiset<Invoice> {
    if a == [] then multiset{}
    else Invoices(a[..|a| - 1]) + if a[|a| - 1].Bought? then multiset{a[|a| - 1].invoice} else multiset{}
  }

  lemma {:induction false} InvoicesAppend(a: Account, b: Account)
    ensures Invoices(a + b) == Invoices(a) + Invoices(b)
  {
    if b == [] {
      assert a + b == a;
    } else {
      InvoicesAppend(a, b[..|b| - 1]);
      assert (a + b)[..|a + b| - 1] == a + b[..|b| - 1];
    }
  }

  lemma {:induction false} InvoicesAreBought(a: Account, x: Invoice)
    ensures x in Invoices(a) <==> exists i :: 0 <= i < |a| && a[i].Bought? && a[i].invoice == x
  {
    if a != [] {
      var n := |a| - 1;
      InvoicesAreBought(a[..n], x);
      if x in Invoices(a[..n]) {
        var i :| 0 <= i < n && a[..n][i].Bought? && a[..n][i].invoice == x;
        assert a[i].Bought? && a[i].invoice == x;
      } else if x in Invoices(a) {
        assert a[n].Bought? && a[n].invoice == x;
      }
    }
  }

  ghost predicate Newest(xs: multiset<Invoice>, x: Invoice) {
    x in xs && forall y | y in xs :: y.created <= x.created
  }

  /** No two of the newest invoices disagree about the device count. */
  ghost predicate NewestAgree(xs: multiset<Invoice>) {
    forall x, y | Newest(xs, x) && Newest(xs, y) :: x.tariff.devices == y.tariff.devices
  }

  lemma NewestDecides(a: Account) returns (x: Invoice)
    requires Invoices(a) != multiset{}
    ensures a != [] && Newest(Invoices(a), x) && Devices(a) == x.tariff.devices
  {
    var z :| z in Invoices(a);
    InvoicesAreBought(a, z);
    var k := DevicesFollowNewest(a);
    x := a[k].invoice;
    InvoicesAreBought(a, x);
    forall y | y in Invoices(a) ensures y.created <= x.created {
      InvoicesAreBought(a, y);
    }
  }

  /** The device count ignores the order in which payments were applied, and the
      moments, grants and trials between them ... */
  lemma DevicesIgnoreOrder(a: Account, b: Account)
    requires Invoices(a) == Invoices(b) != multiset{} && NewestAgree(Invoices(a))
    ensures a != [] && b != [] && Devices(a) == Devices(b)
  {
    var x := NewestDecides(a);
    var y := NewestDecides(b);
  }

  /** ... and exactly then: two newest invoices that disagree make the order
      visible, because a tie goes to the payment applied last. */
  lemma OrderMattersExactlyOnTies(a: Account)
    requires Invoices(a) != multiset{}
    ensures a != []
    ensures NewestAgree(Invoices(a)) <==> forall b | b != [] && Invoices(b) == Invoices(a) :: Devices(b) == Devices(a)
  {
    var x := NewestDecides(a);
    if NewestAgree(Invoices(a)) {
      forall b | b != [] && Invoices(b) == Invoices(a) ensures Devices(b) == Devices(a) {
        DevicesIgnoreOrder(a, b);
      }
    } else {
      var y, z :| Newest(Invoices(a), y) && Newest(Invoices(a), z) && y.tariff.devices != z.tariff.devices;
      var b := ApplyLast(a, y);
      var c := ApplyLast(a, z);
    }
  }

  lemma MovingLastKeepsInvoices(p: Account, e: Entry, q: Account)
    ensures Invoices(p + q + [e]) == Invoices(p + ([e] + q))
  {
    InvoicesAppend(p + q, [e]);
    InvoicesAppend(p, q);
    InvoicesAppend(p, [e] + q);
    InvoicesAppend([e], q);
  }

  lemma TopIsBought(a: Account) returns (x: Invoice)
    requires TopCreated(a).Some?
    ensures x in Invoices(a) && x.created == TopCreated(a).value
  {
    TopIsNewest(a);
    var j :| 0 <= j < |a| && a[j].Bought? && a[j].invoice.created == TopCreated(a).value;
    x := a[j].invoice;
    InvoicesAreBought(a, x);
  }

  lemma ApplyLast(a: Account, x: Invoice) returns (b: Account)
    requires Newest(Invoices(a), x)
    ensures b != [] && Invoices(b) == Invoices(a) && Devices(b) == x.tariff.devices
  {
    InvoicesAreBought(a, x);
    var i :| 0 <= i < |a| && a[i].Bought? && a[i].invoice == x;
    var rest := a[..i] + a[i + 1..];
    b := rest + [a[i]];
    MovingLastKeepsInvoices(a[..i], a[i], a[i + 1..]);
    assert a == a[..i] + ([a[i]] + a[i + 1..]);
    assert b[..|b| - 1] == rest;
    if TopCreated(rest).Some? {
      var y := TopIsBought(rest);
      assert y in Invoices(b);
    }
  }

  /** An account that holds no payment twice is a set of invoices. */
  lemma {:induction false} InvoicesAreDistinct(a: Account, x: Invoice)
    requires forall i, j | 0 <= i < j < |a| && a[i].Bought? && a[j].Bought? :: a[i].invoice.pay != a[j].invoice.pay
    ensures Invoices(a)[x] <= 1
  {
    if a != [] {
      var n := |a| - 1;
      InvoicesAreDistinct(a[..n], x);
      InvoicesAreBought(a[..n], x);
    }
  }

  lemma {:induction false} LatestIsBounded(a: Account, bound: Time)
    requires a != [] && forall i | 0 <= i < |a| :: a[i].at <= bound
    ensures Latest(a) <= bound
  {
    if |a| > 1 {
      LatestIsBounded(a[..|a| - 1], bound);
    }
  }
}
