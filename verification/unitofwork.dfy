/** One session, one transaction: private writes that land at commit or vanish. */
module UnitOfWork {
  import opened Model
  import opened Sorting

  class Clock {
    var now: Time

    constructor (start: Time)
      ensures now == start
    {
      now := start;
    }

    method Read() returns (moment: Time)
      modifies this
      ensures moment == now >= old(now)
    {
      var elapsed: int := *;
      if elapsed > 0 {
        now := now + elapsed;
      }
      moment := now;
    }
  }

  /** The session of a job that nobody races: every lock is granted at once, so
      the locking reads are plain reads of `work`. */
  class Session {
    var committed: Db
    var work: Db

    constructor (db: Db)
      ensures committed == work == db
    {
      committed, work := db, db;
    }

    predicate Clean()
      reads this
    {
      committed == work
    }

    method Commit()
      modifies this
      ensures committed == work == old(work)
    {
      committed := work;
    }

    method Rollback()
      modifies this
      ensures committed == work == old(committed)
    {
      work := committed;
    }

    /** One conditional UPDATE of payments: the row is returned when it matched. */
    method UpdatePayment(p: PayId, hit: bool, row: Payment) returns (updated: bool)
      modifies this
      ensures updated == hit && committed == old(committed)
      ensures work == if hit then WithPayment(old(work), p, row) else old(work)
    {
      if hit {
        work := WithPayment(work, p, row);
      }
      updated := hit;
    }

    method AddPayment(p: PayId, row: Payment)
      requires p !in work.payments
      modifies this
      ensures work == WithPayment(old(work), p, row) && committed == old(committed)
    {
      work := WithPayment(work, p, row);
    }

    method MarkPaid(p: PayId, now: Time, target: Time) returns (updated: bool)
      modifies this
      ensures updated <==> p in old(work).payments && old(work).payments[p].status.Pending?
      ensures committed == old(committed)
      ensures work == if updated then
                        WithPayment(old(work), p, old(work).payments[p].(status := Paid, paidAt := Some(now),
                            target := Some(target)))
                      else old(work)
    {
      updated := false;
      if p in work.payments {
        var row := work.payments[p];
        updated := UpdatePayment(p, row.status.Pending?,
                                 row.(status := Paid, paidAt := Some(now), target := Some(target)));
      }
    }

    method MarkDaysApplied(p: PayId, now: Time) returns (updated: bool)
      modifies this
      ensures updated <==> p in old(work).payments && old(work).payments[p].applied.None?
      ensures committed == old(committed)
      ensures work == if updated then WithPayment(old(work), p, old(work).payments[p].(applied := Some(now)))
                      else old(work)
    {
      updated := false;
      if p in work.payments {
        var row := work.payments[p];
        updated := UpdatePayment(p, row.applied.None?, row.(applied := Some(now)));
      }
    }

    method MarkProvisioned(p: PayId, now: Time) returns (updated: bool)
      modifies this
      ensures updated <==> p in old(work).payments && old(work).payments[p].status.Paid?
      ensures committed == old(committed)
      ensures work == if updated then
                        WithPayment(old(work), p, old(work).payments[p].(status := Provisioned,
                            provisionedAt := Some(now)))
                      else old(work)
    {
      updated := false;
      if p in work.payments {
        var row := work.payments[p];
        updated := UpdatePayment(p, row.status.Paid?, row.(status := Provisioned, provisionedAt := Some(now)));
      }
    }

    method MarkExpired(p: PayId) returns (updated: bool)
      modifies this
      ensures updated <==> p in old(work).payments && old(work).payments[p].status.Pending?
      ensures committed == old(committed)
      ensures work == if updated then
                        WithPayment(old(work), p, old(work).payments[p].(status := PaymentStatus.Expired))
                      else old(work)
    {
      updated := false;
      if p in work.payments {
        var row := work.payments[p];
        updated := UpdatePayment(p, row.status.Pending?, row.(status := PaymentStatus.Expired));
      }
    }

    method Reopen(p: PayId) returns (updated: bool)
      modifies this
      ensures updated <==> p in old(work).payments && old(work).payments[p].status.Expired?
      ensures committed == old(committed)
      ensures work == if updated then
                        WithPayment(old(work), p, old(work).payments[p].(status := PaymentStatus.Pending))
                      else old(work)
    {
      updated := false;
      if p in work.payments {
        var row := work.payments[p];
        updated := UpdatePayment(p, row.status.Expired?, row.(status := PaymentStatus.Pending));
      }
    }

    /** The trial latch: claimed once, by a registered user. */
    method MarkTrialUsed(u: UserId, now: Time) returns (updated: bool)
      modifies this
      ensures updated <==> u in old(work).users && old(work).users[u].None?
      ensures committed == old(committed)
      ensures work == if updated then old(work).(users := old(work).users[u := Some(now)]) else old(work)
    {
      updated := u in work.users && work.users[u].None?;
      if updated {
        work := work.(users := work.users[u := Some(now)]);
      }
    }

    /** ACTIVE -> EXPIRED, re-checking the date where the row is written. */
    method MarkSubscriptionExpired(u: UserId, moment: Time) returns (updated: bool)
      modifies this
      ensures updated <==>
                u in old(work).subs && old(work).subs[u].status.Active? && old(work).subs[u].expires <= moment
      ensures committed == old(committed)
      ensures work == if updated then WithSub(old(work), u, ExpireRow(old(work).subs[u])) else old(work)
    {
      updated := u in work.subs && work.subs[u].status.Active? && work.subs[u].expires <= moment;
      if updated {
        work := WithSub(work, u, ExpireRow(work.subs[u]));
      }
    }

    /** Write a row of the subscriptions table. */
    method Save(u: UserId, row: Subscription)
      modifies this
      ensures work == WithSub(old(work), u, row) && committed == old(committed)
    {
      work := WithSub(work, u, row);
    }

    /** list_all: every row, by user id. */
    method ListSubscribers() returns (users: seq<UserId>)
      ensures forall i, j | 0 <= i < j < |users| :: users[i] < users[j]
      ensures forall i | 0 <= i < |users| :: users[i] in work.subs
      ensures |users| == |work.subs|
    {
      users := Sort((a: UserId, b: UserId) => a < b, work.subs.Keys);
      assert forall i | 0 <= i < |users| :: users[i] in users;
    }
  }
}
