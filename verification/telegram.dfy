/** The messenger, as far as the senders care. */
module Telegram {

  datatype Reply = Delivered | RetryAfter | Forbidden | Broken

  datatype Fate = Sent | Blocked | Failed

  /** Messages sent one after the other, the first of them with attempt `from`. */
  datatype Talk = Talk(replies: nat -> Reply, from: nat)
  {
    /** The attempt with which message `i` begins. */
    ghost function First(i: nat): nat {
      if i == 0 then from else First(i - 1) + if replies(First(i - 1)).RetryAfter? then 2 else 1
    }

    /** The message got through, at once or after flood control. */
    ghost predicate Reached(i: nat) {
      replies(First(i)).Delivered? || (replies(First(i)).RetryAfter? && replies(First(i) + 1).Delivered?)
    }

    /** The user has blocked the bot. */
    ghost predicate Refused(i: nat) {
      replies(First(i)).Forbidden?
    }

    /** How many of the first `n` messages got through ... */
    ghost function Deliveries(n: nat): nat {
      if n == 0 then 0 else Deliveries(n - 1) + if Reached(n - 1) then 1 else 0
    }

    /** ... and how many met a user who has blocked the bot. */
    ghost function Refusals(n: nat): nat {
      if n == 0 then 0 else Refusals(n - 1) + if Refused(n - 1) then 1 else 0
    }
  }

  /** Attempts, numbered; the answers are the environment's. */
  class Bot {
    const replies: nat -> Reply
    var attempts: nat

    constructor (replies: nat -> Reply)
      ensures this.replies == replies && attempts == 0
    {
      this.replies, attempts := replies, 0;
    }

    method Attempt() returns (reply: Reply)
      modifies this
      ensures attempts == old(attempts) + 1 && reply == replies(old(attempts))
    {
      reply := replies(attempts);
      attempts := attempts + 1;
    }

    /** One message: flood control earns it one more try, and then nothing but
        success counts. */
    method Send() returns (fate: Fate)
      modifies this
      ensures var first, second := replies(old(attempts)), replies(old(attempts) + 1);
              && (fate.Sent? <==> first.Delivered? || (first.RetryAfter? && second.Delivered?))
              && (fate.Blocked? <==> first.Forbidden?)
              && attempts == old(attempts) + if first.RetryAfter? then 2 else 1
    {
      var reply := Attempt();
      match reply {
        case Delivered => fate := Sent;
        case Forbidden => fate := Blocked;
        case Broken => fate := Failed;
        case RetryAfter =>
          reply := Attempt();
          fate := if reply.Delivered? then Sent else Failed;
      }
    }
  }
}
