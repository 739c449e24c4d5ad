/** The abstract machine: one book of accounts, one atomic step. */
module Book {
  import opened Model
  import opened Ledger

  type Accounts = map<UserId, Account>

  function Entries(b: Accounts, u: UserId): Account {
    if u in b then b[u] else []
  }

  ghost predicate Holds(b: Accounts, u: UserId, i: nat, pay: PayId) {
    u in b && i < |b[u]| && b[u][i].Bought? && b[u][i].invoice.pay == pay
  }

  /** A payment may be credited only if no account holds it; a trial only opens an account. */
  ghost predicate MayCredit(b: Accounts, u: UserId, e: Entry) {
    && (e.Bought? ==> forall v, i :: !Holds(b, v, i, e.invoice.pay))
    && (e.Tried? ==> u !in b)
  }

  function Credit(b: Accounts, u: UserId, e: Entry): Accounts {
    b[u := Entries(b, u) + [e]]
  }

  ghost predicate AtomicStep(b: Accounts, b': Accounts) {
    b' == b || exists u, e :: MayCredit(b, u, e) && b' == Credit(b, u, e)
  }

  /** Every payment is in at most one place, and trials only open accounts. */
  ghost predicate Sound(b: Accounts) {
    && (forall u | u in b :: b[u] != [])
    && (forall u, v, i, j, pay | Holds(b, u, i, pay) && Holds(b, v, j, pay) :: u == v && i == j)
    && (forall u, i | u in b && 0 < i < |b[u]| :: !b[u][i].Tried?)
  }

  lemma AtomicStepKeepsSound(b: Accounts, b': Accounts)
    requires Sound(b) && AtomicStep(b, b')
    ensures Sound(b')
    ensures forall u | u in b :: u in b' && b[u] <= b'[u]
  {
    if b' != b {
      var u, e :| MayCredit(b, u, e) && b' == Credit(b, u, e);
      forall v, i, pay | Holds(b', v, i, pay)
        ensures Holds(b, v, i, pay) || (v == u && i == |Entries(b, u)| && e.Bought? && e.invoice.pay == pay)
      {
      }
    }
  }
}
