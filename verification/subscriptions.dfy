/** Driving the panel to match a subscription row, over a wire that loses things. */
module Subscriptions {
  import opened Model
  import opened Panel
  import opened UnitOfWork

  function Lookup(accounts: map<PanelId, Account>, id: PanelId): Option<Account> {
    if id in accounts then Some(accounts[id]) else None
  }

  predicate Agrees(account: Account, row: Subscription) {
    account.expires == Some(row.expires) && account.devices == row.devices
  }

  /** provision leaves an account alone when it already agrees with the row. */
  function Matched(account: Option<Account>, row: Subscription): (r: Account)
    ensures Agrees(r, row) && (account.None? || !Agrees(account.value, row) ==> r.enabled)
    ensures account.Some? ==> r.token == account.value.token
  {
    if account.None? then Fresh(row.panelId, row.expires, row.devices)
    else if Agrees(account.value, row) then account.value
    else account.value.(enabled := true, expires := Some(row.expires), devices := row.devices)
  }

  /** push_state always writes, and writing re-enables. */
  function Rewritten(account: Option<Account>, row: Subscription): (r: Account)
    ensures Agrees(r, row) && r.enabled && (account.Some? ==> r.token == account.value.token)
  {
    if account.None? then Fresh(row.panelId, row.expires, row.devices)
    else account.value.(enabled := true, expires := Some(row.expires), devices := row.devices)
  }

  /** Repeating a delivery, of either kind, changes nothing more. */
  lemma DeliveryIsIdempotent(account: Option<Account>, row: Subscription)
    ensures Matched(Some(Matched(account, row)), row) == Matched(account, row)
    ensures Rewritten(Some(Rewritten(account, row)), row) == Rewritten(account, row)
    ensures Matched(Some(Rewritten(account, row)), row) == Rewritten(account, row)
  {
  }

  /** The account is there, and only its access was withdrawn. */
  predicate SwitchedOff(before: map<PanelId, Account>, after: map<PanelId, Account>, id: PanelId) {
    id in before && after == before[id := before[id].(enabled := false)]
  }

  datatype Outcome = Done | PanelError

  class SubscriptionService {
    const session: Session
    const client: Client
    const clock: Clock

    constructor (session: Session, client: Client, clock: Clock)
      ensures this.session == session && this.client == client && this.clock == clock
    {
      this.session, this.client, this.clock := session, client, clock;
    }

    /** The panel is usable: it answers, and it knows the server group. */
    ghost predicate PanelUp()
      reads client, client.server
    {
      client.attempts > 0 && client.server.Up() && (client.groupKnown || client.server.db.hasGroup)
    }

    /** create_pending: the row goes in before the panel hears of it. */
    method CreatePending(u: UserId, now: Time, expires: Time, origin: Origin, devices: int, commit: bool)
      requires u !in session.work.subs
      modifies session
      ensures session.work == WithSub(old(session.work), u, NewSubscription(u, now, expires, origin, devices))
      ensures session.committed == if commit then session.work else old(session.committed)
    {
      session.Save(u, NewSubscription(u, now, expires, origin, devices));
      if commit {
        session.Commit();
      }
    }

    /** Make the panel match the row, then mark the row active. Whatever the wire
        loses, the account is as it was or as the row says, no other account is
        touched, and a normal return means the row was really delivered. */
    method Provision(u: UserId) returns (r: Outcome)
      requires u in session.work.subs && client.server.db.Valid()
      modifies session, client, client.server, clock
      ensures client.server.db.Valid() && old(client.server.tick) <= client.server.tick <=
                old(client.server.tick) + 4 * client.attempts
      ensures old(PanelUp()) ==> r.Done? && PanelUp()
      ensures clock.now >= old(clock.now)
      ensures var row := old(session.work).subs[u];
              var before := old(client.server.db).accounts;
              var after := before[row.panelId := Matched(Lookup(before, row.panelId), row)];
              if r.Done? then
                && client.server.db.accounts == after
                && session.work == WithSub(old(session.work), u,
                                           AfterProvision(row, after[row.panelId].token, clock.now))
                && session.Clean()
              else
                && (client.server.db.accounts == before || client.server.db.accounts == after)
                && session.work == old(session.work) && session.committed == old(session.committed)
    {
      var row := session.work.subs[u];
      var put := SetState(row.panelId, row.expires, row.devices);
      var created := client.CreateOrGet(row.panelId, row.expires, row.devices);
      if created.Failed? {
        return PanelError;
      }
      var account := created.account;
      if !created.isNew && (account.expires != Some(row.expires) || account.devices != row.devices) {
        ServingTwiceIsServingOnce(client.server.db, put);
        var answer := client.Request(put);
        if !answer.One? {
          return PanelError;
        }
        account := answer.account;
      }
      var now := clock.Read();
      session.Save(u, AfterProvision(row, account.token, now));
      session.Commit();
      r := Done;
    }

    /** set_state, or create the account if the panel has lost it. */
    method Write(row: Subscription) returns (r: Created)
      requires client.server.db.Valid()
      modifies client, client.server
      ensures client.server.db.Valid() && old(client.server.tick) <= client.server.tick <=
                old(client.server.tick) + 5 * client.attempts
      ensures old(PanelUp()) ==> r.Created? && PanelUp()
      ensures var before := old(client.server.db).accounts;
              var after := before[row.panelId := Rewritten(Lookup(before, row.panelId), row)];
              if r.Created? then client.server.db.accounts == after && r.account == after[row.panelId]
              else client.server.db.accounts == before || client.server.db.accounts == after
    {
      var put := SetState(row.panelId, row.expires, row.devices);
      ServingTwiceIsServingOnce(client.server.db, put);
      var answer := client.Request(put);
      if answer.One? {
        return Created(answer.account, true);
      }
      if !answer.NotFound? {
        return Failed(answer);
      }
      r := client.CreateOrGet(row.panelId, row.expires, row.devices);
      if r.Created? && !r.isNew {
        ServingTwiceIsServingOnce(client.server.db, put);
        answer := client.Request(put);
        r := if answer.One? then Created(answer.account, false) else Failed(answer);
      }
    }

    /** Make the panel agree with the row as it stands, creating the account if
        the panel has lost it. */
    method PushState(u: UserId) returns (r: Outcome)
      requires u in session.work.subs && client.server.db.Valid()
      modifies session, client, client.server, clock
      ensures client.server.db.Valid() && old(client.server.tick) <= client.server.tick <=
                old(client.server.tick) + 5 * client.attempts
      ensures old(PanelUp()) ==> r.Done? && PanelUp()
      ensures clock.now >= old(clock.now)
      ensures var row := old(session.work).subs[u];
              var before := old(client.server.db).accounts;
              var after := before[row.panelId := Rewritten(Lookup(before, row.panelId), row)];
              if r.Done? then
                && client.server.db.accounts == after
                && session.work == WithSub(old(session.work), u, AfterPush(row, after[row.panelId].token, clock.now))
                && session.Clean()
              else
                && (client.server.db.accounts == before || client.server.db.accounts == after)
                && session.work == old(session.work) && session.committed == old(session.committed)
    {
      var row := session.work.subs[u];
      var written := Write(row);
      if written.Failed? {
        return PanelError;
      }
      var now := clock.Read();
      session.Save(u, AfterPush(row, written.account.token, now));
      session.Commit();
      r := Done;
    }

    /** Move the expiry forward, commit, then push. */
    method Extend(u: UserId, until: Time) returns (r: Outcome)
      requires u in session.work.subs && client.server.db.Valid()
      modifies session, client, client.server, clock
      ensures client.server.db.Valid() && old(client.server.tick) <= client.server.tick <=
                old(client.server.tick) + 5 * client.attempts
      ensures old(PanelUp()) ==> r.Done? && PanelUp()
      ensures clock.now >= old(clock.now) && session.Clean()
      ensures var row := ExtendTo(old(session.work).subs[u], until);
              var before := old(client.server.db).accounts;
              var after := before[row.panelId := Rewritten(Lookup(before, row.panelId), row)];
              if r.Done? then
                && client.server.db.accounts == after
                && session.work == WithSub(old(session.work), u, AfterPush(row, after[row.panelId].token, clock.now))
              else
                && (client.server.db.accounts == before || client.server.db.accounts == after)
                && session.work == WithSub(old(session.work), u, row)
    {
      var row := session.work.subs[u];
      session.Save(u, ExtendTo(row, until));
      session.Commit();
      r := PushState(u);
    }

    /** Block new connections; the account and its history stay. */
    method Revoke(u: UserId) returns (r: Outcome)
      requires u in session.work.subs && client.server.db.Valid()
      modifies session, client, client.server, clock
      ensures client.server.db.Valid() && session.Clean() && clock.now >= old(clock.now)
      ensures old(PanelUp()) ==>
                PanelUp() && (r.Done? <==> old(session.work).subs[u].panelId in old(client.server.db).accounts)
      ensures var row := old(session.work).subs[u].(status := Revoked);
              var before := old(client.server.db).accounts;
              && session.work.subs.Keys == old(session.work).subs.Keys
              && session.work == WithSub(old(session.work), u, if r.Done? then row.(synced := Some(clock.now)) else row)
              && (r.Done? ==> SwitchedOff(before, client.server.db.accounts, row.panelId))
              && (client.server.db.accounts == before || SwitchedOff(before, client.server.db.accounts, row.panelId))
    {
      var row := session.work.subs[u].(status := Revoked);
      session.Save(u, row);
      session.Commit();
      ServingTwiceIsServingOnce(client.server.db, Disable(row.panelId));
      var answer := client.Request(Disable(row.panelId));
      if !answer.One? {
        return PanelError;
      }
      var now := clock.Read();
      session.Save(u, row.(synced := Some(now)));
      session.Commit();
      r := Done;
    }
  }
}
