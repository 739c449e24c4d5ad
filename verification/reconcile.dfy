/** Bringing the panel back in line with the database, one direction only. */
module Reconcile {
  import opened Model
  import opened Panel
  import opened UnitOfWork
  import opened Subscriptions
  import opened Sorting

  const TOLERANCE: Time := 60 * SECOND
  const PAGE_SIZE: nat := 200

  /** Differences up to the tolerance are clock noise, "never" always differs. */
  predicate ExpiryDiffers(account: Account, row: Subscription) {
    account.expires.None?
    || row.expires - account.expires.value > TOLERANCE || account.expires.value - row.expires > TOLERANCE
  }

  /** What one visit to a row does. */
  datatype Visit = Leave | Recreate | SwitchOff | Restore | Resize | Heal | Note

  function Plan(row: Subscription, account: Option<Account>): Visit {
    if account.None? then
      if row.Closed() then Leave else Recreate
    else if row.Closed() then
      if account.value.enabled then SwitchOff else Leave
    else if ExpiryDiffers(account.value, row) then Restore
    else if account.value.devices != row.devices then Resize
    else if !account.value.enabled && row.status.Active? then Restore
    else if account.value.enabled && row.status.Pending? then Heal
    else Note
  }

  /** The account and the row after an undisturbed visit; the timestamps of the
      visit itself are left open. */
  function MendedAccount(row: Subscription, account: Option<Account>): Option<Account> {
    match Plan(row, account)
    case Recreate => Some(Fresh(row.panelId, row.expires, row.devices))
    case Restore => Some(Rewritten(account, row))
    case Resize => Some(Rewritten(account, row))
    case SwitchOff => Some(account.value.(enabled := false))
    case _ => account
  }

  ghost predicate MendedRow(row: Subscription, account: Option<Account>, row': Subscription) {
    && row'.expires == row.expires && row'.devices == row.devices && row'.origin == row.origin
    && row'.created == row.created && row'.panelId == row.panelId
    && (row.Closed() ==> row' == row)
    && row'.status == (if Plan(row, account) in {Recreate, Restore, Heal} then Active else row.status)
    && row'.stage == (if Plan(row, account).Restore? then None else row.stage)
    && (!row.Closed() ==>
          var token := MendedAccount(row, account).value.token;
          && row'.synced.Some?
          && row'.token == if Plan(row, account) in {Restore, Resize}
             && (token.None? || token == Some("")) then row.token
                           else token)
    && (if Plan(row, account) in {Recreate, Heal} then row'.provisionedAt.Some? else
        row'.provisionedAt == row.provisionedAt)
    && (row.provisionedAt.Some? ==> row'.provisionedAt == row.provisionedAt)
  }

  // ---- the fixpoint --------------------------------------------------------

  /** At most a minute apart, either way; an account that never ends is always apart. */
  ghost predicate SameMinute(row: Subscription, account: Account) {
    account.expires.Some? && -60 * SECOND <= account.expires.value - row.expires <= 60 * SECOND
  }

  /** Nothing left to repair: revoked and expired rows have no live account; every
      other row has one of the same date and device limit, enabled exactly if the row is
      active. A pending row with a disabled account is left alone. */
  ghost predicate NothingLeft(row: Subscription, account: Option<Account>) {
    match row.status
    case Revoked => account.None? || !account.value.enabled
    case Expired => account.None? || !account.value.enabled
    case Active =>
      account.Some? && SameMinute(row, account.value) && account.value.devices == row.devices && account.value.enabled
    case Pending =>
      account.Some? && SameMinute(row, account.value) && account.value.devices == row.devices && !account.value.enabled
  }

  /** The one case that takes two visits: a pending row with nothing but a wrong limit. */
  ghost predicate OnlyTheLimit(row: Subscription, account: Option<Account>) {
    row.status.Pending? && account.Some? && SameMinute(row, account.value) && account.value.devices != row.devices
  }

  /** What is owed after that: the row still has to hear that its account is fine. */
  ghost predicate OnlyTheRow(row: Subscription, account: Option<Account>) {
    && row.status.Pending? && account.Some? && SameMinute(row, account.value)
    && account.value.devices == row.devices && account.value.enabled
  }

  predicate Changes(row: Subscription, account: Option<Account>) {
    var plan := Plan(row, account);
    !plan.Leave? && !plan.Note?
  }

  lemma NothingToDoExactlyWhenSettled(row: Subscription, account: Option<Account>)
    ensures !Changes(row, account) <==> NothingLeft(row, account)
    ensures NothingLeft(row, account) ==> MendedAccount(row, account) == account
  {
  }

  /** After one visit the panel is right; the row may still owe a visit, exactly
      when it was pending and only its device limit had drifted. */
  lemma OneVisitSettlesAlmost(row: Subscription, account: Option<Account>, row': Subscription)
    requires MendedRow(row, account, row')
    ensures NothingLeft(row', MendedAccount(row, account)) <==> !OnlyTheLimit(row, account)
    ensures OnlyTheLimit(row, account) ==> OnlyTheRow(row', MendedAccount(row, account))
  {
  }

  datatype World = World(rows: map<UserId, Subscription>, accounts: map<PanelId, Account>)

  function AccountOf(w: World, u: UserId): Option<Account>
    requires u in w.rows
  {
    Lookup(w.accounts, w.rows[u].panelId)
  }

  /** No two rows drive the same account. */
  ghost predicate Separate(rows: map<UserId, Subscription>) {
    forall u, v | u in rows && v in rows && rows[u].panelId == rows[v].panelId :: u == v
  }

  /** Rows named after their user, as create_pending names them, are separate. */
  lemma NamedRowsAreSeparate(rows: map<UserId, Subscription>)
    requires NamedRows(rows)
    ensures Separate(rows)
  {
    forall u, v | u in rows && v in rows && rows[u].panelId == rows[v].panelId ensures u == v {
      PanelIdsAreDistinct(u, v);
    }
  }

  function Drifted(w: World): set<UserId> {
    set u | u in w.rows && Changes(w.rows[u], AccountOf(w, u))
  }

  /** One undisturbed run. */
  ghost predicate Mended(w: World, w': World) {
    && w'.rows.Keys == w.rows.Keys
    && (forall u | u in w.rows ::
          MendedRow(w.rows[u], AccountOf(w, u), w'.rows[u])
            && AccountOf(w', u) == MendedAccount(w.rows[u], AccountOf(w, u)))
  }

  /** A run finds nothing to do exactly if every row and its account already agree. */
  lemma FixpointExactly(w: World)
    ensures Drifted(w) == {} <==> forall u | u in w.rows :: NothingLeft(w.rows[u], AccountOf(w, u))
  {
    forall u | u in w.rows ensures u !in Drifted(w) <==> NothingLeft(w.rows[u], AccountOf(w, u)) {
      NothingToDoExactlyWhenSettled(w.rows[u], AccountOf(w, u));
    }
  }

  /** Under which heading a repair is counted. */
  lemma HeadingsExactly(row: Subscription, account: Option<Account>)
    ensures var plan, closed := Plan(row, account), row.status.Revoked? || row.status.Expired?;
            && (plan.Recreate? <==> !closed && account.None?)
            && (plan.SwitchOff? <==> closed && account.Some? && account.value.enabled)
            && (plan.Resize? <==>
                  !closed && account.Some? && SameMinute(row, account.value) && account.value.devices != row.devices)
            && (plan.Restore? || plan.Heal? <==>
                  && !closed && account.Some?
                  && (!SameMinute(row, account.value)
                      || (account.value.devices == row.devices && (row.status.Active? <==> !account.value.enabled))))
  {
  }

  /** Two runs reach a fixpoint, so a third repairs nothing; and the second repairs
      exactly the pending rows whose device limit alone had drifted. */
  lemma TwoRunsConverge(w0: World, w1: World, w2: World)
    requires Mended(w0, w1) && Mended(w1, w2)
    ensures forall u :: u in Drifted(w1) <==> u in w0.rows && OnlyTheLimit(w0.rows[u], AccountOf(w0, u))
    ensures forall u | u in w2.rows :: NothingLeft(w2.rows[u], AccountOf(w2, u))
    ensures Drifted(w2) == {}
  {
    forall u | u in w0.rows
      ensures Changes(w1.rows[u], AccountOf(w1, u)) <==> OnlyTheLimit(w0.rows[u], AccountOf(w0, u))
      ensures NothingLeft(w2.rows[u], AccountOf(w2, u)) && !Changes(w2.rows[u], AccountOf(w2, u))
    {
      OneVisitSettlesAlmost(w0.rows[u], AccountOf(w0, u), w1.rows[u]);
      NothingToDoExactlyWhenSettled(w1.rows[u], AccountOf(w1, u));
      OneVisitSettlesAlmost(w1.rows[u], AccountOf(w1, u), w2.rows[u]);
      NothingToDoExactlyWhenSettled(w2.rows[u], AccountOf(w2, u));
    }
  }

  /** A fixpoint is stable: further runs leave every account alone. */
  lemma SettledStaysSettled(w: World, w': World)
    requires Mended(w, w') && Drifted(w) == {}
    ensures Drifted(w') == {} && forall u | u in w.rows :: AccountOf(w', u) == AccountOf(w, u)
  {
    forall u | u in w.rows
      ensures !Changes(w'.rows[u], AccountOf(w', u)) && AccountOf(w', u) == AccountOf(w, u)
    {
      assert u !in Drifted(w);
      NothingToDoExactlyWhenSettled(w.rows[u], AccountOf(w, u));
    }
  }

  // ---- the run -------------------------------------------------------------

  class Report {
    var checked: nat
    var created: nat
    var expiryFixed: nat
    var devicesFixed: nat
    var reDisabled: nat
    var failed: nat
    var orphans: seq<PanelId>

    constructor ()
      ensures checked == 0 && failed == 0 && orphans == []
      ensures created == 0 && expiryFixed == 0 && devicesFixed == 0 && reDisabled == 0
    {
      checked, created, expiryFixed, devicesFixed, reDisabled, failed, orphans := 0, 0, 0, 0, 0, 0, [];
    }

    function Changed(): nat
      reads this
    {
      created + expiryFixed + devicesFixed + reDisabled
    }
  }

  function Min(a: int, b: int): int {
    if a < b then a else b
  }

  /** The first accounts of the listing, as a dictionary. */
  ghost function Listed(db: PanelDb, count: nat): map<PanelId, Account>
    requires db.Valid() && count <= |db.order|
  {
    if count == 0 then map[]
    else
      var id := db.order[count - 1];
      assert id in db.order;
      Listed(db, count - 1)[id := db.accounts[id]]
  }

  lemma {:induction false} ListedIsListed(db: PanelDb, count: nat, id: PanelId)
    requires db.Valid() && count <= |db.order| && id in Listed(db, count)
    ensures id in db.order[..count] && id in db.accounts && Listed(db, count)[id] == db.accounts[id]
  {
    if id != db.order[count - 1] {
      ListedIsListed(db, count - 1, id);
    } else {
      assert db.order[..count][count - 1] == id;
    }
  }

  lemma {:induction false} ListedSize(db: PanelDb, count: nat)
    requires db.Valid() && count <= |db.order|
    ensures |Listed(db, count)| == count
  {
    if count > 0 {
      ListedSize(db, count - 1);
      var id := db.order[count - 1];
      if id in Listed(db, count - 1) {
        ListedIsListed(db, count - 1, id);
      }
      assert Listed(db, count).Keys == Listed(db, count - 1).Keys + {id};
    }
  }

  lemma WholeListing(db: PanelDb)
    requires db.Valid()
    ensures Listed(db, |db.order|) == db.accounts
  {
    var all := Listed(db, |db.order|);
    forall id | id in all ensures id in db.accounts && all[id] == db.accounts[id] {
      ListedIsListed(db, |db.order|, id);
    }
    ListedSize(db, |db.order|);
    SameSizeSubset(all.Keys, db.accounts.Keys);
  }

  /** `batch` is the page of the listing that starts after `seen` accounts. */
  ghost predicate IsPage(db: PanelDb, seen: nat, batch: seq<(PanelId, Account)>) {
    && seen <= |db.order|
    && |batch| == (if seen + PAGE_SIZE <= |db.order| then PAGE_SIZE else |db.order| - seen)
    && (forall i | 0 <= i < |batch| ::
          db.order[seen + i] in db.accounts && batch[i] == (db.order[seen + i], db.accounts[db.order[seen + i]]))
  }

  lemma PageContents(db: PanelDb, page: nat, answer: Answer)
    requires db.Valid() && page >= 1 && (page - 1) * PAGE_SIZE <= |db.order|
    requires Fits(db, List(page, PAGE_SIZE), answer)
    ensures answer.Many? && answer.total == |db.order| && IsPage(db, (page - 1) * PAGE_SIZE, answer.batch)
  {
    var seen := (page - 1) * PAGE_SIZE;
    assert Page(db.order, page, PAGE_SIZE) == db.order[seen..Min(seen + PAGE_SIZE, |db.order|)];
  }

  predicate BeforeId(a: PanelId, b: PanelId) {
    Before(a.name, b.name)
  }

  lemma IdsAreOrdered()
    ensures StrictOrder(BeforeId)
  {
    forall a: PanelId, b: PanelId ensures !BeforeId(a, a) && (a != b ==> BeforeId(a, b) || BeforeId(b, a)) {
      BeforeIsTotal(a.name, b.name);
    }
    forall a: PanelId, b: PanelId, c: PanelId | BeforeId(a, b) && BeforeId(b, c) ensures BeforeId(a, c) {
      BeforeIsTransitive(a.name, b.name, c.name);
    }
  }

  /** The rows visited so far that had drifted. */
  ghost function Repaired(w: World, done: set<UserId>): set<UserId> {
    set u | u in done && u in w.rows && Changes(w.rows[u], AccountOf(w, u))
  }

  lemma OneMoreVisit(w: World, done: set<UserId>, failed: set<UserId>, u: UserId, r: Outcome)
    requires u in w.rows && u !in done && failed <= done
    ensures var changed := r.Done? && Changes(w.rows[u], AccountOf(w, u));
            |Repaired(w, done + {u} - FailedToo(failed, u, r))| ==
              |Repaired(w, done - failed)| + (if changed then 1 else 0)
    ensures |done + {u}| == |done| + 1 && |FailedToo(failed, u, r)| == |failed| + (if r.Done? then 0 else 1)
  {
    var after := done + {u} - FailedToo(failed, u, r);
    if r.Done? && Changes(w.rows[u], AccountOf(w, u)) {
      assert Repaired(w, after) == Repaired(w, done - failed) + {u};
    } else {
      assert Repaired(w, after) == Repaired(w, done - failed);
    }
  }

  lemma RepairsAreVisits(w: World, done: set<UserId>, failed: set<UserId>)
    requires failed <= done
    ensures |Repaired(w, done - failed)| + |failed| <= |done|
  {
    NoMore(Repaired(w, done - failed), done - failed);
    assert |done| == |done - failed| + |failed|;
  }

  lemma NoMore(a: set<UserId>, b: set<UserId>)
    requires a <= b
    ensures |a| <= |b|
  {
    assert b == a + (b - a);
  }

  /** An account the panel has and no row speaks for. */
  ghost predicate IsOrphan(w: World, id: PanelId) {
    id in w.accounts && forall u | u in w.rows :: w.rows[u].panelId != id
  }

  /** From one world to the next, nothing but the row of `u` and its account differs. */
  ghost predicate OnlyTouches(before: World, after: World, u: UserId)
    requires u in before.rows
  {
    && after.rows.Keys == before.rows.Keys
    && (forall v | v in before.rows && v != u :: after.rows[v] == before.rows[v])
    && after.rows[u].panelId == before.rows[u].panelId
    && (forall id | id != before.rows[u].panelId :: Lookup(after.accounts, id) == Lookup(before.accounts, id))
  }

  /** What no visit ever changes, panel or no panel: whose row it is, its date, its
      device count and where it came from. */
  predicate Kept(row: Subscription, row': Subscription) {
    && row'.expires == row.expires && row'.devices == row.devices && row'.origin == row.origin
    && row'.created == row.created && row'.panelId == row.panelId
    && (row'.stage == row.stage || row'.stage.None?) && (row'.status == row.status || row'.status.Active?)
    && (row.Closed() ==> row' == row)
  }

  /** What a visit to `u` leaves behind: a panel error leaves the account as it was or
      mended, and never anything else. */
  ghost predicate Visited(before: World, after: World, u: UserId, r: Outcome)
    requires u in before.rows
  {
    && OnlyTouches(before, after, u)
    && var row, account, account' := before.rows[u], AccountOf(before, u), AccountOf(after, u);
       && Kept(row, after.rows[u]) && account' in {account, MendedAccount(row, account)}
       && (r.Done? ==> MendedRow(row, account, after.rows[u]) && account' == MendedAccount(row, account))
  }

  lemma NothingToVisit(w: World, u: UserId)
    requires u in w.rows && Plan(w.rows[u], AccountOf(w, u)).Leave?
    ensures Visited(w, w, u, Done)
  {
  }

  /** Where a run that started in `w` stands once it has visited `done`, with a panel
      error on the visits to `failed`. */
  ghost predicate Progress(w: World, here: World, done: set<UserId>, failed: set<UserId>) {
    && Separate(w.rows) && here.rows.Keys == w.rows.Keys
    && (forall u | u in w.rows :: Kept(w.rows[u], here.rows[u])
                                  && AccountOf(here, u) in {AccountOf(w, u), MendedAccount(w.rows[u], AccountOf(w, u))})
    && (forall id | (forall u | u in w.rows :: w.rows[u].panelId != id) ::
        Lookup(here.accounts, id) == Lookup(w.accounts, id))
    && (forall u | u in w.rows && u !in done :: here.rows[u] == w.rows[u] && AccountOf(here, u) == AccountOf(w, u))
    && (forall u | u in w.rows && u in done && u !in failed ::
          MendedRow(w.rows[u], AccountOf(w, u), here.rows[u])
            && AccountOf(here, u) == MendedAccount(w.rows[u], AccountOf(w, u)))
  }

  lemma RunBegins(w: World)
    requires Separate(w.rows)
    ensures Progress(w, w, {}, {}) && Repaired(w, {} - {}) == {}
  {
  }

  /** The accounts these rows drive. */
  function IdsOf(rows: map<UserId, Subscription>, done: set<UserId>): set<PanelId> {
    set u | u in done && u in rows :: rows[u].panelId
  }

  lemma OneMoreId(rows: map<UserId, Subscription>, done: set<UserId>, u: UserId)
    requires u in rows
    ensures IdsOf(rows, done + {u}) == IdsOf(rows, done) + {rows[u].panelId}
  {
  }

  lemma NotVisitedYet(w: World, here: World, done: set<UserId>, failed: set<UserId>, u: UserId)
    requires Progress(w, here, done, failed) && u in w.rows && u !in done
    ensures u in here.rows && here.rows[u] == w.rows[u] && AccountOf(here, u) == AccountOf(w, u)
  {
  }

  lemma SameUsers(w: World, here: World, done: set<UserId>, failed: set<UserId>)
    requires Progress(w, here, done, failed)
    ensures here.rows.Keys == w.rows.Keys && forall u | u in w.rows :: here.rows[u].panelId == w.rows[u].panelId
  {
  }

  /** A run that has visited every row. */
  lemma RunIsOver(w: World, here: World, failed: set<UserId>)
    requires Progress(w, here, w.rows.Keys, failed)
    ensures failed == {} ==> Mended(w, here) && Repaired(w, w.rows.Keys - failed) == Drifted(w)
  {
  }

  function FailedToo(failed: set<UserId>, u: UserId, r: Outcome): set<UserId> {
    if r.PanelError? then failed + {u} else failed
  }

  /** A visit to one row moves the run forward. */
  lemma VisitAdvances(w: World, before: World, after: World, done: set<UserId>, failed: set<UserId>, u: UserId,
                      r: Outcome)
    requires Progress(w, before, done, failed) && u in w.rows && u !in done
    requires Visited(before, after, u, r)
    ensures Progress(w, after, done + {u}, FailedToo(failed, u, r))
  {
    forall v | v in w.rows && v != u
      ensures after.rows[v] == before.rows[v] && AccountOf(after, v) == AccountOf(before, v)
    {
      assert w.rows[v].panelId != w.rows[u].panelId;
    }
  }

  class ReconcileService {
    const session: Session
    const client: Client
    const clock: Clock
    const subscriptions: SubscriptionService

    constructor (subscriptions: SubscriptionService)
      ensures this.subscriptions == subscriptions && Wired()
    {
      this.subscriptions := subscriptions;
      session, client, clock := subscriptions.session, subscriptions.client, subscriptions.clock;
    }

    ghost predicate Wired() {
      subscriptions.session == session && subscriptions.client == client && subscriptions.clock == clock
    }

    /** iter_users: one page and the total. */
    method FetchPage(page: nat) returns (r: Option<(seq<(PanelId, Account)>, nat)>)
      requires client.server.db.Valid() && page >= 1 && (page - 1) * PAGE_SIZE <= |client.server.db.order|
      modifies client.server
      ensures client.server.db == old(client.server.db)
      ensures r.Some? ==>
                r.value.1 == |client.server.db.order| && IsPage(client.server.db, (page - 1) * PAGE_SIZE, r.value.0)
      ensures old(client.server.Up()) && client.attempts > 0 ==> r.Some? && client.server.Up()
    {
      ServingTwiceIsServingOnce(client.server.db, List(page, PAGE_SIZE));
      var answer := client.Request(List(page, PAGE_SIZE));
      if answer.Served() {
        PageContents(client.server.db, page, answer);
        return Some((answer.batch, answer.total));
      }
      r := None;
    }

    /** `users[user.user_id] = user` for one page. */
    method AddPage(users: map<PanelId, Account>, batch: seq<(PanelId, Account)>, ghost db: PanelDb, ghost seen: nat)
      returns (r: map<PanelId, Account>)
      requires db.Valid() && IsPage(db, seen, batch) && users == Listed(db, seen)
      ensures r == Listed(db, seen + |batch|)
    {
      r := users;
      for i := 0 to |batch|
        invariant r == Listed(db, seen + i)
      {
        r := r[batch[i].0 := batch[i].1];
      }
    }

    /** One page into the dictionary; `size` is the page's length. */
    method LoadPage(users: map<PanelId, Account>, page: nat)
      returns (r: Option<map<PanelId, Account>>, size: nat, total: nat)
      requires client.server.db.Valid() && page >= 1 && (page - 1) * PAGE_SIZE <= |client.server.db.order|
      requires users == Listed(client.server.db, (page - 1) * PAGE_SIZE)
      modifies client.server
      ensures client.server.db == old(client.server.db)
      ensures old(client.server.Up()) && client.attempts > 0 ==> r.Some? && client.server.Up()
      ensures r.Some? ==>
                && total == |client.server.db.order|
                && (page - 1) * PAGE_SIZE + size == Min(page * PAGE_SIZE, total)
                && r.value == Listed(client.server.db, (page - 1) * PAGE_SIZE + size)
    {
      var fetched := FetchPage(page);
      if fetched.None? {
        return None, 0, 0;
      }
      size, total := |fetched.value.0|, fetched.value.1;
      var all := AddPage(users, fetched.value.0, client.server.db, (page - 1) * PAGE_SIZE);
      r := Some(all);
    }

    /** Pages through the listing until it has seen as many accounts as the panel
        says there are; nothing is returned if a page could not be had. */
    method LoadPanelUsers() returns (r: Option<map<PanelId, Account>>)
      requires client.server.db.Valid()
      modifies client.server
      ensures client.server.db == old(client.server.db)
      ensures r.Some? ==> r.value == client.server.db.accounts
      ensures old(client.server.Up()) && client.attempts > 0 ==> r.Some? && client.server.Up()
    {
      ghost var db := client.server.db;
      var users: map<PanelId, Account> := map[];
      var page := 1;
      while true
        invariant client.server.db == db && page >= 1
        invariant (page - 1) * PAGE_SIZE <= |db.order| && users == Listed(db, (page - 1) * PAGE_SIZE)
        invariant old(client.server.Up()) && client.attempts > 0 ==> client.server.Up()
        decreases |db.order| - (page - 1) * PAGE_SIZE
      {
        var loaded, size, total := LoadPage(users, page);
        if loaded.None? {
          return None;
        }
        users := loaded.value;
        ListedSize(db, (page - 1) * PAGE_SIZE + size);
        if size == 0 || |users| >= total {
          WholeListing(db);
          return Some(users);
        }
        page := page + 1;
      }
    }

    function Here(): World
      reads session, client.server
    {
      World(session.work.subs, client.server.db.accounts)
    }

    /** What every visit finds and leaves. */
    ghost predicate Steady()
      reads session, client.server
    {
      Wired() && session.Clean() && client.server.db.Valid()
    }

    ghost predicate Ready(u: UserId, account: Option<Account>)
      reads session, client.server
    {
      Steady() && u in session.work.subs && account == AccountOf(Here(), u)
    }

    method RecreateAccount(u: UserId, account: Option<Account>) returns (r: Outcome)
      requires Ready(u, account) && Plan(session.work.subs[u], account).Recreate?
      modifies session, client, client.server, clock
      ensures clock.now >= old(clock.now)
      ensures Steady() && Visited(old(Here()), Here(), u, r)
              && session.work == old(session.work).(subs := session.work.subs)
      ensures old(subscriptions.PanelUp()) ==> r.Done? && subscriptions.PanelUp()
    {
      r := subscriptions.Provision(u);
    }

    method RestoreAccount(u: UserId, account: Option<Account>) returns (r: Outcome)
      requires Ready(u, account) && Plan(session.work.subs[u], account).Restore?
      modifies session, client, client.server, clock
      ensures clock.now >= old(clock.now)
      ensures Steady() && Visited(old(Here()), Here(), u, r)
              && session.work == old(session.work).(subs := session.work.subs)
      ensures old(subscriptions.PanelUp()) ==> r.Done? && subscriptions.PanelUp()
    {
      r := subscriptions.Extend(u, session.work.subs[u].expires);
    }

    method ResizeAccount(u: UserId, account: Option<Account>) returns (r: Outcome)
      requires Ready(u, account) && Plan(session.work.subs[u], account).Resize?
      modifies session, client, client.server, clock
      ensures clock.now >= old(clock.now)
      ensures Steady() && Visited(old(Here()), Here(), u, r)
              && session.work == old(session.work).(subs := session.work.subs)
      ensures old(subscriptions.PanelUp()) ==> r.Done? && subscriptions.PanelUp()
    {
      r := subscriptions.PushState(u);
    }

    method DisableAccount(u: UserId, account: Option<Account>) returns (r: Outcome)
      requires Ready(u, account) && Plan(session.work.subs[u], account).SwitchOff?
      modifies client.server
      ensures Steady() && Visited(old(Here()), Here(), u, r)
              && session.work == old(session.work).(subs := session.work.subs)
      ensures old(subscriptions.PanelUp()) ==> r.Done? && subscriptions.PanelUp()
    {
      var request := Request.Disable(session.work.subs[u].panelId);
      ServingTwiceIsServingOnce(client.server.db, request);
      var answer := client.Request(request);
      r := if answer.One? then Done else PanelError;
    }

    method NoteAgreement(u: UserId, account: Option<Account>)
      requires Ready(u, account) && Plan(session.work.subs[u], account) in {Heal, Note}
      modifies session, clock
      ensures clock.now >= old(clock.now)
      ensures Steady() && Visited(old(Here()), Here(), u, Done)
              && session.work == old(session.work).(subs := session.work.subs)
    {
      var now := clock.Read();
      session.Save(u, AfterSettle(session.work.subs[u], account.value.token, account.value.enabled, now));
      session.Commit();
    }

    /** One row against the account the listing showed for it. */
    method ReconcileOne(u: UserId, account: Option<Account>, report: Report) returns (r: Outcome)
      requires Ready(u, account)
      modifies session, client, client.server, clock, report
      ensures clock.now >= old(clock.now)
      ensures Steady() && Visited(old(Here()), Here(), u, r)
              && session.work == old(session.work).(subs := session.work.subs)
      ensures old(subscriptions.PanelUp()) ==> r.Done? && subscriptions.PanelUp()
      ensures report.checked == old(report.checked) && report.failed == old(report.failed)
              && report.orphans == old(report.orphans)
      ensures var plan := if r.Done? then Plan(old(session.work).subs[u], account) else Leave;
              && report.created == old(report.created) + (if plan.Recreate? then 1 else 0)
              && report.expiryFixed == old(report.expiryFixed) + (if plan.Restore? || plan.Heal? then 1 else 0)
              && report.devicesFixed == old(report.devicesFixed) + (if plan.Resize? then 1 else 0)
              && report.reDisabled == old(report.reDisabled) + (if plan.SwitchOff? then 1 else 0)
    {
      hide Visited, MendedRow, MendedAccount;
      ghost var w := Here();
      if Plan(session.work.subs[u], account).Leave? {
        NothingToVisit(w, u);
      }
      var row := session.work.subs[u];
      r := Done;
      if account.None? {
        if row.Closed() {
          return;
        }
        r := RecreateAccount(u, account);
        if r.Done? {
          report.created := report.created + 1;
        }
      } else if row.Closed() {
        if account.value.enabled {
          r := DisableAccount(u, account);
          if r.Done? {
            report.reDisabled := report.reDisabled + 1;
          }
        }
      } else if ExpiryDiffers(account.value, row) {
        r := RestoreAccount(u, account);
        if r.Done? {
          report.expiryFixed := report.expiryFixed + 1;
        }
      } else if account.value.devices != row.devices {
        r := ResizeAccount(u, account);
        if r.Done? {
          report.devicesFixed := report.devicesFixed + 1;
        }
      } else if !account.value.enabled && row.status.Active? {
        r := RestoreAccount(u, account);
        if r.Done? {
          report.expiryFixed := report.expiryFixed + 1;
        }
      } else {
        if row.status.Pending? && account.value.enabled {
          report.expiryFixed := report.expiryFixed + 1;
        }
        NoteAgreement(u, account);
      }
    }

    ghost predicate Running(w: World, done: set<UserId>, failed: set<UserId>, up: bool)
      reads session, client, client.server
    {
      && Steady() && Progress(w, Here(), done, failed) && failed <= done
      && (up ==> subscriptions.PanelUp() && failed == {})
    }

    /** The report so far: visits, panel errors, and the repairs due on the other visits. */
    ghost predicate Tallied(w: World, done: set<UserId>, failed: set<UserId>, report: Report)
      reads report
    {
      report.checked == |done| && report.failed == |failed| && report.Changed() == |Repaired(w, done - failed)|
    }

    /** One turn of the loop: a panel error is counted and the run goes on. */
    method VisitRow(ghost w: World, ghost done: set<UserId>, ghost failed: set<UserId>, ghost up: bool, u: UserId,
                    account: Option<Account>, report: Report)
      returns (ghost failed': set<UserId>)
      requires Running(w, done, failed, up) && Tallied(w, done, failed, report) && u in w.rows && u !in done
      requires account == AccountOf(w, u)
      modifies session, client, client.server, clock, report
      ensures clock.now >= old(clock.now)
      ensures Running(w, done + {u}, failed', up) && Tallied(w, done + {u}, failed', report)
      ensures session.work == old(session.work).(subs := session.work.subs) && report.orphans == old(report.orphans)
    {
      hide Visited, MendedRow, MendedAccount, Progress, Repaired, Plan;
      NotVisitedYet(w, Here(), done, failed, u);
      report.checked := report.checked + 1;
      ghost var before := Here();
      var r := ReconcileOne(u, account, report);
      VisitAdvances(w, before, Here(), done, failed, u, r);
      failed' := FailedToo(failed, u, r);
      if r.PanelError? {
        report.failed := report.failed + 1;
      }
      OneMoreVisit(w, done, failed, u, r);
    }

    /** The next row, against its entry in the listing. */
    method VisitNext(ghost w: World, ghost done: set<UserId>, ghost failed: set<UserId>, ghost up: bool, u: UserId,
                     panelUsers: map<PanelId, Account>, report: Report)
      returns (id: PanelId, ghost failed': set<UserId>)
      requires Running(w, done, failed, up) && Tallied(w, done, failed, report) && u in w.rows && u !in done
      requires panelUsers == w.accounts
      modifies session, client, client.server, clock, report
      ensures clock.now >= old(clock.now) && id == w.rows[u].panelId
      ensures Running(w, done + {u}, failed', up) && Tallied(w, done + {u}, failed', report)
      ensures session.work == old(session.work).(subs := session.work.subs) && report.orphans == old(report.orphans)
    {
      hide Progress, Tallied;
      SameUsers(w, Here(), done, failed);
      id := session.work.subs[u].panelId;
      failed' := VisitRow(w, done, failed, up, u, Lookup(panelUsers, id), report);
    }

    /** The loop over the rows; `known` gathers the accounts that have one. */
    method VisitRows(ghost w: World, ghost up: bool, panelUsers: map<PanelId, Account>, report: Report)
      returns (known: set<PanelId>, ghost failed: set<UserId>)
      requires Running(w, {}, {}, up) && Tallied(w, {}, {}, report) && panelUsers == w.accounts
      modifies session, client, client.server, clock, report
      ensures clock.now >= old(clock.now)
      ensures Running(w, w.rows.Keys, failed, up) && Tallied(w, w.rows.Keys, failed, report)
      ensures session.work == old(session.work).(subs := session.work.subs) && report.orphans == old(report.orphans)
      ensures known == IdsOf(w.rows, w.rows.Keys)
    {
      hide *;
      RunStarts(this, w, up);
      known, failed := {}, {};
      var users := session.ListSubscribers();
      ghost var done: set<UserId> := {};
      for i := 0 to |users|
        invariant Running(w, done, failed, up) && Tallied(w, done, failed, report) && done <= w.rows.Keys
        invariant clock.now >= old(clock.now)
        invariant session.work == old(session.work).(subs := session.work.subs) && report.orphans == old(report.orphans)
        invariant |done| == i && forall k | i <= k < |users| :: users[k] !in done
        invariant known == IdsOf(w.rows, done)
      {
        OneMoreId(w.rows, done, users[i]);
        var id;
        id, failed := VisitNext(w, done, failed, up, users[i], panelUsers, report);
        known := known + {id};
        done := done + {users[i]};
      }
      SameSizeSubset(done, w.rows.Keys);
    }

    /** sorted(set(panel_users) - known) */
    method SortedOrphans(panelUsers: map<PanelId, Account>, known: set<PanelId>) returns (orphans: seq<PanelId>)
      ensures forall i, j | 0 <= i < j < |orphans| :: Before(orphans[i].name, orphans[j].name)
      ensures forall id :: id in orphans <==> id in panelUsers && id !in known
    {
      IdsAreOrdered();
      orphans := Sort(BeforeId, panelUsers.Keys - known);
    }

    /** Every row against the listing. Without a listing nothing is touched. Under
        any pattern of panel errors: accounts without a row are only reported, as
        the sorted orphan list; no row changes its date or its device count, and its
        account is as it was or mended; a closed row is left as it is and its account
        never created or enabled; every row but those in `failed`, which had a panel
        error, is mended; and the report counts exactly these, and the repairs. With the
        panel up this is an undisturbed run that repairs exactly what had drifted. */
    method Run() returns (r: Outcome, report: Report, ghost failed: set<UserId>)
      requires Steady() && NamedRows(session.work.subs)
      modifies session, client, client.server, clock
      ensures fresh(report) && Steady() && clock.now >= old(clock.now)
      ensures session.work == old(session.work).(subs := session.work.subs)
      ensures r.PanelError? ==> session.work == old(session.work) && client.server.db == old(client.server.db)
      ensures r.Done? ==> Progress(old(Here()), Here(), old(session.work).subs.Keys, failed)
      ensures r.Done? ==>
                && failed <= old(session.work).subs.Keys
                && report.checked == |old(session.work).subs| && report.failed == |failed|
                && report.Changed() == |Repaired(old(Here()), old(session.work).subs.Keys - failed)|
                && report.Changed() + report.failed <= report.checked
      ensures r.Done? ==> (forall id :: id in report.orphans <==> IsOrphan(old(Here()), id))
                          && forall i, j | 0 <= i < j < |report.orphans| ::
                            Before(report.orphans[i].name, report.orphans[j].name)
      ensures old(subscriptions.PanelUp()) ==>
                && r.Done? && subscriptions.PanelUp() && report.failed == 0
                && Mended(old(Here()), Here())
                && report.Changed() == |Drifted(old(Here()))|
    {
      report := new Report();
      failed := {};
      ghost var w := Here();
      ghost var up := subscriptions.PanelUp();
      NamedRowsAreSeparate(w.rows);
      RunBegins(w);
      var listing := LoadPanelUsers();
      if listing.None? {
        return PanelError, report, {};
      }
      var known;
      known, failed := VisitRows(w, up, listing.value, report);
      RunIsOver(w, Here(), failed);
      RepairsAreVisits(w, w.rows.Keys, failed);
      var orphans := SortedOrphans(listing.value, known);
      report.orphans := orphans;
      r := Done;
    }
  }

  lemma RunStarts(service: ReconcileService, w: World, up: bool)
    requires service.Running(w, {}, {}, up)
    ensures service.session.work.subs.Keys == w.rows.Keys && IdsOf(w.rows, {}) == {}
  {
  }
}
