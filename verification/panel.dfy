/** The VPN panel behind an unreliable wire, and the client that talks to it. */
module Panel {
  import opened Model

  /** `expires` None means "never". */
  datatype Account = Account(enabled: bool, expires: Option<Time>, devices: int, token: Option<Token>)

  datatype PanelDb = PanelDb(accounts: map<PanelId, Account>, order: seq<PanelId>, hasGroup: bool)
  {
    /** The listing shows every account once: as many entries as accounts, all
        of them accounts, no two alike. */
    ghost predicate Valid() {
      && (forall i | 0 <= i < |order| :: order[i] in accounts)
      && (forall i, j | 0 <= i < j < |order| :: order[i] != order[j])
      && |order| == |accounts|
    }
  }

  datatype Request =
    | Groups
    | Create(id: PanelId, expires: Time, devices: int)
    | Fetch(id: PanelId)
    | SetState(id: PanelId, expires: Time, devices: int)
    | Disable(id: PanelId)
    | List(page: nat, limit: nat)

  datatype Answer =
    | One(account: Account)
    | Many(batch: seq<(PanelId, Account)>, total: nat)
    | Group(found: bool)
    | NotFound
    | Conflict
    | Denied
    | Limited
    | Unavailable
  {
    /** Answers of the panel itself, as opposed to a refusal or the wire. */
    predicate Served() {
      !Denied? && !Limited? && !Unavailable?
    }
  }

  /** The token the panel mints for an account. */
  function Mint(id: PanelId): Token {
    "token-" + id.name
  }

  function Fresh(id: PanelId, expires: Time, devices: int): Account {
    Account(true, Some(expires), devices, Some(Mint(id)))
  }

  function Page(order: seq<PanelId>, page: nat, limit: nat): seq<PanelId> {
    var from := if page == 0 then 0 else (page - 1) * limit;
    if page == 0 || from >= |order| then []
    else if from + limit <= |order| then order[from..from + limit]
    else order[from..]
  }

  lemma PageIsListed(order: seq<PanelId>, page: nat, limit: nat)
    ensures forall id | id in Page(order, page, limit) :: id in order
  {
  }

  /** What an honest panel does with a request that reaches it. Writing a state
      re-enables the account; there is no delete. */
  function Serve(db: PanelDb, request: Request): (PanelDb, Answer)
    requires db.Valid()
  {
    match request
    case Groups => (db, Group(db.hasGroup))
    case Create(id, expires, devices) =>
      if id in db.accounts then (db, Conflict)
      else
        var account := Fresh(id, expires, devices);
        (db.(accounts := db.accounts[id := account], order := db.order + [id]), One(account))
    case Fetch(id) =>
      (db, if id in db.accounts then One(db.accounts[id]) else NotFound)
    case SetState(id, expires, devices) =>
      if id !in db.accounts then (db, NotFound)
      else
        var account := db.accounts[id].(enabled := true, expires := Some(expires), devices := devices);
        (db.(accounts := db.accounts[id := account]), One(account))
    case Disable(id) =>
      if id !in db.accounts then (db, NotFound)
      else
        var account := db.accounts[id].(enabled := false);
        (db.(accounts := db.accounts[id := account]), One(account))
    case List(page, limit) =>
      PageIsListed(db.order, page, limit);
      var ids := Page(db.order, page, limit);
      var batch := seq(|ids|, i requires 0 <= i < |ids| => assert ids[i] in ids; (ids[i], db.accounts[ids[i]]));
      (db, Many(batch, |db.order|))
  }

  /** A request that took effect and is sent again changes nothing more. */
  lemma ServingTwiceIsServingOnce(db: PanelDb, request: Request)
    requires db.Valid()
    ensures Serve(db, request).0.Valid()
    ensures Serve(Serve(db, request).0, request).0 == Serve(db, request).0
    ensures !request.Create? ==> Serve(Serve(db, request).0, request).1 == Serve(db, request).1
    ensures request.Create? ==> Serve(Serve(db, request).0, request).1 == Conflict
  {
    if request.SetState? && request.id in db.accounts {
      var expires := Some(request.expires);
      var account := db.accounts[request.id].(enabled := true, expires := expires, devices := request.devices);
      assert db.accounts[request.id := account][request.id := account] == db.accounts[request.id := account];
    }
    if request.Disable? && request.id in db.accounts {
      var account := db.accounts[request.id].(enabled := false);
      assert db.accounts[request.id := account][request.id := account] == db.accounts[request.id := account];
    }
  }

  /** What the wire does to one attempt. `Vanished` loses only the answer. */
  datatype Wire = Carried | Dropped | Vanished | Throttled | Rejected
  {
    /** Retried by the client. */
    predicate Transient() {
      Dropped? || Vanished? || Throttled?
    }
  }

  class Server {
    var db: PanelDb
    var tick: nat
    const wire: nat -> Wire

    constructor (db: PanelDb, wire: nat -> Wire)
      ensures this.db == db && this.wire == wire && tick == 0
    {
      this.db, this.wire, tick := db, wire, 0;
    }

    /** From here on every attempt is answered. */
    ghost predicate Up()
      reads this
    {
      forall i: nat | i >= tick :: wire(i).Carried?
    }

    method Attempt(request: Request) returns (answer: Answer)
      requires db.Valid()
      modifies this
      ensures db.Valid() && tick == old(tick) + 1
      ensures db ==
              if wire(old(tick)).Carried? || wire(old(tick)).Vanished? then Serve(old(db), request).0 else old(db)
      ensures answer == match wire(old(tick))
                        case Carried => Serve(old(db), request).1
                        case Rejected => Denied
                        case Throttled => Limited
                        case _ => Unavailable
    {
      ServingTwiceIsServingOnce(db, request);
      match wire(tick) {
        case Carried =>
          var served := Serve(db, request);
          db, answer := served.0, served.1;
        case Vanished =>
          db, answer := Serve(db, request).0, Unavailable;
        case Dropped => answer := Unavailable;
        case Throttled => answer := Limited;
        case Rejected => answer := Denied;
      }
      tick := tick + 1;
    }
  }

  /** Answers a request may get when earlier attempts may already have landed. */
  ghost predicate Fits(db: PanelDb, request: Request, answer: Answer)
    requires db.Valid()
  {
    ServingTwiceIsServingOnce(db, request);
    answer == Serve(db, request).1 || answer == Serve(Serve(db, request).0, request).1
  }

  datatype Created = Created(account: Account, isNew: bool) | Failed(error: Answer)

  class Client {
    const server: Server
    const attempts: nat
    var groupKnown: bool

    constructor (server: Server, attempts: nat)
      ensures this.server == server && this.attempts == attempts && !groupKnown
    {
      this.server, this.attempts, groupKnown := server, attempts, false;
    }

    /** Retries transient failures only, and gives the last one back when it runs
        out of attempts. However many attempts vanished after taking effect, the
        panel is as it was or as one delivery leaves it. */
    method Request(request: Request) returns (answer: Answer)
      requires server.db.Valid()
      modifies server
      ensures server.db.Valid() && old(server.tick) <= server.tick <= old(server.tick) + attempts
      ensures server.db == old(server.db) || server.db == Serve(old(server.db), request).0
      ensures answer.Served() ==> server.db == Serve(old(server.db), request).0 && Fits(old(server.db), request, answer)
      ensures old(server.Up()) && attempts > 0 ==> answer == Serve(old(server.db), request).1 && server.Up()
      ensures forall i: nat | old(server.tick) <= i < server.tick - 1 :: server.wire(i).Transient()
      ensures attempts > 0 ==> server.tick > old(server.tick)
      ensures !answer.Served() && !answer.Denied? ==>
                server.tick == old(server.tick) + attempts
                && forall i: nat | old(server.tick) <= i < server.tick :: server.wire(i).Transient()
    {
      ServingTwiceIsServingOnce(server.db, request);
      answer := Unavailable;
      for attempt := 0 to attempts
        invariant server.db.Valid() && server.tick == old(server.tick) + attempt
        invariant server.db == old(server.db) || server.db == Serve(old(server.db), request).0
        invariant forall i: nat | old(server.tick) <= i < server.tick :: server.wire(i).Transient()
        invariant answer.Limited? || answer.Unavailable?
        invariant attempt == 0 ==> server.db == old(server.db)
        invariant old(server.Up()) ==> attempt == 0
      {
        answer := server.Attempt(request);
        if !answer.Limited? && !answer.Unavailable? {
          return;
        }
      }
    }

    /** The group id is looked up once and remembered; no error means it is known. */
    method ResolveGroup() returns (error: Option<Answer>)
      requires server.db.Valid()
      modifies this, server
      ensures server.db == old(server.db) && old(server.tick) <= server.tick <= old(server.tick) + attempts
      ensures error.None? <==> groupKnown
      ensures old(groupKnown) ==> groupKnown && server.tick == old(server.tick)
      ensures groupKnown ==> old(groupKnown) || server.db.hasGroup
      ensures old(server.Up()) && attempts > 0 ==>
                server.Up() && (groupKnown <==> old(groupKnown) || server.db.hasGroup)
    {
      if groupKnown {
        return None;
      }
      var answer := Request(Groups);
      if answer.Group? && answer.found {
        groupKnown := true;
        return None;
      }
      error := Some(if answer.Group? then NotFound else answer);
    }

    /** Create the account or fetch the one that is there: a conflict is how the
        panel says an earlier attempt, or somebody else, was first. */
    method CreateOrGet(id: PanelId, expires: Time, devices: int) returns (r: Created)
      requires server.db.Valid()
      modifies this, server
      ensures server.db.Valid() && old(server.tick) <= server.tick <= old(server.tick) + 3 * attempts
      ensures server.db == old(server.db) || server.db == Serve(old(server.db), Create(id, expires, devices)).0
      ensures r.Created? ==>
                && server.db == Serve(old(server.db), Create(id, expires, devices)).0
                && r.account == server.db.accounts[id]
                && (r.isNew ==> r.account == Fresh(id, expires, devices))
      ensures old(server.Up()) && attempts > 0 && (old(groupKnown) || old(server.db).hasGroup) ==>
                r.Created? && r.isNew == (id !in old(server.db).accounts) && server.Up()
      ensures old(groupKnown) ==> groupKnown
    {
      var create := Create(id, expires, devices);
      ServingTwiceIsServingOnce(server.db, create);
      var error := ResolveGroup();
      if error.Some? {
        return Failed(error.value);
      }
      var answer := Request(create);
      if answer.One? {
        return Created(answer.account, true);
      }
      if !answer.Conflict? {
        return Failed(answer);
      }
      var existing := Request(Fetch(id));
      if existing.One? {
        return Created(existing.account, false);
      }
      r := Failed(if existing.NotFound? then Conflict else existing);
    }
  }
}
