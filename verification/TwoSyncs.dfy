// Two syncs of a server that each get the same new account from WHM, interleaved so that one fails although WHM
// answered both (src/backend/services/hosting-sync.service.ts:66-118).
module TwoSyncs {
  import opened Json
  import opened Crypto
  import opened Store
  import opened WhmAccounts
  import opened Repositories
  import opened Services
  import opened Sync
  import opened Requests
  import opened Plans
  import opened Obedience
  import opened Interleaving
  import PlansAlone

  function Two(s: Store, t: string, p: Plan, q: Plan): World { World(s, [Job(t, p), Job(t, q)]) }

  ghost predicate Leads(w: World, schedule: seq<Tick>, end: World) { Runnable(w, schedule) && Exec(w, schedule) == end }

  lemma Stays(w: World)
    ensures Leads(w, [], w)
  {
  }

  lemma {:induction false} LeadsOn(w: World, one: seq<Tick>, mid: World, two: seq<Tick>, end: World)
    requires Leads(w, one, mid) && Leads(mid, two, end)
    ensures Leads(w, one + two, end)
    decreases |one|
  {
    if one == [] {
      assert one + two == two;
    } else {
      hide Ready, Turn;
      LeadsOn(Turn(w, one[0]), one[1..], mid, two, end);
      assert (one + two)[0] == one[0] && (one + two)[1..] == one[1..] + two;
    }
  }

  lemma FirstMoves(s: Store, t: string, p: Plan, q: Plan, v: Id, call: Call)
    requires p.Ask? && p.call(v) == call && Fresh(s, v)
    ensures Leads(Two(s, t, p, q), [Tick(0, v)], Two(Apply(s, call), t, p.next(Answer(s, call)), q))
  {
    hide Apply, Answer;
    var w, tick := Two(s, t, p, q), Tick(0, v);
    assert Turn(w, tick) == Two(Apply(s, call), t, p.next(Answer(s, call)), q);
    Stays(Turn(w, tick));
    assert [tick][1..] == [];
  }

  lemma SecondMoves(s: Store, t: string, p: Plan, q: Plan, v: Id, call: Call)
    requires q.Ask? && q.call(v) == call && Fresh(s, v)
    ensures Leads(Two(s, t, p, q), [Tick(1, v)], Two(Apply(s, call), t, p, q.next(Answer(s, call))))
  {
    hide Apply, Answer;
    var w, tick := Two(s, t, p, q), Tick(1, v);
    assert Turn(w, tick) == Two(Apply(s, call), t, p, q.next(Answer(s, call)));
    Stays(Turn(w, tick));
    assert [tick][1..] == [];
  }

  // ----- One sync's turns -----

  // A sync of the server that WHM tells of one account.
  datatype Syncing = Syncing(c: Service, env: Env, t: string, id: Id, token: Id, account: Parsed)

  function Asking(y: Syncing): Plan { Plans.SyncServer(y.c, y.env, y.t, y.id) }

  function Importing(y: Syncing): Plan { Plans.Record(y.env, y.t, y.id, Reached(y.token, [y.account]), Finish()) }

  function Marking(y: Syncing): Plan { Reachable(y.env, y.t, y.id, y.token, Finish()) }

  function Failing(y: Syncing): Plan { Caught(y.env, y.t, y.id, "Sync failed.", UniqueKeyViolated, Finish()) }

  function Inserting(y: Syncing): Plan {
    InsertUser(y.t, y.id, y.account, y.env.at(y.id), Marking(y), Failing(y))
  }

  function InsertOf(y: Syncing, own: Id): Call {
    InsertAccount(y.t, own, y.id, y.account.cpanelUser, y.account.fields, y.env.at(y.id))
  }

  // In this state the sync, by itself, would reach the server's WHM.
  ghost predicate Reaching(y: Syncing, s: Store) {
    Decide(y.c, y.env, s, y.t, y.id) == Reached(y.token, [y.account])
  }

  lemma Pulls(y: Syncing, s: Store)
    requires Reaching(y, s)
    ensures LiveServer(s, y.t, y.id) && LiveToken(s, y.t, y.token)
    ensures ActiveToken(s.tokens, y.t, y.id, WHM, y.env.choose) == Some(y.token)
    ensures Pull(y.c, y.env, y.t, y.id, Finish())(s.servers[y.id], y.token, s.tokens[y.token]) == Importing(y)
  {
    hide Plans.Record, Judge, Decrypt;
    assert LiveServer(s, y.t, y.id);
    var i := ActiveToken(s.tokens, y.t, y.id, WHM, y.env.choose).value;
    var secret := Decrypt(y.c, s.tokens[i].tokenEnc, s.tokens[i].keyId).value;
    assert Heard(y.env, y.id, s.servers[y.id], i, s.tokens[i], secret) == Reached(y.token, [y.account]);
  }

  function AskingToken(y: Syncing, s: Store): Plan
    requires y.id in s.servers
  {
    WithToken(y.env.choose, y.t, y.id, s.servers[y.id], Pull(y.c, y.env, y.t, y.id, Finish()), Finish())
  }

  lemma LooksUp(y: Syncing, s: Store, v: Id)
    requires Reaching(y, s)
    ensures LiveServer(s, y.t, y.id) && LiveToken(s, y.t, y.token)
    ensures var call := Plans.FindServer(y.t, y.id);
      Asking(y).Ask? && Asking(y).call(v) == call && Asking(y).next(Answer(s, call)) == AskingToken(y, s) &&
        Apply(s, call) == s
    ensures var p, call := AskingToken(y, s), ActiveWhmTokens(y.t, y.id);
      p.Ask? && p.call(v) == call && p.next(Answer(s, call)) == Importing(y) && Apply(s, call) == s
  {
    Pulls(y, s);
    PlansAlone.ServerAnswer(s, y.t, y.id);
    PlansAlone.WhmTokensAnswer(s, y.t, y.id);
    hide Answer, Apply, Plans.Record, Judge, Reaching, Pull, Decrypt, Importing;
  }

  lemma FindsNone(y: Syncing, s: Store, v: Id)
    requires !UserTaken(s, y.t, y.id, y.account.cpanelUser)
    ensures Importing(y).Ask? && Importing(y).call(v) == FindByUser(y.t, y.id, y.account.cpanelUser)
    ensures var call := FindByUser(y.t, y.id, y.account.cpanelUser);
      Importing(y).next(Answer(s, call)) == Inserting(y) && Apply(s, call) == s
  {
    var call := FindByUser(y.t, y.id, y.account.cpanelUser);
    PlansAlone.FoundByUser(s, y.t, y.id, y.account.cpanelUser);
    var found := Answer(s, call).accounts;
    assert forall i :: i in found ==> UserTaken(s, y.t, y.id, y.account.cpanelUser);
    hide Answer, Apply;
    assert Import(y.env.choose, y.t, y.id, [y.account], 1, y.env.at(y.id), Marking(y), Failing(y)) == Marking(y);
  }

  lemma Inserts(y: Syncing, s: Store, u: Id)
    requires !UserTaken(s, y.t, y.id, y.account.cpanelUser) && y.id in s.servers
    ensures Inserting(y).Ask? && Inserting(y).call(u) == InsertOf(y, u)
    ensures Inserting(y).next(Answer(s, InsertOf(y, u))) == Marking(y)
    ensures var s' := Apply(s, InsertOf(y, u));
      && s'.servers == s.servers && s'.tokens == s.tokens && s'.accounts.Keys == s.accounts.Keys + {u}
      && UserTaken(s', y.t, y.id, y.account.cpanelUser)
  {
    assert u in Apply(s, InsertOf(y, u)).accounts;
  }

  lemma InsertFails(y: Syncing, s: Store, v: Id)
    requires UserTaken(s, y.t, y.id, y.account.cpanelUser)
    ensures Inserting(y).Ask? && Inserting(y).call(v) == InsertOf(y, v)
    ensures Inserting(y).next(Answer(s, InsertOf(y, v))) == Failing(y) && Apply(s, InsertOf(y, v)) == s
  {
  }

  // ----- Both syncs -----

  function Lookups(v: Id): seq<Tick> { [Tick(0, v), Tick(0, v)] + [Tick(1, v), Tick(1, v)] + [Tick(0, v), Tick(1, v)] }

  function Writes(u: Id, v: Id): seq<Tick> {
    [Tick(0, u), Tick(1, v)] + [Tick(0, v), Tick(0, v), Tick(0, v)] + [Tick(1, v), Tick(1, v)]
  }

  lemma FirstLooksUp(y: Syncing, s: Store, q: Plan, v: Id)
    requires Reaching(y, s) && Fresh(s, v)
    ensures Leads(Two(s, y.t, Asking(y), q), [Tick(0, v), Tick(0, v)], Two(s, y.t, Importing(y), q))
  {
    hide Asking, AskingToken, Importing, Two, Answer, Apply, Leads, Reaching, Fresh, Plans.FindServer, ActiveWhmTokens;
    LooksUp(y, s, v);
    FirstMoves(s, y.t, Asking(y), q, v, Plans.FindServer(y.t, y.id));
    FirstMoves(s, y.t, AskingToken(y, s), q, v, ActiveWhmTokens(y.t, y.id));
    LeadsOn(Two(s, y.t, Asking(y), q), [Tick(0, v)], Two(s, y.t, AskingToken(y, s), q), [Tick(0, v)],
            Two(s, y.t, Importing(y), q));
    assert [Tick(0, v)] + [Tick(0, v)] == [Tick(0, v), Tick(0, v)];
  }

  lemma SecondLooksUp(z: Syncing, s: Store, p: Plan, v: Id)
    requires Reaching(z, s) && Fresh(s, v)
    ensures Leads(Two(s, z.t, p, Asking(z)), [Tick(1, v), Tick(1, v)], Two(s, z.t, p, Importing(z)))
  {
    hide Asking, AskingToken, Importing, Two, Answer, Apply, Leads, Reaching, Fresh, Plans.FindServer, ActiveWhmTokens;
    LooksUp(z, s, v);
    SecondMoves(s, z.t, p, Asking(z), v, Plans.FindServer(z.t, z.id));
    SecondMoves(s, z.t, p, AskingToken(z, s), v, ActiveWhmTokens(z.t, z.id));
    LeadsOn(Two(s, z.t, p, Asking(z)), [Tick(1, v)], Two(s, z.t, p, AskingToken(z, s)), [Tick(1, v)],
            Two(s, z.t, p, Importing(z)));
    assert [Tick(1, v)] + [Tick(1, v)] == [Tick(1, v), Tick(1, v)];
  }

  lemma BothFindNone(y: Syncing, z: Syncing, s: Store, v: Id)
    requires z.t == y.t && Fresh(s, v)
    requires !UserTaken(s, y.t, y.id, y.account.cpanelUser) && !UserTaken(s, y.t, z.id, z.account.cpanelUser)
    ensures Leads(Two(s, y.t, Importing(y), Importing(z)), [Tick(0, v), Tick(1, v)],
                  Two(s, y.t, Inserting(y), Inserting(z)))
  {
    FindsNone(y, s, v);
    FindsNone(z, s, v);
    hide Importing, Inserting, Two, Answer, Apply, Leads, Fresh, UserTaken;
    FirstMoves(s, y.t, Importing(y), Importing(z), v, FindByUser(y.t, y.id, y.account.cpanelUser));
    SecondMoves(s, y.t, Inserting(y), Importing(z), v, FindByUser(y.t, z.id, z.account.cpanelUser));
    LeadsOn(Two(s, y.t, Importing(y), Importing(z)), [Tick(0, v)], Two(s, y.t, Inserting(y), Importing(z)),
            [Tick(1, v)],
            Two(s, y.t, Inserting(y), Inserting(z)));
    assert [Tick(0, v)] + [Tick(1, v)] == [Tick(0, v), Tick(1, v)];
  }

  lemma BothInsert(y: Syncing, z: Syncing, s: Store, u: Id, v: Id)
    requires z.t == y.t && z.id == y.id && z.account.cpanelUser == y.account.cpanelUser && Fresh(s, u) && Fresh(s, v) &&
             u != v
    requires !UserTaken(s, y.t, y.id, y.account.cpanelUser) && y.id in s.servers
    ensures var s' := Apply(s, InsertOf(y, u));
      && Leads(Two(s, y.t, Inserting(y), Inserting(z)), [Tick(0, u), Tick(1, v)], Two(s', y.t, Marking(y), Failing(z)))
      && s'.servers == s.servers && s'.tokens == s.tokens && Fresh(s', v)
  {
    var s' := Apply(s, InsertOf(y, u));
    Inserts(y, s, u);
    assert Fresh(s', v);
    InsertFails(z, s', v);
    hide Inserting, Marking, Failing, Two, Answer, Apply, Leads, Fresh, UserTaken, InsertOf;
    FirstMoves(s, y.t, Inserting(y), Inserting(z), u, InsertOf(y, u));
    SecondMoves(s', y.t, Marking(y), Inserting(z), v, InsertOf(z, v));
    LeadsOn(Two(s, y.t, Inserting(y), Inserting(z)), [Tick(0, u)], Two(s', y.t, Marking(y), Inserting(z)), [Tick(1, v)],
            Two(s', y.t, Marking(y), Failing(z)));
    assert [Tick(0, u)] + [Tick(1, v)] == [Tick(0, u), Tick(1, v)];
  }

  function Marked(y: Syncing, s: Store): Store
    requires y.id in s.servers && y.token in s.tokens
  {
    WithStatus(WithUse(s, y.token, y.env.at(y.id)), y.id, ACTIVE, None, y.env.at(y.id))
  }

  function StatusPlan(y: Syncing): Plan {
    Plans.SetServerStatus(y.t, y.id, ACTIVE, None, y.env.at(y.id), Plans.Done())
  }

  lemma FirstMarks(y: Syncing, s: Store, q: Plan, v: Id)
    requires LiveServer(s, y.t, y.id) && LiveToken(s, y.t, y.token) && Fresh(s, v)
    ensures Leads(Two(s, y.t, Marking(y), q), [Tick(0, v), Tick(0, v), Tick(0, v)],
                  Two(Marked(y, s), y.t, Plans.Done(), q))
    ensures LiveServer(Marked(y, s), y.t, y.id) && Fresh(Marked(y, s), v)
  {
    var at := y.env.at(y.id);
    var used := WithUse(s, y.token, at);
    var stamp, mark, read :=
        MarkUsed(y.t, y.token, at), SetStatus(y.t, y.id, ACTIVE, None, at), Plans.FindServer(y.t, y.id);
    var r1, r2, r3 := Answer(s, stamp), Answer(used, mark), Answer(Marked(y, s), read);
    assert Apply(s, stamp) == used && Apply(used, mark) == Marked(y, s) && Apply(Marked(y, s), read) == Marked(y, s);
    assert Fresh(used, v) && Fresh(Marked(y, s), v) && LiveServer(Marked(y, s), y.t, y.id);
    assert r2 == Count(1);
    var reading := StatusPlan(y).next(r2);
    assert reading.Ask? && reading.call(v) == read && reading.next(r3) == Plans.Done();
    assert Marking(y).Ask? && Marking(y).call(v) == stamp && Marking(y).next(r1) == StatusPlan(y);
    assert StatusPlan(y).Ask? && StatusPlan(y).call(v) == mark;
    hide Marking, StatusPlan, Marked, Two, Answer, Apply, Leads, Fresh, WithUse, Plans.FindServer;
    FirstMoves(s, y.t, Marking(y), q, v, stamp);
    FirstMoves(used, y.t, StatusPlan(y), q, v, mark);
    FirstMoves(Marked(y, s), y.t, reading, q, v, read);
    LeadsOn(Two(s, y.t, Marking(y), q), [Tick(0, v)], Two(used, y.t, StatusPlan(y), q), [Tick(0, v)],
            Two(Marked(y, s), y.t, reading, q));
    LeadsOn(Two(s, y.t, Marking(y), q), [Tick(0, v)] + [Tick(0, v)], Two(Marked(y, s), y.t, reading, q), [Tick(0, v)],
            Two(Marked(y, s), y.t, Plans.Done(), q));
    assert [Tick(0, v)] + [Tick(0, v)] + [Tick(0, v)] == [Tick(0, v), Tick(0, v), Tick(0, v)];
  }

  function Unmarked(z: Syncing, s: Store): Store
    requires z.id in s.servers
  {
    WithStatus(s, z.id, UNREACHABLE, Some("Sync failed."), z.env.at(z.id))
  }

  lemma SecondMarks(z: Syncing, s: Store, p: Plan, v: Id)
    requires LiveServer(s, z.t, z.id) && Fresh(s, v)
    ensures Leads(Two(s, z.t, p, Failing(z)), [Tick(1, v), Tick(1, v)],
                  Two(Unmarked(z, s), z.t, p, Fails(UniqueKeyViolated)))
  {
    var mark, read :=
        SetStatus(z.t, z.id, UNREACHABLE, Some("Sync failed."), z.env.at(z.id)), Plans.FindServer(z.t, z.id);
    var s' := Unmarked(z, s);
    assert Apply(s, mark) == s' && Apply(s', read) == s' && Fresh(s', v);
    assert Answer(s, mark) == Count(1);
    var reading := Failing(z).next(Count(1));
    assert reading.Ask? && reading.call(v) == read && reading.next(Answer(s', read)) == Fails(UniqueKeyViolated);
    assert Failing(z).Ask? && Failing(z).call(v) == mark;
    hide Failing, Unmarked, Two, Answer, Apply, Leads, Fresh, Plans.FindServer;
    SecondMoves(s, z.t, p, Failing(z), v, mark);
    SecondMoves(s', z.t, p, reading, v, read);
    LeadsOn(Two(s, z.t, p, Failing(z)), [Tick(1, v)], Two(s', z.t, p, reading), [Tick(1, v)],
            Two(s', z.t, p, Fails(UniqueKeyViolated)));
    assert [Tick(1, v)] + [Tick(1, v)] == [Tick(1, v), Tick(1, v)];
  }

  lemma TurnsLookUp(y: Syncing, z: Syncing, s: Store, v: Id)
    requires Reaching(y, s) && Reaching(z, s) && z.t == y.t && Fresh(s, v)
    requires !UserTaken(s, y.t, y.id, y.account.cpanelUser) && !UserTaken(s, y.t, z.id, z.account.cpanelUser)
    ensures Leads(Two(s, y.t, Asking(y), Asking(z)), Lookups(v), Two(s, y.t, Inserting(y), Inserting(z)))
  {
    hide Asking, Importing, Inserting, Two, Leads, Reaching, Fresh, UserTaken;
    FirstLooksUp(y, s, Asking(z), v);
    SecondLooksUp(z, s, Importing(y), v);
    BothFindNone(y, z, s, v);
    var w, between := Two(s, y.t, Asking(y), Asking(z)), Two(s, y.t, Importing(y), Importing(z));
    LeadsOn(w, [Tick(0, v), Tick(0, v)], Two(s, y.t, Importing(y), Asking(z)), [Tick(1, v), Tick(1, v)], between);
    LeadsOn(w, [Tick(0, v), Tick(0, v)] + [Tick(1, v), Tick(1, v)], between, [Tick(0, v), Tick(1, v)],
            Two(s, y.t, Inserting(y), Inserting(z)));
  }

  function Ended(y: Syncing, z: Syncing, s: Store, u: Id): Store
    requires y.id in s.servers && y.token in s.tokens && z.id == y.id
  {
    var s' := Store(s.servers, s.tokens, AccountsAfter(s, InsertOf(y, u)));
    Unmarked(z, Marked(y, s'))
  }

  lemma InsertOnly(y: Syncing, s: Store, u: Id)
    ensures Apply(s, InsertOf(y, u)) == Store(s.servers, s.tokens, AccountsAfter(s, InsertOf(y, u)))
  {
  }

  lemma TurnsWrite(y: Syncing, z: Syncing, s: Store, u: Id, v: Id)
    requires z.t == y.t && z.id == y.id && z.account.cpanelUser == y.account.cpanelUser && Fresh(s, u) && Fresh(s, v) &&
             u != v
    requires !UserTaken(s, y.t, y.id, y.account.cpanelUser) && LiveServer(s, y.t, y.id) && LiveToken(s, y.t, y.token)
    ensures Leads(Two(s, y.t, Inserting(y), Inserting(z)), Writes(u, v),
                  Two(Ended(y, z, s, u), y.t, Plans.Done(), Fails(UniqueKeyViolated)))
  {
    var s' := Apply(s, InsertOf(y, u));
    InsertOnly(y, s, u);
    hide Inserting, Marking, Failing, Two, Leads, Fresh, UserTaken, Apply, Marked, Unmarked, InsertOf, AccountsAfter;
    BothInsert(y, z, s, u, v);
    FirstMarks(y, s', Failing(z), v);
    SecondMarks(z, Marked(y, s'), Plans.Done(), v);
    var w, between := Two(s, y.t, Inserting(y), Inserting(z)), Two(Marked(y, s'), y.t, Plans.Done(), Failing(z));
    LeadsOn(w, [Tick(0, u), Tick(1, v)], Two(s', y.t, Marking(y), Failing(z)), [Tick(0, v), Tick(0, v), Tick(0, v)],
            between);
    LeadsOn(w, [Tick(0, u), Tick(1, v)] + [Tick(0, v), Tick(0, v), Tick(0, v)], between, [Tick(1, v), Tick(1, v)],
            Two(Ended(y, z, s, u), y.t, Plans.Done(), Fails(UniqueKeyViolated)));
  }

  // By itself this sync would reach the server, and WHM would tell it of one account.
  ghost predicate WouldReach(s: Store, ticket: Ticket, token: Id, account: Parsed) {
    && ticket.request.SyncServer?
    && Decide(ticket.request.c, EnvOf(ticket), s, ticket.request.t, ticket.request.id) == Reached(token, [account])
  }

  function SyncingOf(ticket: Ticket, token: Id, account: Parsed): Syncing
    requires ticket.request.SyncServer?
  {
    Syncing(ticket.request.c, EnvOf(ticket), ticket.request.t, ticket.request.id, token, account)
  }

  lemma OpenTwo(s: Store, one: Ticket, two: Ticket, y: Syncing, z: Syncing, token: Id, token': Id, account: Parsed,
          account': Parsed)
    requires WouldReach(s, one, token, account) && WouldReach(s, two, token', account') &&
             one.request.t == two.request.t
    requires y == SyncingOf(one, token, account) && z == SyncingOf(two, token', account')
    ensures Open(s, [one, two]) == Two(s, one.request.t, Asking(y), Asking(z)) && Reaching(y, s) && Reaching(z, s)
  {
    hide Decide;
    assert PlanOf(one) == Asking(y) && PlanOf(two) == Asking(z);
    hide PlanOf;
    JobOf(s, [one, two], 0);
    JobOf(s, [one, two], 1);
  }

  // Either sync, by itself, would reach the server and find a new account there, of the same user. Taking turns like
  // this, the first succeeds, and the second ends with a violated key and leaves the server UNREACHABLE.
  lemma OneFails(s: Store, one: Ticket, two: Ticket, token: Id, token': Id, account: Parsed, account': Parsed, u: Id,
          v: Id)
    requires WouldReach(s, one, token, account) && WouldReach(s, two, token', account')
    requires one.request.t == two.request.t && one.request.id == two.request.id &&
             account.cpanelUser == account'.cpanelUser
    requires !UserTaken(s, one.request.t, one.request.id, account.cpanelUser) && Fresh(s, u) && Fresh(s, v) && u != v
    ensures var w, schedule, id := Open(s, [one, two]), Lookups(v) + Writes(u, v), one.request.id;
      && Runnable(w, schedule)
      && var end := Exec(w, schedule);
         && |end.jobs| == 2 && end.jobs[0].plan == Plans.Done() && end.jobs[1].plan == Fails(UniqueKeyViolated)
         && id in end.store.servers && end.store.servers[id].status == UNREACHABLE
         && end.store.servers[id].lastError == Some("Sync failed.") &&
            end.store.servers[id].lastCheckedAt == Some(two.at)
  {
    var y, z := SyncingOf(one, token, account), SyncingOf(two, token', account');
    OpenTwo(s, one, two, y, z, token, token', account, account');
    assert z.env.at(z.id) == two.at;
    hide WouldReach, Open, UserTaken, Fresh, Lookups, Writes, Reaching, Asking, Inserting;
    LooksUp(y, s, v);
    TurnsLookUp(y, z, s, v);
    TurnsWrite(y, z, s, u, v);
    hide Runnable, Exec;
    JoinedTurns(y, z, s, u, v);
  }

  lemma JoinedTurns(y: Syncing, z: Syncing, s: Store, u: Id, v: Id)
    requires y.id in s.servers && y.token in s.tokens && z.id == y.id
    requires Leads(Two(s, y.t, Asking(y), Asking(z)), Lookups(v), Two(s, y.t, Inserting(y), Inserting(z)))
    requires Leads(Two(s, y.t, Inserting(y), Inserting(z)), Writes(u, v),
                   Two(Ended(y, z, s, u), y.t, Plans.Done(), Fails(UniqueKeyViolated)))
    ensures var w, schedule := Two(s, y.t, Asking(y), Asking(z)), Lookups(v) + Writes(u, v);
      Runnable(w, schedule) && Exec(w, schedule) == Two(Ended(y, z, s, u), y.t, Plans.Done(), Fails(UniqueKeyViolated))
  {
    hide Lookups, Writes, Two, Ended, Asking, Inserting, Runnable, Exec;
    LeadsOn(Two(s, y.t, Asking(y), Asking(z)), Lookups(v), Two(s, y.t, Inserting(y), Inserting(z)), Writes(u, v),
            Two(Ended(y, z, s, u), y.t, Plans.Done(), Fails(UniqueKeyViolated)));
  }
}
