/** From the first packet to the lobby and into the world: what a client brings about. */
module Admission {
  import opened Basics
  import opened Protocol
  import opened Codec
  import opened Database
  import opened Sessions
  import opened ServerSteps
  import opened SessionInvariant
  import opened RequestPackets
  import opened ServerRuns

  // ---------------------------------------------------------------- The first packet

  /** Only this session has changed. */
  predicate OnlySession(v: Server, sid: nat, v': Server) {
    && v'.world == v.world && v'.now == v.now && sid in v'.sessions
    && v'.sessions == v.sessions[sid := v'.sessions[sid]]
  }

  /** The session was closed, after these packets. */
  predicate ClosedAfter(s: Session, s': Session, ps: seq<Packet>) {
    && !s'.open && s'.closes == s.closes + 1 && s'.tasks == [RunFinalize] && s'.awaiting == s.awaiting
    && s'.current == s.current && s'.sent == s.sent + ps
  }

  lemma HelloStep(v: Server, sid: nat, data: Text, verdict: Option<nat>)
    requires Waiting(v, sid) && v.sessions[sid].current.Preauth? && |data| > 0 && AccountIsFree(v, verdict)
    ensures Possible(v, Run(sid, 0, Arrives(data, verdict, [])))
    ensures var step := Step(v, Run(sid, 0, Arrives(data, verdict, [])));
            && step.Goes? && OnlySession(v, sid, step.server)
            && step.server.sessions[sid] == AfterHello(Busy(v.sessions[sid]), data, verdict, v.nextLobby)
            && step.server.nextLobby == v.nextLobby + 1
  {
    assert Good(v.world, v.sessions[sid]);
    OnlyTask(v.sessions[sid], 0);
  }

  /** A key of 64 bytes that the validator takes: good keys, and the lobby of that account is on its way. */
  lemma HelloAdmits(v: Server, sid: nat, data: Text, key: Text, login: Text, account: nat)
    requires Waiting(v, sid) && v.sessions[sid].current.Preauth? && AccountIsFree(v, Some(account))
    requires |data| <= BUFFER_SIZE && Begins(data, HelloFields(key, login)) && |key| == 64
    ensures |data| > 0
    ensures var step := Step(v, Run(sid, 0, Arrives(data, Some(account), [])));
            && step.Goes? && OnlySession(v, sid, step.server)
            && var s, s' := v.sessions[sid], step.server.sessions[sid];
               && s'.open && s'.closes == s.closes && s'.current == s.current
               && s'.sent == s.sent + [GoodKeys]
               && s'.tasks == [RunTransition] && s'.awaiting == Some(Lobby(v.nextLobby, account, []))
  {
    HelloIsLong(data, key, login);
    HelloStep(v, sid, data, Some(account));
    HelloReadsExactly(data, key, login);
  }

  lemma HelloIsLong(data: Text, key: Text, login: Text)
    requires Begins(data, HelloFields(key, login))
    ensures |data| > 0
  {
    EncodeOneMore(Plain(OPCODE, 0), [Str(key), Str(login)]);
    assert [Plain(OPCODE, 0)] + [Str(key), Str(login)] == HelloFields(key, login);
  }

  /** A key of 64 bytes that the validator does not take: bad keys, and closed. */
  lemma HelloRefuses(v: Server, sid: nat, data: Text, key: Text, login: Text)
    requires Waiting(v, sid) && v.sessions[sid].current.Preauth?
    requires |data| <= BUFFER_SIZE && Begins(data, HelloFields(key, login)) && |key| == 64
    ensures |data| > 0
    ensures var step := Step(v, Run(sid, 0, Arrives(data, None, [])));
            && step.Goes? && OnlySession(v, sid, step.server)
            && ClosedAfter(v.sessions[sid], step.server.sessions[sid], [BadKeys])
  {
    HelloIsLong(data, key, login);
    HelloStep(v, sid, data, None);
    HelloReadsExactly(data, key, login);
  }

  /** A key of another length, or a hello that breaks off: closed, with nothing sent. */
  lemma BadHelloCloses(v: Server, sid: nat, data: Text, key: Text, login: Text, verdict: Option<nat>)
    requires Waiting(v, sid) && v.sessions[sid].current.Preauth? && AccountIsFree(v, verdict)
    requires 0 < |data| <= BUFFER_SIZE
    requires || (Begins(data, HelloFields(key, login)) && |key| != 64)
             || (BreaksOff(data, HelloFields(key, login)) && ShortTexts(HelloFields(key, login)))
    ensures var step := Step(v, Run(sid, 0, Arrives(data, verdict, [])));
            && step.Goes? && OnlySession(v, sid, step.server)
            && ClosedAfter(v.sessions[sid], step.server.sessions[sid], [])
  {
    HelloStep(v, sid, data, verdict);
    if Begins(data, HelloFields(key, login)) && |key| != 64 {
      HelloReadsExactly(data, key, login);
    } else {
      CutHelloIsBad(data, key, login);
    }
    assert v.sessions[sid].sent + [] == v.sessions[sid].sent;
  }

  /** Any other opcode: bad keys, and closed. */
  lemma UnknownHelloCloses(v: Server, sid: nat, data: Text, verdict: Option<nat>)
    requires Waiting(v, sid) && v.sessions[sid].current.Preauth? && AccountIsFree(v, verdict)
    requires |data| > 0 && data[0] != 0
    ensures var step := Step(v, Run(sid, 0, Arrives(data, verdict, [])));
            && step.Goes? && OnlySession(v, sid, step.server)
            && ClosedAfter(v.sessions[sid], step.server.sessions[sid], [BadKeys])
  {
    HelloStep(v, sid, data, verdict);
    OtherOpcodes(data);
  }

  // ---------------------------------------------------------------- A run, event by event

  lemma OneMoreEvent(v: Server, e: GameEvent, v1: Server, rest: History)
    requires Possible(v, e) && Step(v, e) == Goes(v1) && CanHappen(v1, rest)
    ensures CanHappen(v, [At(v.now, e)] + rest) && StateAfter(v, [At(v.now, e)] + rest) == StateAfter(v1, rest)
  {
    var run := [At(v.now, e)] + rest;
    assert run[0] == At(v.now, e) && run[1..] == rest && v.(now := run[0].time) == v;
  }

  /** The run leads from the one state to the other. */
  ghost predicate Leads(v: Server, run: History, v': Server) {
    CanHappen(v, run) && StateAfter(v, run) == Goes(v')
  }

  lemma LeadsOnward(v: Server, e: GameEvent, v1: Server, rest: History, v': Server)
    requires Possible(v, e) && Step(v, e) == Goes(v1) && Leads(v1, rest, v')
    ensures Leads(v, [At(v.now, e)] + rest, v')
  {
    OneMoreEvent(v, e, v1, rest);
  }

  lemma PutTwice(v: Server, sid: nat, a: Session, b: Session)
    ensures Put(Put(v, sid, a), sid, b) == Put(v, sid, b)
  {
    assert v.sessions[sid := a][sid := b] == v.sessions[sid := b];
  }

  // ---------------------------------------------------------------- Into the lobby

  /** The session when the client has been admitted, when it is in the lobby and something is under way, and when the
      lobby waits for a packet. */
  function Admitted(id: nat, account: nat): Session {
    Session(true, 0, Preauth, Some(Lobby(id, account, [])), StateTransition, [RunTransition], [GoodKeys])
  }

  function Arrived(id: nat, account: nat, task: Task): Session {
    Session(true, 0, Lobby(id, account, []), None, PacketPoll, [task], [GoodKeys])
  }

  function InLobby(id: nat, account: nat, rows: seq<Entity>): Session {
    Session(true, 0, Lobby(id, account, rows), None, PacketPoll, [Recv], [GoodKeys, CharacterList(rows)])
  }

  /** The list is sent, after the rows have come, after the state was entered, after the hello, after the accept. */
  function Listing(now: int, sid: nat): History {
    [At(now, Run(sid, 0, Nothing))] + []
  }

  function Querying(now: int, sid: nat, rows: seq<Entity>): History {
    [At(now, Run(sid, 0, Returns(rows)))] + Listing(now, sid)
  }

  function Arriving(now: int, sid: nat, rows: seq<Entity>): History {
    [At(now, Run(sid, 0, Visits([])))] + Querying(now, sid, rows)
  }

  function Greeting(now: int, sid: nat, hello: Text, account: nat, rows: seq<Entity>): History {
    [At(now, Run(sid, 0, Arrives(hello, Some(account), [])))] + Arriving(now, sid, rows)
  }

  function IntoLobby(now: int, sid: nat, hello: Text, account: nat, rows: seq<Entity>): History {
    [At(now, Accept(sid))] + Greeting(now, sid, hello, account, rows)
  }

  lemma ListedSession(id: nat, account: nat, rows: seq<Entity>)
    ensures Arm(Send(Relisted(Busy(Arrived(id, account, Completion(id, rows))), rows), CharacterList(rows)))
         == InLobby(id, account, rows)
  {
    assert [GoodKeys] + [CharacterList(rows)] == [GoodKeys, CharacterList(rows)];
  }

  lemma ListingLeads(v: Server, sid: nat, id: nat, account: nat, rows: seq<Entity>)
    ensures Leads(Put(v, sid, Arrived(id, account, Completion(id, rows))), Listing(v.now, sid),
                  Put(v, sid, InLobby(id, account, rows)))
  {
    var s := Arrived(id, account, Completion(id, rows));
    var v1, v' := Put(v, sid, s), Put(v, sid, InLobby(id, account, rows));
    assert Taken(s, 0) == Busy(s);
    ListedSession(id, account, rows);
    PutTwice(v, sid, s, Busy(s));
    PutTwice(v, sid, Busy(s), InLobby(id, account, rows));
    assert Step(v1, Run(sid, 0, Nothing)) == Goes(v');
    assert Leads(v', [], v');
    LeadsOnward(v1, Run(sid, 0, Nothing), v', [], v');
  }

  lemma QueryingLeads(v: Server, sid: nat, id: nat, account: nat, rows: seq<Entity>)
    requires Enumerates(rows, Owned(v.world.social.tables, account))
    ensures Leads(Put(v, sid, Arrived(id, account, Query(id, account))), Querying(v.now, sid, rows),
                  Put(v, sid, InLobby(id, account, rows)))
  {
    var s, s' := Arrived(id, account, Query(id, account)), Arrived(id, account, Completion(id, rows));
    assert Taken(s, 0) == Busy(s) && Posted(Busy(s), Completion(id, rows)) == s';
    PutTwice(v, sid, s, Busy(s));
    PutTwice(v, sid, Busy(s), s');
    ListingLeads(v, sid, id, account, rows);
    LeadsOnward(Put(v, sid, s), Run(sid, 0, Returns(rows)), Put(v, sid, s'), Listing(v.now, sid),
                Put(v, sid, InLobby(id, account, rows)));
  }

  lemma ArrivedSession(id: nat, account: nat)
    ensures MoveOn(Busy(Admitted(id, account)).(current := Null)) == Arrived(id, account, Query(id, account))
  {
  }

  lemma ArrivalStep(v: Server, sid: nat, id: nat, account: nat)
    ensures var v1 := Put(v, sid, Admitted(id, account));
            && Possible(v1, Run(sid, 0, Visits([])))
            && Step(v1, Run(sid, 0, Visits([]))) == Goes(Put(v, sid, Arrived(id, account, Query(id, account))))
  {
    var s := Admitted(id, account);
    assert Taken(s, 0) == Busy(s);
    ArrivedSession(id, account);
    PutTwice(v, sid, s, Busy(s));
    PutTwice(v, sid, Busy(s), Busy(s).(current := Null));
    PutTwice(v, sid, Busy(s).(current := Null), Arrived(id, account, Query(id, account)));
  }

  lemma ArrivingLeads(v: Server, sid: nat, id: nat, account: nat, rows: seq<Entity>)
    requires Enumerates(rows, Owned(v.world.social.tables, account))
    ensures Leads(Put(v, sid, Admitted(id, account)), Arriving(v.now, sid, rows),
                  Put(v, sid, InLobby(id, account, rows)))
  {
    ArrivalStep(v, sid, id, account);
    QueryingLeads(v, sid, id, account, rows);
    LeadsOnward(Put(v, sid, Admitted(id, account)), Run(sid, 0, Visits([])),
                Put(v, sid, Arrived(id, account, Query(id, account))), Querying(v.now, sid, rows),
                Put(v, sid, InLobby(id, account, rows)));
  }

  lemma AcceptedWaits(v: Server, sid: nat)
    requires Invariant(v) && sid !in v.sessions
    ensures Waiting(Put(v, sid, ACCEPTED), sid) && ACCEPTED.current.Preauth?
  {
    AcceptIsSafe(v, sid);
  }

  lemma AccountStaysFree(v: Server, sid: nat, account: nat)
    requires AccountIsFree(v, Some(account))
    ensures AccountIsFree(Put(v, sid, ACCEPTED), Some(account))
  {
    assert AccountOf(ACCEPTED).None?;
  }

  lemma GreetedSession(s: Session, id: nat, account: nat)
    requires s.open && s.closes == 0 && s.current.Preauth? && s.sent == [GoodKeys] && s.tasks == [RunTransition]
    requires s.awaiting == Some(Lobby(id, account, [])) && s.async == StateTransition
    ensures s == Admitted(id, account)
  {
  }

  lemma GreetingStep(v: Server, sid: nat, hello: Text, key: Text, login: Text, account: nat)
    requires Invariant(v) && sid !in v.sessions && AccountIsFree(v, Some(account))
    requires |hello| <= BUFFER_SIZE && Begins(hello, HelloFields(key, login)) && |key| == 64
    ensures var e := Run(sid, 0, Arrives(hello, Some(account), []));
            && Possible(Put(v, sid, ACCEPTED), e)
            && Step(Put(v, sid, ACCEPTED), e)
                 == Goes(Put(v, sid, Admitted(v.nextLobby, account)).(nextLobby := v.nextLobby + 1))
  {
    var v1 := Put(v, sid, ACCEPTED);
    AcceptedWaits(v, sid);
    AccountStaysFree(v, sid, account);
    HelloIsLong(hello, key, login);
    HelloStep(v1, sid, hello, Some(account));
    HelloAdmits(v1, sid, hello, key, login, account);
    HelloReadsExactly(hello, key, login);
    assert [] + [GoodKeys] == [GoodKeys];
    var step := Step(v1, Run(sid, 0, Arrives(hello, Some(account), []))).server;
    GreetedSession(step.sessions[sid], v.nextLobby, account);
    PutTwice(v, sid, ACCEPTED, Admitted(v.nextLobby, account));
  }

  /** In every state, a client whose login the validator takes for a free account gets into the lobby of that account:
      it is told good keys and then the characters that the account has. */
  lemma ClientGetsIntoLobby(v: Server, sid: nat, hello: Text, key: Text, login: Text, account: nat, rows: seq<Entity>)
    requires Invariant(v) && sid !in v.sessions && AccountIsFree(v, Some(account))
    requires |hello| <= BUFFER_SIZE && Begins(hello, HelloFields(key, login)) && |key| == 64
    requires Enumerates(rows, Owned(v.world.social.tables, account))
    ensures Leads(v, IntoLobby(v.now, sid, hello, account, rows),
                  Put(v, sid, InLobby(v.nextLobby, account, rows)).(nextLobby := v.nextLobby + 1))
  {
    var later := v.(nextLobby := v.nextLobby + 1);
    var v' := Put(later, sid, InLobby(v.nextLobby, account, rows));
    ArrivingLeads(later, sid, v.nextLobby, account, rows);
    GreetingStep(v, sid, hello, key, login, account);
    LeadsOnward(Put(v, sid, ACCEPTED), Run(sid, 0, Arrives(hello, Some(account), [])),
                Put(later, sid, Admitted(v.nextLobby, account)), Arriving(v.now, sid, rows), v');
    LeadsOnward(v, Accept(sid), Put(v, sid, ACCEPTED), Greeting(v.now, sid, hello, account, rows), v');
  }
}
