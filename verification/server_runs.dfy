/** Every task keeps the invariant, so it holds in every run; and what it means there. */
module ServerRuns {
  import opened Basics
  import opened Protocol
  import opened Codec
  import opened Database
  import opened WorldRegistrar
  import opened Friends
  import opened Worlds
  import opened Sessions
  import opened ServerSteps
  import opened SessionInvariant
  import opened PacketSafety
  import opened PendingRequests
  import opened Framing
  import opened Wire
  import opened Client
  import Chats

  // ---------------------------------------------------------------- Leaving the world

  /** The world of a logout just before the connection of the user goes. */
  function LastWorld(w: World, me: Entity, rooms: seq<Text>): World
    requires me.uid in w.social.lists
  {
    OutOfChat(OutOfFriends(OutOfRegistrar(w, me), me), me, rooms)
  }

  lemma LastWorldHears(w: World, me: Entity, rooms: seq<Text>, now: int)
    requires Agrees(w, now) && me in w.entities && Enumerates(rooms, Chats.RoomsOf(ChatOf(w), me))
    ensures CanLeave(w, me)
    ensures Grows(w.social.mail, LastWorld(w, me, rooms).social.mail, WORLD)
  {
    var w2, w3 := LeaveSteps(w, me, rooms, now);
    GrowthInWorld(w.social.mail, w2.social.mail, FromFriends);
    GrowthInWorld(w2.social.mail, w3.social.mail, FromChat);
    GrowsTransitive(w.social.mail, w2.social.mail, w3.social.mail, WORLD);
  }

  lemma LastWorldFrame(w: World, me: Entity, rooms: seq<Text>)
    requires me.uid in w.social.lists
    ensures var w3 := LastWorld(w, me, rooms);
            && w3.entities == w.entities - {me} && w3.social.tables == w.social.tables
            && Leave(w, me, rooms) == Closed(w3, me)
  {
    LeaveFrame(w, me, rooms);
  }

  lemma ClosedKeepsOthers(w: World, me: Entity, s: Session)
    requires Good(w, s) && (UserOf(s).Some? ==> UserOf(s).value.uid != me.uid)
    ensures Good(Closed(w, me), s)
  {
  }

  /** The session's side of a logout. */
  function Departed(s: Session, before: Mail, after: Mail): Session {
    Send(Forward(s, before, after), MovedToLobby).(current := Null)
  }

  lemma DestroyedIsDeparted(v: Server, sid: nat, rooms: seq<Text>)
    requires sid in v.sessions && v.sessions[sid].current.Ingame?
    requires v.sessions[sid].current.me.uid in v.world.social.lists
    requires CanLeave(v.world, v.sessions[sid].current.me)
    ensures var s := v.sessions[sid];
            var w := LastWorld(v.world, s.current.me, rooms);
            var r := Destroyed(Taking(v, sid), sid, rooms);
            && r.Goes? && r.server.world == Leave(v.world, s.current.me, rooms)
            && Became(v, sid, w, Departed(Busy(s), v.world.social.mail, w.social.mail), r.server)
  {
  }

  /** An ingame session whose state is about to be destroyed, by a transition or by the finalization. */
  predicate Leaving(s: Session) {
    Single(s) && s.current.Ingame? && s.tasks == [if s.open then RunTransition else RunFinalize]
  }

  lemma DepartedIsGood(w: World, w': World, s: Session, s': Session)
    requires InStep(s) && Leaving(s)
    requires var u := s.current.me.uid;
             u in w.social.mail && u in w'.social.mail && GrowsAt(w.social.mail, w'.social.mail, u, WORLD)
    requires s' == Departed(Busy(s), w.social.mail, w'.social.mail)
    ensures s.open ==>
              && s'.awaiting.Some? && Good(w', MoveOn(s')) && UserOf(MoveOn(s')).None?
              && AccountOf(MoveOn(s')) == AccountOf(s)
    ensures !s.open ==> Good(w', s') && UserOf(s').None? && AccountOf(s').None?
  {
    if s.open {
      DepartedToLobby(w, w', s, s');
    } else {
      DepartedForEver(w, w', s, s');
    }
  }

  lemma DepartedToLobby(w: World, w': World, s: Session, s': Session)
    requires InStep(s) && Leaving(s) && s.open
    requires var u := s.current.me.uid;
             u in w.social.mail && u in w'.social.mail && GrowsAt(w.social.mail, w'.social.mail, u, WORLD)
    requires s' == Departed(Busy(s), w.social.mail, w'.social.mail)
    ensures s'.awaiting.Some? && Good(w', MoveOn(s')) && UserOf(MoveOn(s')).None?
    ensures AccountOf(MoveOn(s')) == AccountOf(s)
  {
    var news := News(w.social.mail, w'.social.mail, s.current.me.uid);
    SentWorldPackets(s, news);
    SentOne(SendAll(s, news), MovedToLobby);
  }

  lemma DepartedForEver(w: World, w': World, s: Session, s': Session)
    requires InStep(s) && Leaving(s) && !s.open && s' == Departed(Busy(s), w.social.mail, w'.social.mail)
    ensures Good(w', s') && UserOf(s').None? && AccountOf(s').None?
  {
  }

  lemma OthersSeeTheLogout(v: Server, sid: nat, w: World, me: Entity, v': Server, s': Session)
    requires Attended(v) && sid in v.sessions && UserOf(v.sessions[sid]) == Some(me)
    requires w.entities == v.world.entities - {me} && w.social.tables == v.world.social.tables
    requires Grows(v.world.social.mail, w.social.mail, WORLD)
    requires Became(v, sid, w, s', v') && v'.world == Closed(w, me)
    ensures OthersKept(v, sid, v')
  {
    forall t <- v.sessions | t != sid
      ensures Good(v'.world, v'.sessions[t])
      ensures UserOf(v'.sessions[t]) == UserOf(v.sessions[t]) && AccountOf(v'.sessions[t]) == AccountOf(v.sessions[t])
    {
      assert Good(v.world, v.sessions[t]);
      if UserOf(v.sessions[t]).Some? {
        OneSessionPerUser(v, sid, t);
        UsersHaveMail(v, t);
      }
      OneSeesTheLogout(v.world, w, me, v.sessions[t]);
    }
  }

  lemma OneSeesTheLogout(w0: World, w: World, me: Entity, s: Session)
    requires Good(w0, s) && w.entities == w0.entities - {me} && w.social.tables == w0.social.tables
    requires Grows(w0.social.mail, w.social.mail, WORLD)
    requires UserOf(s).Some? ==> UserOf(s).value.uid != me.uid
    ensures var s' := Forward(s, w0.social.mail, w.social.mail);
            Good(Closed(w, me), s') && UserOf(s') == UserOf(s) && AccountOf(s') == AccountOf(s)
  {
    ForwardIsGood(w0, w, s);
    ClosedKeepsOthers(w, me, Forward(s, w0.social.mail, w.social.mail));
  }

  /** What the session is once its ingame state is destroyed: on its way to the lobby, or finalized. */
  predicate Gone(w: World, s: Session, s': Session) {
    if s.open then
      s'.awaiting.Some? && Good(w, MoveOn(s')) && UserOf(MoveOn(s')).None? && AccountOf(MoveOn(s')) == AccountOf(s)
    else
      Good(w, s') && UserOf(s').None? && AccountOf(s').None?
  }

  lemma LeavingIsSafe(v: Server, sid: nat, rooms: seq<Text>) returns (v': Server)
    requires Invariant(v) && sid in v.sessions && Leaving(v.sessions[sid])
    requires Enumerates(rooms, Chats.RoomsOf(ChatOf(v.world), v.sessions[sid].current.me))
    ensures Destroyed(Taking(v, sid), sid, rooms) == Goes(v')
    ensures Agrees(v'.world, v.now) && v'.now == v.now && OthersKept(v, sid, v')
    ensures UserOf(v.sessions[sid]) == Some(v.sessions[sid].current.me)
    ensures v'.world.entities == v.world.entities - {v.sessions[sid].current.me}
    ensures sid in v'.sessions && Gone(v'.world, v.sessions[sid], v'.sessions[sid])
  {
    var s := v.sessions[sid];
    var me := s.current.me;
    assert Good(v.world, s) && UserOf(s) == Some(me);
    LastWorldHears(v.world, me, rooms, v.now);
    LastWorldFrame(v.world, me, rooms);
    LeaveAgrees(v.world, me, rooms, v.now);
    DestroyedIsDeparted(v, sid, rooms);
    var w := LastWorld(v.world, me, rooms);
    v' := Destroyed(Taking(v, sid), sid, rooms).server;
    OthersSeeTheLogout(v, sid, w, me, v', v'.sessions[sid]);
    DepartedIsGood(v.world, w, s, v'.sessions[sid]);
  }

  // ---------------------------------------------------------------- Tasks

  lemma ArrivalInWorldIsGood(w: World, s: Session)
    requires Good(w, s) && s.open && s.tasks == [RunTransition] && !s.current.Ingame?
    ensures s.awaiting.Some?
    ensures var s' := MoveOn(Busy(s).(current := Null));
            Good(w, s') && UserOf(s') == UserOf(s) && AccountOf(s') == AccountOf(s)
  {
  }

  lemma ArrivingIsSafe(v: Server, sid: nat, rooms: seq<Text>)
    requires Attended(v) && sid in v.sessions && v.sessions[sid].open && v.sessions[sid].tasks == [RunTransition]
    requires !v.sessions[sid].current.Ingame?
    ensures var r := RunTask(Taking(v, sid), sid, RunTransition, Visits(rooms));
            r.Goes? && Attended(r.server) && r.server.world == v.world && r.server.now == v.now
  {
    var s := v.sessions[sid];
    assert Good(v.world, s);
    ArrivalInWorldIsGood(v.world, s);
    var s' := MoveOn(Busy(s).(current := Null));
    LocalStep(v, sid, Put(Put(Taking(v, sid), sid, Busy(s).(current := Null)), sid, s'));
  }

  /** The session of a logout moves on to the lobby. */
  lemma DepartingIsSafe(v: Server, sid: nat, v1: Server)
    requires Attended(v) && sid in v.sessions && UserOf(v.sessions[sid]).Some? && OthersKept(v, sid, v1)
    requires v1.world.entities == v.world.entities - {UserOf(v.sessions[sid]).value}
    requires sid in v1.sessions && v1.sessions[sid].awaiting.Some?
    requires var s' := MoveOn(v1.sessions[sid]);
             Good(v1.world, s') && UserOf(s').None? && AccountOf(s') == AccountOf(v.sessions[sid])
    ensures Attended(Put(v1, sid, MoveOn(v1.sessions[sid])))
  {
    var v' := Put(v1, sid, MoveOn(v1.sessions[sid]));
    OthersKeptToo(v, sid, v1, v');
    Conclude(v, sid, v');
  }

  lemma LogoutIsSafe(v: Server, sid: nat, rooms: seq<Text>)
    requires Invariant(v) && sid in v.sessions && v.sessions[sid].open && Leaving(v.sessions[sid])
    requires VisitsRooms(v, sid, rooms)
    ensures var r := RunTask(Taking(v, sid), sid, RunTransition, Visits(rooms));
            r.Goes? && Invariant(r.server) && r.server.now == v.now
  {
    var v1 := LeavingIsSafe(v, sid, rooms);
    DepartingIsSafe(v, sid, v1);
    RunsTransition(Taking(v, sid), sid, rooms, v1);
  }

  lemma RunsTransition(v: Server, sid: nat, rooms: seq<Text>, v1: Server)
    requires sid in v.sessions && Destroyed(v, sid, rooms) == Goes(v1) && sid in v1.sessions
    requires v1.sessions[sid].awaiting.Some?
    ensures RunTask(v, sid, RunTransition, Visits(rooms)) == Goes(Put(v1, sid, MoveOn(v1.sessions[sid])))
  {
  }

  lemma TransitionIsSafe(v: Server, sid: nat, rooms: seq<Text>)
    requires Invariant(v) && sid in v.sessions && v.sessions[sid].open && v.sessions[sid].tasks == [RunTransition]
    requires VisitsRooms(v, sid, rooms)
    ensures var r := RunTask(Taking(v, sid), sid, RunTransition, Visits(rooms));
            r.Goes? && Invariant(r.server) && r.server.now == v.now
  {
    if v.sessions[sid].current.Ingame? {
      assert Good(v.world, v.sessions[sid]);
      LogoutIsSafe(v, sid, rooms);
    } else {
      ArrivingIsSafe(v, sid, rooms);
    }
  }

  lemma FinalizationIsSafe(v: Server, sid: nat, rooms: seq<Text>)
    requires Invariant(v) && sid in v.sessions && !v.sessions[sid].open && v.sessions[sid].tasks == [RunFinalize]
    requires VisitsRooms(v, sid, rooms)
    ensures var r := RunTask(Taking(v, sid), sid, RunFinalize, Visits(rooms));
            r.Goes? && Invariant(r.server) && r.server.now == v.now
  {
    RunsFinalization(Taking(v, sid), sid, rooms);
    if v.sessions[sid].current.Ingame? {
      assert Good(v.world, v.sessions[sid]);
      EndingIsSafe(v, sid, rooms);
    } else {
      IdleEndIsSafe(v, sid, rooms);
      SameWorldAgrees(v, Destroyed(Taking(v, sid), sid, rooms).server);
    }
  }

  lemma RunsFinalization(v: Server, sid: nat, rooms: seq<Text>)
    requires sid in v.sessions
    ensures RunTask(v, sid, RunFinalize, Visits(rooms)) == Destroyed(v, sid, rooms)
  {
  }

  lemma SameWorldAgrees(v: Server, v': Server)
    requires Agrees(v.world, v.now) && v'.world == v.world && v'.now == v.now
    ensures Agrees(v'.world, v'.now)
  {
  }

  lemma IdleEndIsSafe(v: Server, sid: nat, rooms: seq<Text>)
    requires Attended(v) && sid in v.sessions && !v.sessions[sid].open && v.sessions[sid].tasks == [RunFinalize]
    requires !v.sessions[sid].current.Ingame?
    ensures var r := Destroyed(Taking(v, sid), sid, rooms);
            r.Goes? && Attended(r.server) && r.server.world == v.world && r.server.now == v.now
  {
    var s := v.sessions[sid];
    assert Good(v.world, s);
    LocalStep(v, sid, Put(Taking(v, sid), sid, Busy(s).(current := Null)));
  }

  lemma EndingIsSafe(v: Server, sid: nat, rooms: seq<Text>)
    requires Invariant(v) && sid in v.sessions && !v.sessions[sid].open && Leaving(v.sessions[sid])
    requires VisitsRooms(v, sid, rooms)
    ensures var r := Destroyed(Taking(v, sid), sid, rooms);
            r.Goes? && Invariant(r.server) && r.server.now == v.now
  {
    var v' := LeavingIsSafe(v, sid, rooms);
    EndedIsSafe(v, sid, v');
  }

  lemma EndedIsSafe(v: Server, sid: nat, v': Server)
    requires Attended(v) && sid in v.sessions && UserOf(v.sessions[sid]).Some? && OthersKept(v, sid, v')
    requires v'.world.entities == v.world.entities - {UserOf(v.sessions[sid]).value}
    requires sid in v'.sessions && Good(v'.world, v'.sessions[sid])
    requires UserOf(v'.sessions[sid]).None? && AccountOf(v'.sessions[sid]).None?
    ensures Attended(v')
  {
    Conclude(v, sid, v');
  }

  lemma QueryIsSafe(v: Server, sid: nat, lobby: nat, account: nat, rows: seq<Entity>)
    requires Attended(v) && sid in v.sessions && v.sessions[sid].open
    requires v.sessions[sid].tasks == [Query(lobby, account)]
    requires Enumerates(rows, Owned(v.world.social.tables, account))
    ensures Attended(Put(Taking(v, sid), sid, Posted(Busy(v.sessions[sid]), Completion(lobby, rows))))
  {
    var s := v.sessions[sid];
    assert Good(v.world, s);
    LocalStep(v, sid, Put(Taking(v, sid), sid, Posted(Busy(s), Completion(lobby, rows))));
  }

  /** The callback finds the lobby state that asked, and the list becomes the database's. */
  lemma CompletionIsSafe(v: Server, sid: nat, lobby: nat, rows: seq<Entity>)
    requires Attended(v) && sid in v.sessions && v.sessions[sid].open
    requires v.sessions[sid].tasks == [Completion(lobby, rows)]
    ensures v.sessions[sid].current.Lobby? && v.sessions[sid].current.id == lobby
    ensures var s := Busy(v.sessions[sid]);
            Attended(Put(Taking(v, sid), sid, Arm(Send(s.(current := s.current.(chars := rows)), CharacterList(rows)))))
  {
    var s := v.sessions[sid];
    assert Good(v.world, s);
    SentOne(s, CharacterList(rows));
    var s' := Arm(Send(Busy(s).(current := s.current.(chars := rows)), CharacterList(rows)));
    LocalStep(v, sid, Put(Taking(v, sid), sid, s'));
  }

  // ---------------------------------------------------------------- Every event

  /** The one packet that the preauth state does not survive: it has no opcode. */
  predicate EmptyHello(v: Server, e: GameEvent) {
    && e.Run? && e.sid in v.sessions && e.input.Arrives? && e.input.data == []
    && v.sessions[e.sid].open && v.sessions[e.sid].current.Preauth?
    && e.k < |v.sessions[e.sid].tasks| && v.sessions[e.sid].tasks[e.k] == Recv
  }

  lemma LobbyIsSafe(v: Server, sid: nat, data: Text, friends: seq<Uid>)
    requires Waiting(v, sid) && Agrees(v.world, v.now) && v.sessions[sid].current.Lobby?
    requires OrderFits(v.world, v.sessions[sid].current, data, friends)
    ensures var r := HandleLobby(Taking(v, sid), sid, data, friends);
            r.Goes? && Invariant(r.server) && r.server.now == v.now
  {
    match ReadLobbyRequest(data)
    case Create(name) => CreatingIsSafe(v, sid, name);
    case Delete(name) => DeletingIsSafe(v, sid, name);
    case Select(name) => SelectingIsSafe(v, sid, name, friends);
    case _ => ClosingOrIgnoringIsSafe(v, sid, data, friends);
  }

  lemma ClosingOrIgnoringIsSafe(v: Server, sid: nat, data: Text, friends: seq<Uid>)
    requires Waiting(v, sid) && v.sessions[sid].current.Lobby?
    requires var r := ReadLobbyRequest(data); r.BadLobbyRequest? || r.LogOff? || r.NoLobbyRequest?
    ensures var r := HandleLobby(Taking(v, sid), sid, data, friends);
            r.Goes? && Attended(r.server) && r.server.world == v.world && r.server.now == v.now
  {
    if ReadLobbyRequest(data).NoLobbyRequest? {
      IgnoringIsSafe(v, sid);
    } else {
      CloseIsSafe(v, sid);
    }
  }

  lemma SelectingIsSafe(v: Server, sid: nat, name: Text, friends: seq<Uid>)
    requires Waiting(v, sid) && Agrees(v.world, v.now) && v.sessions[sid].current.Lobby?
    requires var chars := v.sessions[sid].current.chars;
             var i := Find(chars, name);
             i < |chars| ==> Enumerates(friends, NewcomersFriends(v.world.social, chars[i].uid))
    ensures var r := HandleSelect(Taking(v, sid), sid, name, friends);
            r.Goes? && Invariant(r.server) && r.server.now == v.now
  {
    var chars := v.sessions[sid].current.chars;
    var i := Find(chars, name);
    if i == |chars| {
      CloseIsSafe(v, sid);
    } else {
      EnteringIsSafe(v, sid, chars[i], friends);
    }
  }

  lemma ReceivingIsSafe(v: Server, sid: nat, input: Input)
    requires Waiting(v, sid) && Agrees(v.world, v.now)
    requires Possible(v, Run(sid, 0, input))
    ensures var r := RunTask(Taking(v, sid), sid, Recv, input);
            && (r.Faults? <==> EmptyHello(v, Run(sid, 0, input)))
            && (r.Goes? ==> Invariant(r.server) && r.server.now == v.now)
  {
    assert Good(v.world, v.sessions[sid]);
    if input.Breaks? {
      CloseIsSafe(v, sid);
    } else {
      match v.sessions[sid].current
      case Preauth => HelloIsSafe(v, sid, input.data, input.verdict);
      case Lobby(_, _, _) => LobbyIsSafe(v, sid, input.data, input.friends);
      case Ingame(_, _) => ServingIsSafe(v, sid, input.data);
    }
  }

  lemma RunIsSafe(v: Server, sid: nat, k: nat, input: Input)
    requires Invariant(v) && Possible(v, Run(sid, k, input))
    ensures var r := Step(v, Run(sid, k, input));
            && (r.Faults? <==> EmptyHello(v, Run(sid, k, input)))
            && (r.Goes? ==> Invariant(r.server) && r.server.now == v.now)
  {
    var s := v.sessions[sid];
    assert Good(v.world, s);
    OnlyTask(s, k);
    match s.tasks[0]
    case Recv => ReceivingIsSafe(v, sid, input);
    case RunTransition => TransitionIsSafe(v, sid, input.rooms);
    case RunFinalize => FinalizationIsSafe(v, sid, input.rooms);
    case Query(lobby, account) => QueryIsSafe(v, sid, lobby, account, input.rows);
    case Completion(lobby, rows) => CompletionIsSafe(v, sid, lobby, rows);
  }

  lemma TimersAreSafe(v: Server, rooms: seq<Text>)
    requires Invariant(v)
    ensures var w := WithChat(v.world, Chats.PeriodicBroadcast(ChatOf(v.world), rooms));
            Invariant(Spread(v, w))
  {
    var w := WithChat(v.world, Chats.PeriodicBroadcast(ChatOf(v.world), rooms));
    PeriodicBroadcastAgrees(v.world, rooms, v.now);
    PeriodicBroadcastGrows(ChatOf(v.world), rooms);
    Chats.PeriodicBroadcastIsConsistent(ChatOf(v.world), rooms);
    GrowthInWorld(v.world.social.mail, w.social.mail, FromChat);
    SpreadIsSafe(v, w);
  }

  lemma AcceptIsSafe(v: Server, sid: nat)
    requires Attended(v) && sid !in v.sessions
    ensures Attended(Put(v, sid, ACCEPTED))
  {
    assert PhaseAfter([]) == PreauthPhase;
    LocalStep(v, sid, Put(v, sid, ACCEPTED));
  }

  lemma SameSessionsAttended(v: Server, v': Server)
    requires Attended(v) && v'.sessions == v.sessions && v'.world.entities == v.world.entities
    requires v'.world.social.tables == v.world.social.tables && v'.world.social.mail == v.world.social.mail
    ensures Attended(v')
  {
    forall sid <- v.sessions
      ensures Good(v'.world, v'.sessions[sid])
    {
      assert Good(v.world, v.sessions[sid]);
    }
  }

  /** Every event, in every state that meets the invariant: of the faults counted here only the packet without an
      opcode in the preauth state remains, and otherwise the invariant holds again. */
  lemma StepIsSafe(v: Server, e: GameEvent)
    requires Invariant(v) && Possible(v, e)
    ensures Step(v, e).Faults? <==> EmptyHello(v, e)
    ensures Step(v, e).Goes? ==> Invariant(Step(v, e).server) && Step(v, e).server.now == v.now
  {
    match e
    case Accept(sid) => AcceptIsSafe(v, sid);
    case BroadcastTimer(rooms) => TimersAreSafe(v, rooms);
    case CleanupTimer =>
      TimeAgrees(v.world, v.now, v.now);
      SameSessionsAttended(v, Step(v, e).server);
    case Run(sid, k, input) => RunIsSafe(v, sid, k, input);
  }

  lemma TimeIsSafe(v: Server, time: int)
    requires Invariant(v) && v.now <= time
    ensures Invariant(v.(now := time))
  {
    TimeAgrees(v.world, v.now, time);
    SameSessionsAttended(v, v.(now := time));
  }

  // ---------------------------------------------------------------- Runs

  type History = seq<Timed>

  /** A server that was just started on these tables. */
  function Started(tables: Tables, now: int): Server {
    Server(World(Social(Registry(map[], map[]), tables, map[], EMPTY, map[]), {}, map[]), map[], now, 0)
  }

  /** The events can come one after the other, at times that do not go back, each from the environment of the
      state that the ones before have led to; nothing comes after a fault. */
  ghost predicate CanHappen(v: Server, run: History)
    decreases |run|
  {
    |run| == 0 ||
    var ready := v.(now := run[0].time);
    && v.now <= run[0].time
    && Possible(ready, run[0].event)
    && match Step(ready, run[0].event)
       case Faults => |run| == 1
       case Goes(v') => CanHappen(v', run[1..])
  }

  ghost function StateAfter(v: Server, run: History): Progress
    requires CanHappen(v, run)
    decreases |run|
  {
    if |run| == 0 then Goes(v)
    else match Step(v.(now := run[0].time), run[0].event)
         case Faults => Faults
         case Goes(v') => StateAfter(v', run[1..])
  }

  /** Some event of the run is a packet without an opcode for a preauth state. */
  ghost predicate MeetsEmptyHello(v: Server, run: History)
    requires CanHappen(v, run)
    decreases |run|
  {
    |run| > 0 &&
    var ready := v.(now := run[0].time);
    || EmptyHello(ready, run[0].event)
    || (Step(ready, run[0].event).Goes? && MeetsEmptyHello(Step(ready, run[0].event).server, run[1..]))
  }

  lemma StartedIsSafe(tables: Tables, now: int)
    requires Sound(tables)
    ensures Invariant(Started(tables, now))
  {
  }

  lemma {:induction false} RunKeepsInvariant(v: Server, run: History)
    requires Invariant(v) && CanHappen(v, run)
    ensures StateAfter(v, run).Faults? <==> MeetsEmptyHello(v, run)
    ensures StateAfter(v, run).Goes? ==> Invariant(StateAfter(v, run).server)
    decreases |run|
  {
    if |run| > 0 {
      TimeIsSafe(v, run[0].time);
      var ready := v.(now := run[0].time);
      StepIsSafe(ready, run[0].event);
      if Step(ready, run[0].event).Goes? {
        RunKeepsInvariant(Step(ready, run[0].event).server, run[1..]);
      }
    }
  }

  /** A run of the server has a fault of those counted here if and only if it meets a packet without an opcode in a
      preauth state: otherwise no assert of a component on who is registered fails, no null or destroyed state is used
      and no scheduled transition is overwritten; and every state that a run reaches meets the invariant. */
  lemma {:induction false} RunFaultsExactly(tables: Tables, start: int, run: History)
    requires Sound(tables) && CanHappen(Started(tables, start), run)
    ensures StateAfter(Started(tables, start), run).Faults? <==> MeetsEmptyHello(Started(tables, start), run)
    ensures StateAfter(Started(tables, start), run).Goes? ==> Invariant(StateAfter(Started(tables, start), run).server)
  {
    StartedIsSafe(tables, start);
    RunKeepsInvariant(Started(tables, start), run);
  }

  /** The states that runs reach. */
  ghost predicate Reachable(v: Server) {
    exists tables: Tables, start: int, run: History ::
      Sound(tables) && CanHappen(Started(tables, start), run) && StateAfter(Started(tables, start), run) == Goes(v)
  }

  lemma ReachableIsSafe(v: Server)
    requires Reachable(v)
    ensures Invariant(v)
  {
    var tables, start, run :|
      Sound(tables) && CanHappen(Started(tables, start), run) && StateAfter(Started(tables, start), run) == Goes(v);
    RunFaultsExactly(tables, start, run);
  }

  // ---------------------------------------------------------------- What holds in every run: sessions

  /** Every session that is not closed has exactly one continuation under way; a closed one has been closed once,
      with no state waiting for a transition, and is finalized or about to be; and a database callback that is
      under way belongs to the lobby state that is there. */
  lemma SingleContinuation(v: Server, sid: nat)
    requires Reachable(v) && sid in v.sessions
    ensures var s := v.sessions[sid];
            && (s.open ==> |s.tasks| == 1 && s.closes == 0 && !s.current.Null?)
            && (!s.open ==>
                  && s.closes == 1 && s.awaiting.None?
                  && s.tasks == if s.current.Null? then [] else [RunFinalize])
            && (s.awaiting.Some? <==> s.tasks == [RunTransition])
            && (forall t <- s.tasks :: t.Completion? || t.Query? ==> s.current.Lobby? && s.current.id == t.lobby)
  {
    ReachableIsSafe(v);
    assert Good(v.world, v.sessions[sid]);
    OneContinuation(v.sessions[sid]);
  }

  lemma OneContinuation(s: Session)
    requires Single(s)
    ensures s.open ==> |s.tasks| == 1 && s.closes == 0 && !s.current.Null?
    ensures !s.open ==> s.closes == 1 && s.awaiting.None? && s.tasks == if s.current.Null? then [] else [RunFinalize]
    ensures s.awaiting.Some? <==> s.tasks == [RunTransition]
    ensures forall t <- s.tasks :: t.Completion? || t.Query? ==> s.current.Lobby? && s.current.id == t.lobby
  {
  }

  /** What was sent to any client follows good keys and then rounds of lobby packets, a selection, packets of
      the world and the move back to the lobby; and the client of an open session is in the phase of its state. */
  lemma ClientIsInStep(v: Server, sid: nat)
    requires Reachable(v) && sid in v.sessions
    ensures PhaseAfter(v.sessions[sid].sent) != Confused
    ensures v.sessions[sid].open ==> PhaseAfter(v.sessions[sid].sent) == ServerPhase(v.sessions[sid])
  {
    ReachableIsSafe(v);
    assert Good(v.world, v.sessions[sid]);
  }

  /** End to end: whatever happens, the client takes the packets that were sent to it off its stream and decodes
      each of them as what it is, as long as they fit the buffer. */
  lemma ClientUnderstands(v: Server, sid: nat)
    requires Reachable(v) && sid in v.sessions
    requires forall i :: 0 <= i < |v.sessions[sid].sent| ==> Sendable(v.sessions[sid].sent[i])
    ensures var sent := v.sessions[sid].sent;
            var received := Receive(Stream(SentBytes(sent)));
            && received == Reception(SentBytes(sent), [], false)
            && Conversation(PreauthPhase, received.packets) == Understood(sent)
  {
    ClientIsInStep(v, sid);
    StreamUnderstood(v.sessions[sid].sent);
  }

  /** Any packet can arrive at a session that waits for one. */
  lemma AnyPacketCanArrive(v: Server, sid: nat, data: Text) returns (friends: seq<Uid>)
    requires sid in v.sessions && v.sessions[sid].tasks == [Recv]
    ensures Possible(v, Run(sid, 0, Arrives(data, None, friends)))
  {
    friends := [];
    if v.sessions[sid].current.Lobby? {
      var chars, r := v.sessions[sid].current.chars, ReadLobbyRequest(data);
      if r.Select? && Find(chars, r.name) < |chars| {
        friends := SomeOrder(NewcomersFriends(v.world.social, chars[Find(chars, r.name)].uid));
      }
    }
  }

  /** For every task there is an input that it can run with. */
  lemma SomeInput(v: Server, sid: nat) returns (input: Input)
    requires sid in v.sessions && |v.sessions[sid].tasks| == 1
    ensures Possible(v, Run(sid, 0, input)) && !input.Arrives?
  {
    match v.sessions[sid].tasks[0]
    case Recv => input := Breaks;
    case Query(_, account) =>
      var rows := SomeOrder(Owned(v.world.social.tables, account));
      input := Returns(rows);
    case Completion(_, _) => input := Nothing;
    case _ =>
      var rooms: seq<Text> := [];
      if v.sessions[sid].current.Ingame? {
        rooms := SomeOrder(Chats.RoomsOf(ChatOf(v.world), v.sessions[sid].current.me));
      }
      input := Visits(rooms);
  }

  /** No session is ever stuck: until it is finalized its continuation can run, and does so without a fault. */
  lemma NoSessionIsStuck(v: Server, sid: nat) returns (input: Input)
    requires Reachable(v) && sid in v.sessions && (v.sessions[sid].open || !v.sessions[sid].current.Null?)
    ensures Possible(v, Run(sid, 0, input)) && Step(v, Run(sid, 0, input)).Goes?
  {
    SingleContinuation(v, sid);
    input := SomeInput(v, sid);
    ReachableIsSafe(v);
    StepIsSafe(v, Run(sid, 0, input));
  }

  // ---------------------------------------------------------------- What holds in every run: the world

  /** The same users are in the chat, in the friend system and in both indexes of the registrar, and they are the
      users of the sessions; no two sessions share one. */
  lemma WorldAgreement(v: Server)
    requires Reachable(v)
    ensures var w := v.world;
            && (forall e :: e in w.entities <==> e.uid in w.social.registry.byId && w.social.registry.byId[e.uid] == e)
            && (forall e ::
                  e in w.entities <==> e.name in w.social.registry.byName && w.social.registry.byName[e.name] == e)
            && w.social.lists.Keys == w.social.registry.byId.Keys
            && (forall e :: e in w.entities <==> exists sid <- v.sessions :: UserOf(v.sessions[sid]) == Some(e))
  {
    ReachableIsSafe(v);
    forall e
      ensures e in v.world.entities
              <==> e.uid in v.world.social.registry.byId && v.world.social.registry.byId[e.uid] == e
    {
      IndexesAgree(v.world.social.registry, e);
    }
    forall e
      ensures e in v.world.entities
              <==> e.name in v.world.social.registry.byName && v.world.social.registry.byName[e.name] == e
    {
      IndexesAgree(v.world.social.registry, e);
    }
    forall e | exists sid <- v.sessions :: UserOf(v.sessions[sid]) == Some(e)
      ensures e in v.world.entities
    {
      var sid :| sid in v.sessions && UserOf(v.sessions[sid]) == Some(e);
      assert Good(v.world, v.sessions[sid]);
    }
  }

  /** The friends of a user who are online. */
  ghost function FriendsOnline(w: World, me: Entity): set<Text> {
    set f <- w.entities | f.uid in FriendsOf(w.social.tables.friends, me.uid) :: f.name
  }

  /** The cache of every user who is online is the database's answer, and between two of them it is symmetric. */
  lemma CacheIsDatabase(v: Server, me: Entity, f: Entity)
    requires Reachable(v) && me in v.world.entities && f in v.world.entities
    ensures me.uid in v.world.social.lists && f.uid in v.world.social.lists
    ensures v.world.social.lists[me.uid] == FriendsOf(v.world.social.tables.friends, me.uid)
    ensures f.uid in v.world.social.lists[me.uid] <==> me.uid in v.world.social.lists[f.uid]
    ensures me.uid !in v.world.social.lists[me.uid]
  {
    ReachableIsSafe(v);
    KnownUser(v.world, me);
    KnownUser(v.world, f);
    CacheIsSymmetric(v.world.social, me.uid, f.uid);
  }

  lemma FriendIsUser(w: World, me: Entity, u: Uid)
    requires SameUsers(w) && CacheAgrees(w.social) && me.uid in w.social.lists && u in OnlineFriends(w.social, me.uid)
    ensures u in w.social.tables.characters
    ensures w.social.tables.characters[u].nickname in FriendsOnline(w, me)
  {
    var e := w.social.registry.byId[u];
    assert e in w.entities && e.uid == u && e.name == w.social.tables.characters[u].nickname;
  }

  lemma UserIsFriend(w: World, me: Entity, e: Entity)
    requires SameUsers(w) && CacheAgrees(w.social) && me.uid in w.social.lists
    requires e in w.entities && e.uid in FriendsOf(w.social.tables.friends, me.uid)
    ensures e.uid in OnlineFriends(w.social, me.uid)
    ensures HasNickname(w.social.tables, e.uid, e.name)
  {
    KnownUser(w, e);
  }

  lemma NamesOfOnlineFriends(w: World, me: Entity)
    requires SameUsers(w) && CacheAgrees(w.social) && me.uid in w.social.lists
    ensures Names(w.social.tables.characters, OnlineFriends(w.social, me.uid)) == FriendsOnline(w, me)
  {
    var t := w.social.tables.characters;
    forall n | n in Names(t, OnlineFriends(w.social, me.uid))
      ensures n in FriendsOnline(w, me)
    {
      var u :| u in OnlineFriends(w.social, me.uid) && u in t && t[u].nickname == n;
      FriendIsUser(w, me, u);
    }
    forall n | n in FriendsOnline(w, me)
      ensures n in Names(t, OnlineFriends(w.social, me.uid))
    {
      var e :| e in w.entities && e.uid in FriendsOf(w.social.tables.friends, me.uid) && e.name == n;
      UserIsFriend(w, me, e);
    }
  }

  /** The notifications that a client has received since it selected its character replay to exactly the names of
      his friends who are online now. */
  lemma FriendNotificationsReplay(v: Server, sid: nat)
    requires Reachable(v) && sid in v.sessions && v.sessions[sid].open && UserOf(v.sessions[sid]).Some?
    ensures Replay(SinceSelected(v.sessions[sid].sent)) == FriendsOnline(v.world, UserOf(v.sessions[sid]).value)
  {
    ReachableIsSafe(v);
    assert Good(v.world, v.sessions[sid]);
    var me := UserOf(v.sessions[sid]).value;
    KnownUser(v.world, me);
    assert ViewAgrees(v.world.social, me.uid);
    NamesOfOnlineFriends(v.world, me);
  }

  /** What a client in a room believes about it is exactly himself and the participants who joined after him: of
      two participants the later one is in the view of the earlier one, and not the reverse. */
  lemma ChatViewsReplay(v: Server, room: Text, i: nat, j: nat, sid: nat)
    requires Reachable(v) && room in v.world.rooms
    requires i < |v.world.rooms[room]| && j < |v.world.rooms[room]|
    requires sid in v.sessions && v.sessions[sid].open && UserOf(v.sessions[sid]) == Some(v.world.rooms[room][i])
    ensures var es := v.world.rooms[room];
            var view := Chats.View(SinceSelected(v.sessions[sid].sent), es[i].name, room);
            view == Chats.Since(es, es[i]) && (es[j].name in view <==> i <= j)
  {
    ReachableIsSafe(v);
    HeardSinceSelected(v.world, v.sessions[sid]);
    ViewInRoom(v.world, room, i);
    Chats.SinceIsJoinOrder(v.world.rooms[room], i, j);
  }

  lemma HeardSinceSelected(w: World, s: Session)
    requires Good(w, s) && s.open && UserOf(s).Some?
    ensures UserOf(s).value.uid in w.social.mail && SinceSelected(s.sent) == w.social.mail[UserOf(s).value.uid]
  {
  }

  lemma ViewInRoom(w: World, room: Text, i: nat)
    requires Chats.Consistent(ChatOf(w)) && room in w.rooms && i < |w.rooms[room]|
    ensures var es := w.rooms[room];
            && es[i].uid in w.social.mail
            && Chats.View(w.social.mail[es[i].uid], es[i].name, room) == Chats.Since(es, es[i])
            && NoDup(es) && Chats.DistinctNames(es)
  {
    var es := w.rooms[room];
    assert Chats.ViewAgrees(ChatOf(w), room, es[i]);
    assert forall e <- es :: e in w.entities;
  }

  /** Two friends have no live request between them in either direction, and two others not in both. */
  lemma FriendshipAndRequestsExclude(v: Server, one: Uid, other: Uid)
    requires Reachable(v)
    ensures other in FriendsOf(v.world.social.tables.friends, one) ==>
              && !Live(v.world.social.buffers, Request(one, other), v.now)
              && !Live(v.world.social.buffers, Request(other, one), v.now)
    ensures !(Live(v.world.social.buffers, Request(one, other), v.now)
              && Live(v.world.social.buffers, Request(other, one), v.now))
    ensures v.world.social.tables.friends[RowOf(one, other)] <= 1
  {
    ReachableIsSafe(v);
    SoundIsCanonical(v.world.social.tables);
    LookupFindsRow(v.world.social.tables.friends, one, other);
    assert Reverse(Request(one, other)) == Request(other, one);
  }

  // ---------------------------------------------------------------- What holds in every run: the lobby

  /** Whenever a lobby waits for a packet, its list holds the characters of the account in the database. */
  lemma LobbyListIsDatabase(v: Server, sid: nat)
    requires Reachable(v) && sid in v.sessions && v.sessions[sid].open && v.sessions[sid].current.Lobby?
    requires v.sessions[sid].tasks == [Recv]
    ensures Enumerates(v.sessions[sid].current.chars, Owned(v.world.social.tables, v.sessions[sid].current.account))
    ensures UniqueNicknames(v.world.social.tables.characters)
  {
    ReachableIsSafe(v);
    assert Good(v.world, v.sessions[sid]);
  }
}
