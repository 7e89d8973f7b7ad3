/** The server as a transition system: every event is one task of the game loop. */
module ServerSteps {
  import opened Basics
  import opened Protocol
  import opened Codec
  import opened Database
  import opened PendingRequests
  import opened Friends
  import opened Worlds
  import opened Sessions
  import Chats

  datatype Server = Server(world: World, sessions: map<nat, Session>, now: int, nextLobby: nat)

  function Put(v: Server, sid: nat, s: Session): Server {
    v.(sessions := v.sessions[sid := s])
  }

  // ---------------------------------------------------------------- What the world sends

  function News(before: Mail, after: Mail, u: Uid): seq<Packet> {
    if u in before && u in after && |before[u]| <= |after[u]| then after[u][|before[u]|..] else []
  }

  function Forward(s: Session, before: Mail, after: Mail): Session {
    match UserOf(s)
    case None => s
    case Some(me) => SendAll(s, News(before, after, me.uid))
  }

  /** The world changes, and what it sends goes out through the sessions of its users. */
  function Spread(v: Server, w: World): Server {
    v.(world := w,
       sessions := map sid <- v.sessions :: Forward(v.sessions[sid], v.world.social.mail, w.social.mail))
  }

  // ---------------------------------------------------------------- Events

  /** What comes with a task: the packet that was received (with the verdict of the login validator and the
      order in which a newcomer's friends are visited), a broken connection, the order in which the rooms of a
      user are visited, or the order of the rows of a query. */
  datatype Input =
      Arrives(data: Text, verdict: Option<nat>, friends: seq<Uid>)
    | Breaks
    | Visits(rooms: seq<Text>)
    | Returns(rows: seq<Entity>)
    | Nothing

  datatype GameEvent =
      Accept(sid: nat)
    | Run(sid: nat, k: nat, input: Input)
    | BroadcastTimer(rooms: seq<Text>)
    | CleanupTimer

  datatype Timed = At(time: int, event: GameEvent)

  /** std::find_if over the names: the position of the first, or the end. */
  function Find(chars: seq<Entity>, name: Text): (i: nat)
    ensures i <= |chars|
    ensures i < |chars| ==> chars[i].name == name
    ensures forall j :: 0 <= j < i ==> chars[j].name != name
  {
    if |chars| == 0 || chars[0].name == name then 0 else
    var i := Find(chars[1..], name);
    assert forall j :: 0 < j <= i ==> chars[j].name == chars[1..][j - 1].name;
    i + 1
  }

  /** The order in which a selected character's friends are visited is an order of them. */
  ghost predicate OrderFits(w: World, current: ClientState, data: Text, friends: seq<Uid>) {
    match current
    case Lobby(_, _, chars) =>
      (match ReadLobbyRequest(data)
       case Select(name) =>
         var i := Find(chars, name);
         i < |chars| ==> Enumerates(friends, NewcomersFriends(w.social, chars[i].uid))
       case _ => true)
    case _ => true
  }

  /** An account is logged in once at a time. */
  ghost predicate AccountIsFree(v: Server, verdict: Option<nat>) {
    verdict.Some? ==> forall sid <- v.sessions :: AccountOf(v.sessions[sid]) != verdict
  }

  ghost predicate VisitsRooms(v: Server, sid: nat, rooms: seq<Text>)
    requires sid in v.sessions
  {
    v.sessions[sid].current.Ingame? ==>
      Enumerates(rooms, Chats.RoomsOf(ChatOf(v.world), v.sessions[sid].current.me))
  }

  /** The event can come from the environment: a task that is under way, with an input that fits it. */
  ghost predicate Possible(v: Server, e: GameEvent) {
    match e
    case Accept(sid) => sid !in v.sessions
    case BroadcastTimer(rooms) => Enumerates(rooms, v.world.rooms.Keys)
    case CleanupTimer => true
    case Run(sid, k, input) =>
      && sid in v.sessions && k < |v.sessions[sid].tasks|
      && match v.sessions[sid].tasks[k]
         case Recv =>
           || input.Breaks?
           || (&& input.Arrives?
               && OrderFits(v.world, v.sessions[sid].current, input.data, input.friends)
               && (v.sessions[sid].current.Preauth? ==> AccountIsFree(v, input.verdict)))
         case RunTransition => input.Visits? && VisitsRooms(v, sid, input.rooms)
         case Query(_, account) => input.Returns? && Enumerates(input.rows, Owned(v.world.social.tables, account))
         case Completion(_, _) => input.Nothing?
         case RunFinalize => input.Visits? && VisitsRooms(v, sid, input.rooms)
  }

  // ---------------------------------------------------------------- Packets to the preauth state

  /** A fault of the program: an assert fails, an exception leaves the loop, a null or destroyed state is used. */
  datatype Progress = Goes(server: Server) | Faults

  /** The session after the preauth state has handled a packet with an opcode. */
  function AfterHello(s: Session, data: Text, verdict: Option<nat>, id: nat): Session
    requires ReadPlain(data, 0, OPCODE).Got?
  {
    match ReadHello(data)
    case UnknownHello => ForceClose(Send(s, BadKeys))
    case BadHello => ForceClose(s)
    case Keys(_, _) =>
      match verdict
      case None => ForceClose(Send(s, BadKeys))
      case Some(account) => ScheduleTransition(Send(s, GoodKeys), Lobby(id, account, []))
  }

  function HandleHello(v: Server, sid: nat, data: Text, verdict: Option<nat>): Progress
    requires sid in v.sessions
  {
    var s := v.sessions[sid];
    if ReadPlain(data, 0, OPCODE).Underflow? || s.awaiting.Some? then Faults
    else Goes(Put(v, sid, AfterHello(s, data, verdict, v.nextLobby)).(nextLobby := v.nextLobby + 1))
  }

  /** Constructs a lobby state and schedules the transition to it. */
  function ToLobby(v: Server, sid: nat, s: Session, account: nat): Progress {
    if s.awaiting.Some? then Faults
    else Goes(Put(v, sid, ScheduleTransition(s, Lobby(v.nextLobby, account, []))).(nextLobby := v.nextLobby + 1))
  }

  // ---------------------------------------------------------------- Packets to the lobby

  function IsAlnum(c: Byte): bool {
    48 <= c <= 57 || 65 <= c <= 90 || 97 <= c <= 122
  }

  predicate AllAlnum(name: Text) {
    forall i :: 0 <= i < |name| ==> IsAlnum(name[i])
  }

  ghost function HandleLobby(v: Server, sid: nat, data: Text, friends: seq<Uid>): Progress
    requires sid in v.sessions && v.sessions[sid].current.Lobby?
    requires OrderFits(v.world, v.sessions[sid].current, data, friends)
  {
    var s := v.sessions[sid];
    match ReadLobbyRequest(data)
    case BadLobbyRequest => Goes(Put(v, sid, ForceClose(s)))
    case NoLobbyRequest => Goes(Put(v, sid, PollAgain(s)))
    case LogOff => Goes(Put(v, sid, PollAgain(ForceClose(s))))
    case Select(name) => HandleSelect(v, sid, name, friends)
    case Create(name) => Goes(HandleCreate(v, sid, name))
    case Delete(name) => Goes(HandleDelete(v, sid, name))
  }

  /** Tells the client first, then constructs the ingame state, then schedules the transition. */
  ghost function HandleSelect(v: Server, sid: nat, name: Text, friends: seq<Uid>): Progress
    requires sid in v.sessions && v.sessions[sid].current.Lobby?
    requires var chars := v.sessions[sid].current.chars;
             var i := Find(chars, name);
             i < |chars| ==> Enumerates(friends, NewcomersFriends(v.world.social, chars[i].uid))
  {
    var s := v.sessions[sid];
    var i := Find(s.current.chars, name);
    if i == |s.current.chars| then Goes(Put(v, sid, PollAgain(ForceClose(s))))
    else
      var me := s.current.chars[i];
      var v1 := Put(v, sid, Send(s, CharacterSelected(me.name)));
      if !CanEnter(v.world, me) || s.awaiting.Some? then Faults
      else Goes(Entered(v1, sid, Enter(v.world, me, friends), me))
  }

  function Entered(v: Server, sid: nat, w: World, me: Entity): Server
    requires sid in v.sessions && v.sessions[sid].current.Lobby? && me.uid in w.social.mail
  {
    var v1 := Spread(v, w);
    var s := SendAll(v1.sessions[sid], w.social.mail[me.uid]);
    Put(v1, sid, PollAgain(ScheduleTransition(s, Ingame(v.sessions[sid].current.account, me))))
  }

  ghost function CreationProblem(t: Tables, chars: seq<Entity>, name: Text): Option<CreationFailure> {
    if |chars| >= CHARACTER_LIMIT then Some(CharacterLimitExceeded)
    else if |name| > NAME_LIMIT || name == [] then Some(NameTooLong)
    else if !AllAlnum(name) then Some(NameContainsIncorrectDigits)
    else if UidOf(t, name) != INVALID_ID then Some(NameAlreadyUsed)
    else None
  }

  function Relisted(s: Session, chars: seq<Entity>): Session
    requires s.current.Lobby?
  {
    s.(current := s.current.(chars := chars))
  }

  /** Checks, and then writes to the database and to the list. */
  ghost function AfterCreate(t: Tables, s: Session, name: Text): (Tables, Session)
    requires s.current.Lobby?
  {
    match CreationProblem(t, s.current.chars, name)
    case Some(failure) => (t, Send(s, CharacterCreationFail(failure)))
    case None =>
      var e := Entity(t.nextId, name);
      (Created(t, name, s.current.account), Send(Relisted(s, s.current.chars + [e]), CharacterCreated(e)))
  }

  ghost function HandleCreate(v: Server, sid: nat, name: Text): Server
    requires sid in v.sessions && v.sessions[sid].current.Lobby?
  {
    var (t', s') := AfterCreate(v.world.social.tables, v.sessions[sid], name);
    WithTables(Put(v, sid, PollAgain(s')), t')
  }

  function WithTables(v: Server, t: Tables): Server {
    v.(world := v.world.(social := v.world.social.(tables := t)))
  }

  /** The query throws when friendships still refer to the character: then nothing is erased, and the handler
      closes the session. */
  function AfterDelete(t: Tables, s: Session, name: Text): (Tables, Session)
    requires s.current.Lobby?
  {
    var chars := s.current.chars;
    var i := Find(chars, name);
    if i == |chars| || Referenced(t, chars[i].name) then (t, ForceClose(s))
    else
      var rest := chars[..i] + chars[i + 1..];
      (Erased(t, chars[i].name), Send(Relisted(s, rest), CharacterList(rest)))
  }

  function HandleDelete(v: Server, sid: nat, name: Text): Server
    requires sid in v.sessions && v.sessions[sid].current.Lobby?
  {
    var (t', s') := AfterDelete(v.world.social.tables, v.sessions[sid], name);
    WithTables(Put(v, sid, PollAgain(s')), t')
  }

  // ---------------------------------------------------------------- Packets to the ingame state

  /** The asserts of the chat and friend systems for a request. */
  ghost predicate CanServe(w: World, me: Entity, r: IngameRequest) {
    && me in w.entities && me.uid in w.social.lists
    && (r.FriendAdd? ==> CanRequest(w.social, me, r.nick))
    && (r.SendWhisper? && r.recipient in w.social.registry.byName ==>
          w.social.registry.byName[r.recipient] in w.entities)
  }

  ghost function ServedWorld(w: World, me: Entity, r: IngameRequest, now: int): World
    requires CanServe(w, me, r)
  {
    match r
    case JoinChat(room) => WithChat(w, Chats.JoinRoom(ChatOf(w), me, room))
    case LeaveChat(room) => WithChat(w, Chats.LeaveRoom(ChatOf(w), me, room))
    case SendChatMsg(room, message) => WithChat(w, Chats.BroadcastMessage(ChatOf(w), me, room, message))
    case SendWhisper(recipient, message) => WithChat(w, Chats.Whisper(ChatOf(w), me, recipient, message))
    case FriendAdd(nick) => w.(social := RequestAdd(w.social, me, nick, now))
    case FriendRemove(nick) => w.(social := RequestRemove(w.social, me, nick))
    case _ => w
  }

  ghost function HandleIngame(v: Server, sid: nat, data: Text): Progress
    requires sid in v.sessions && v.sessions[sid].current.Ingame?
  {
    var s := v.sessions[sid];
    var r := ReadIngameRequest(data);
    if r.BadIngameRequest? then Goes(Put(v, sid, ForceClose(s)))
    else if r.LogOffToLobby? then ToLobby(v, sid, s, s.current.account)
    else if !CanServe(v.world, s.current.me, r) then Faults
    else
      var v1 := Spread(v, ServedWorld(v.world, s.current.me, r, v.now));
      Goes(Put(v1, sid, PollAgain(v1.sessions[sid])))
  }

  // ---------------------------------------------------------------- Tasks

  /** The old state is destroyed: an ingame state takes its user out of the world and says so last. */
  ghost function Destroyed(v: Server, sid: nat, rooms: seq<Text>): Progress
    requires sid in v.sessions
  {
    var s := v.sessions[sid];
    match s.current
    case Ingame(_, me) =>
      if !CanLeave(v.world, me) then Faults
      else
        var v1 := Spread(v, OutOfChat(OutOfFriends(OutOfRegistrar(v.world, me), me), me, rooms));
        var s1 := Send(v1.sessions[sid], MovedToLobby).(current := Null);
        Goes(Put(v1, sid, s1).(world := Leave(v.world, me, rooms)))
    case _ => Goes(Put(v, sid, s.(current := Null)))
  }

  ghost function RunTask(v: Server, sid: nat, t: Task, input: Input): Progress
    requires sid in v.sessions
    requires match t
             case Recv =>
               || input.Breaks?
               || (input.Arrives? && OrderFits(v.world, v.sessions[sid].current, input.data, input.friends))
             case RunTransition => input.Visits?
             case RunFinalize => input.Visits?
             case Query(_, _) => input.Returns?
             case _ => true
  {
    var s := v.sessions[sid];
    match t
    case Recv =>
      if !s.open then Goes(v)
      else if input.Breaks? then Goes(Put(v, sid, ForceClose(s)))
      else Handle(v, sid, input)
    case RunTransition =>
      (match Destroyed(v, sid, input.rooms)
       case Faults => Faults
       case Goes(v1) =>
         if v1.sessions[sid].awaiting.None? then Faults else Goes(Put(v1, sid, MoveOn(v1.sessions[sid]))))
    case Query(lobby, _) => Goes(Put(v, sid, Posted(s, Completion(lobby, input.rows))))
    case Completion(lobby, rows) =>
      if s.current.Lobby? && s.current.id == lobby then
        Goes(Put(v, sid, Arm(Send(Relisted(s, rows), CharacterList(rows)))))
      else Faults
    case RunFinalize => Destroyed(v, sid, input.rooms)
  }

  ghost function Handle(v: Server, sid: nat, input: Input): Progress
    requires sid in v.sessions && input.Arrives?
    requires OrderFits(v.world, v.sessions[sid].current, input.data, input.friends)
  {
    match v.sessions[sid].current
    case Null => Goes(v)
    case Preauth => HandleHello(v, sid, input.data, input.verdict)
    case Lobby(_, _, _) => HandleLobby(v, sid, input.data, input.friends)
    case Ingame(_, _) => HandleIngame(v, sid, input.data)
  }

  ghost function Step(v: Server, e: GameEvent): Progress
    requires Possible(v, e)
  {
    match e
    case Accept(sid) => Goes(Put(v, sid, ACCEPTED))
    case BroadcastTimer(rooms) => Goes(Spread(v, WithChat(v.world, Chats.PeriodicBroadcast(ChatOf(v.world), rooms))))
    case CleanupTimer =>
      var s := v.world.social;
      Goes(v.(world := v.world.(social := s.(buffers := Cleanup(s.buffers)))))
    case Run(sid, k, input) => RunTask(Put(v, sid, Taken(v.sessions[sid], k)), sid, v.sessions[sid].tasks[k], input)
  }
}
