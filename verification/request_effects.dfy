/** What the packets of a client in the world bring about, and who hears what. */
module RequestEffects {
  import opened Basics
  import opened Protocol
  import opened Codec
  import opened Database
  import opened PendingRequests
  import opened Friends
  import opened Worlds
  import opened Sessions
  import opened ServerSteps
  import opened SessionInvariant
  import opened PacketSafety
  import opened RequestPackets
  import opened FriendEffects
  import opened ChatEffects
  import opened StepRefinement
  import opened Admission
  import opened LobbyEffects
  import Chats

  // ---------------------------------------------------------------- A packet of a user in the world

  /** The session waits for a packet in the world. */
  predicate WorldWaits(v: Server, sid: nat) {
    Waiting(v, sid) && v.sessions[sid].current.Ingame?
  }

  function UserAt(v: Server, sid: nat): Entity
    requires WorldWaits(v, sid)
  {
    v.sessions[sid].current.me
  }

  lemma UserIsInWorld(v: Server, sid: nat)
    requires WorldWaits(v, sid)
    ensures UserAt(v, sid) in v.world.entities && v.sessions[sid].async == PacketPoll && v.sessions[sid].awaiting.None?
  {
    assert Good(v.world, v.sessions[sid]);
  }

  lemma IngameStep(v: Server, sid: nat, data: Text)
    requires WorldWaits(v, sid)
    ensures Possible(v, Arrival(sid, data))
    ensures Step(v, Arrival(sid, data)) == HandleIngame(Taking(v, sid), sid, data)
  {
    OnlyTask(v.sessions[sid], 0);
    assert Good(v.world, v.sessions[sid]);
  }

  /** Every client of this user was sent exactly these packets. */
  predicate ClientHears(v: Server, v': Server, u: Uid, ps: seq<Packet>) {
    forall t <- v.sessions | UserOf(v.sessions[t]).Some? && UserOf(v.sessions[t]).value.uid == u ::
      t in v'.sessions && v'.sessions[t] == SendAll(v.sessions[t], ps)
  }

  lemma SpreadTells(v: Server, w: World, u: Uid, ps: seq<Packet>)
    requires Gets(v.world.social.mail, w.social.mail, u, ps)
    ensures ClientHears(v, Spread(v, w), u, ps)
  {
    assert News(v.world.social.mail, w.social.mail, u) == ps;
  }

  /** A request of a user in the world: the world serves it, the session waits again, and what the world mails to any
      user reaches his client. */
  lemma RequestIsServed(v: Server, sid: nat, data: Text, r: IngameRequest) returns (v': Server)
    requires WorldWaits(v, sid) && Agrees(v.world, v.now)
    requires |data| <= BUFFER_SIZE && !r.NoIngameRequest? && !r.BadIngameRequest? && !r.LogOffToLobby?
    requires Begins(data, IngameFields(r))
    ensures Possible(v, Arrival(sid, data)) && Step(v, Arrival(sid, data)) == Goes(v')
    ensures CanServe(v.world, UserAt(v, sid), r)
    ensures v' == Spread(v, ServedWorld(v.world, UserAt(v, sid), r, v.now))
  {
    var me := UserAt(v, sid);
    UserIsInWorld(v, sid);
    IngameReadsExactly(data, r);
    IngameStep(v, sid, data);
    ServedAgrees(v.world, me, r, v.now);
    PollAfterSpread(v, sid, ServedWorld(v.world, me, r, v.now));
    v' := Spread(v, ServedWorld(v.world, me, r, v.now));
  }

  // ---------------------------------------------------------------- Messages

  /** What a chat message makes the server send to a user, and a whisper. */
  function MessageFor(w: World, me: Entity, room: Text, message: Text, e: Entity): seq<Packet> {
    var es := Chats.Members(ChatOf(w), room);
    if me in es && e in es then [ChatMsg(room, me.name, message)] else []
  }

  function WhisperFor(me: Entity, recipient: Text, message: Text, e: Entity): seq<Packet> {
    if e.name == recipient && e != me then [WhisperMessage(me.name, message)] else []
  }

  /** Only the mail has changed. */
  predicate OnlyMail(w: World, w': World) {
    w' == w.(social := w.social.(mail := w'.social.mail))
  }

  lemma ServedChat(w: World, me: Entity, r: IngameRequest, now: int)
    requires CanServe(w, me, r)
    ensures r.SendChatMsg? ==>
              ServedWorld(w, me, r, now) == WithChat(w, Chats.BroadcastMessage(ChatOf(w), me, r.room, r.message))
    ensures r.SendWhisper? ==>
              ServedWorld(w, me, r, now) == WithChat(w, Chats.Whisper(ChatOf(w), me, r.recipient, r.message))
  {
  }

  lemma MessageTells(w: World, me: Entity, room: Text, message: Text, w': World)
    requires Chats.Consistent(ChatOf(w)) && w' == WithChat(w, Chats.BroadcastMessage(ChatOf(w), me, room, message))
    ensures OnlyMail(w, w')
    ensures forall e <- w.entities :: Gets(w.social.mail, w'.social.mail, e.uid, MessageFor(w, me, room, message, e))
  {
    forall e <- w.entities
      ensures Gets(w.social.mail, w'.social.mail, e.uid, MessageFor(w, me, room, message, e))
    {
      Chats.MessageReaches(ChatOf(w), me, room, message, e);
    }
  }

  /** A chat message of a participant reaches the clients of exactly the participants; an outsider's reaches nobody. */
  lemma MessageArrives(v: Server, sid: nat, data: Text, room: Text, message: Text) returns (v': Server)
    requires WorldWaits(v, sid) && Agrees(v.world, v.now)
    requires |data| <= BUFFER_SIZE && Begins(data, IngameFields(SendChatMsg(room, message)))
    ensures Possible(v, Arrival(sid, data)) && Step(v, Arrival(sid, data)) == Goes(v')
    ensures OnlyMail(v.world, v'.world)
    ensures forall e <- v.world.entities ::
              ClientHears(v, v', e.uid, MessageFor(v.world, UserAt(v, sid), room, message, e))
  {
    v' := RequestIsServed(v, sid, data, SendChatMsg(room, message));
    ServedChat(v.world, UserAt(v, sid), SendChatMsg(room, message), v.now);
    MessageTells(v.world, UserAt(v, sid), room, message, v'.world);
    MessageSpreads(v, UserAt(v, sid), room, message, v'.world);
  }

  lemma MessageSpreads(v: Server, me: Entity, room: Text, message: Text, w: World)
    requires forall e <- v.world.entities ::
               Gets(v.world.social.mail, w.social.mail, e.uid, MessageFor(v.world, me, room, message, e))
    ensures forall e <- v.world.entities ::
              ClientHears(v, Spread(v, w), e.uid, MessageFor(v.world, me, room, message, e))
  {
    forall e <- v.world.entities
      ensures ClientHears(v, Spread(v, w), e.uid, MessageFor(v.world, me, room, message, e))
    {
      SpreadTells(v, w, e.uid, MessageFor(v.world, me, room, message, e));
    }
  }

  lemma NamesFindUsers(w: World)
    requires SameUsers(w)
    ensures forall n <- w.social.registry.byName ::
              w.social.registry.byName[n] in w.entities && w.social.registry.byName[n].name == n
    ensures forall e <- w.entities :: e.name in w.social.registry.byName && w.social.registry.byName[e.name] == e
  {
    forall n <- w.social.registry.byName
      ensures w.social.registry.byName[n] in w.entities
    {
      NamedUser(w, n);
    }
    forall e <- w.entities
      ensures e.name in w.social.registry.byName && w.social.registry.byName[e.name] == e
    {
      assert w.social.registry.byId[e.uid] == e;
    }
  }

  lemma WhisperTells(w: World, me: Entity, recipient: Text, message: Text, w': World)
    requires SameUsers(w) && Chats.Consistent(ChatOf(w))
    requires w' == WithChat(w, Chats.Whisper(ChatOf(w), me, recipient, message))
    ensures OnlyMail(w, w')
    ensures forall e <- w.entities :: Gets(w.social.mail, w'.social.mail, e.uid, WhisperFor(me, recipient, message, e))
  {
    NamesFindUsers(w);
    forall e <- w.entities
      ensures Gets(w.social.mail, w'.social.mail, e.uid, WhisperFor(me, recipient, message, e))
    {
      Chats.WhisperReaches(ChatOf(w), me, recipient, message, e);
    }
  }

  /** A whisper reaches the client of exactly the user of that name, unless he is the sender. */
  lemma WhisperArrives(v: Server, sid: nat, data: Text, recipient: Text, message: Text) returns (v': Server)
    requires WorldWaits(v, sid) && Agrees(v.world, v.now)
    requires |data| <= BUFFER_SIZE && Begins(data, IngameFields(SendWhisper(recipient, message)))
    ensures Possible(v, Arrival(sid, data)) && Step(v, Arrival(sid, data)) == Goes(v')
    ensures OnlyMail(v.world, v'.world)
    ensures forall e <- v.world.entities ::
              ClientHears(v, v', e.uid, WhisperFor(UserAt(v, sid), recipient, message, e))
  {
    v' := RequestIsServed(v, sid, data, SendWhisper(recipient, message));
    ServedChat(v.world, UserAt(v, sid), SendWhisper(recipient, message), v.now);
    WhisperTells(v.world, UserAt(v, sid), recipient, message, v'.world);
    WhisperSpreads(v, UserAt(v, sid), recipient, message, v'.world);
  }

  lemma WhisperSpreads(v: Server, me: Entity, recipient: Text, message: Text, w: World)
    requires forall e <- v.world.entities ::
               Gets(v.world.social.mail, w.social.mail, e.uid, WhisperFor(me, recipient, message, e))
    ensures forall e <- v.world.entities ::
              ClientHears(v, Spread(v, w), e.uid, WhisperFor(me, recipient, message, e))
  {
    forall e <- v.world.entities
      ensures ClientHears(v, Spread(v, w), e.uid, WhisperFor(me, recipient, message, e))
    {
      SpreadTells(v, w, e.uid, WhisperFor(me, recipient, message, e));
    }
  }

  // ---------------------------------------------------------------- Rooms

  /** Joining by packet: I am the last of the participants, and the clients of all participants hear it. */
  lemma JoinArrives(v: Server, sid: nat, data: Text, room: Text) returns (v': Server)
    requires WorldWaits(v, sid) && Agrees(v.world, v.now)
    requires |data| <= BUFFER_SIZE && Begins(data, IngameFields(JoinChat(room)))
    requires UserAt(v, sid) !in Chats.Members(ChatOf(v.world), room)
    ensures Possible(v, Arrival(sid, data)) && Step(v, Arrival(sid, data)) == Goes(v')
    ensures OnlyRoom(ChatOf(v.world), ChatOf(v'.world), room)
    ensures room in v'.world.rooms
    ensures v'.world.rooms[room] == Chats.Members(ChatOf(v.world), room) + [UserAt(v, sid)]
    ensures forall e <- v.world.entities ::
              ClientHears(v, v', e.uid,
                          if e in v'.world.rooms[room] then [UserJoinedChat(room, UserAt(v, sid).name)] else [])
  {
    var c, me := ChatOf(v.world), UserAt(v, sid);
    v' := RequestIsServed(v, sid, data, JoinChat(room));
    UserIsInWorld(v, sid);
    JoinJoins(c, me, room);
    JoinedWorld(v.world, me, room, v.now);
    RoomSpreads(v, v'.world, v'.world.rooms[room], UserJoinedChat(room, me.name));
  }

  lemma RoomSpreads(v: Server, w: World, es: seq<Entity>, p: Packet)
    requires OnlyTheyHear(ChatOf(v.world), w.social.mail, es, p)
    ensures forall e <- v.world.entities :: ClientHears(v, Spread(v, w), e.uid, if e in es then [p] else [])
  {
    forall e <- v.world.entities
      ensures ClientHears(v, Spread(v, w), e.uid, if e in es then [p] else [])
    {
      SpreadTells(v, w, e.uid, if e in es then [p] else []);
    }
  }

  /** Leaving by packet: I am out, the others stay in their order, and their clients hear it. */
  lemma LeaveArrives(v: Server, sid: nat, data: Text, room: Text, k: nat) returns (v': Server, others: seq<Entity>)
    requires WorldWaits(v, sid) && Agrees(v.world, v.now)
    requires |data| <= BUFFER_SIZE && Begins(data, IngameFields(LeaveChat(room)))
    requires k < |Chats.Members(ChatOf(v.world), room)| && Chats.Members(ChatOf(v.world), room)[k] == UserAt(v, sid)
    ensures Possible(v, Arrival(sid, data)) && Step(v, Arrival(sid, data)) == Goes(v')
    ensures others == AllBut(Chats.Members(ChatOf(v.world), room), k) && UserAt(v, sid) !in others
    ensures OnlyRoom(ChatOf(v.world), ChatOf(v'.world), room)
    ensures (room in v'.world.rooms <==> |others| > 0) && (|others| > 0 ==> v'.world.rooms[room] == others)
    ensures forall e <- v.world.entities ::
              ClientHears(v, v', e.uid, if e in others then [UserLeftChat(room, UserAt(v, sid).name)] else [])
  {
    var c, me := ChatOf(v.world), UserAt(v, sid);
    v' := RequestIsServed(v, sid, data, LeaveChat(room));
    others := AllBut(Chats.Members(c, room), k);
    UserIsInWorld(v, sid);
    LeaveLeaves(c, me, room, k);
    LeftWorld(v.world, me, room, v.now);
    RoomSpreads(v, v'.world, others, UserLeftChat(room, me.name));
  }

  // ---------------------------------------------------------------- Friends

  /** Removing a friend by packet: the friendship is gone on both sides, and the clients of the two hear it. */
  lemma RemovalArrives(v: Server, sid: nat, data: Text, name: Text, his: Uid) returns (v': Server)
    requires WorldWaits(v, sid) && Agrees(v.world, v.now)
    requires |data| <= BUFFER_SIZE && Begins(data, IngameFields(FriendRemove(name)))
    requires HasNickname(v.world.social.tables, his, name)
    requires his in FriendsOf(v.world.social.tables.friends, UserAt(v, sid).uid)
    ensures Possible(v, Arrival(sid, data)) && Step(v, Arrival(sid, data)) == Goes(v')
    ensures AreStrangers(v'.world.social, UserAt(v, sid).uid, his)
    ensures OtherFriendshipsStay(v.world.social, v'.world.social, UserAt(v, sid).uid, his)
    ensures ClientHears(v, v', UserAt(v, sid).uid, [BrokenFriendship(name)])
    ensures his in v.world.social.lists ==> ClientHears(v, v', his, [BrokenFriendship(UserAt(v, sid).name)])
  {
    var s, me := v.world.social, UserAt(v, sid);
    v' := RequestIsServed(v, sid, data, FriendRemove(name));
    UserIsInWorld(v, sid);
    KnownUser(v.world, me);
    RemovalRemoves(s, me, name, his, v.now);
    RemovedWorld(v.world, me, name, v.now);
    SpreadTells(v, v'.world, me.uid, [BrokenFriendship(name)]);
    if his in s.lists {
      SpreadTells(v, v'.world, his, [BrokenFriendship(me.name)]);
    }
  }

  /** A friend request by packet is the request of the friend system, and what it mails reaches the clients. */
  lemma FriendAddArrives(v: Server, sid: nat, data: Text, name: Text) returns (v': Server)
    requires WorldWaits(v, sid) && Agrees(v.world, v.now)
    requires |data| <= BUFFER_SIZE && Begins(data, IngameFields(FriendAdd(name)))
    ensures Possible(v, Arrival(sid, data)) && Step(v, Arrival(sid, data)) == Goes(v')
    ensures CanRequest(v.world.social, UserAt(v, sid), name)
    ensures v'.world == v.world.(social := RequestAdd(v.world.social, UserAt(v, sid), name, v.now))
    ensures forall u, ps :: Gets(v.world.social.mail, v'.world.social.mail, u, ps) ==> ClientHears(v, v', u, ps)
  {
    v' := RequestIsServed(v, sid, data, FriendAdd(name));
    AddedWorld(v.world, UserAt(v, sid), name, v.now);
    forall u, ps | Gets(v.world.social.mail, v'.world.social.mail, u, ps)
      ensures ClientHears(v, v', u, ps)
    {
      SpreadTells(v, v'.world, u, ps);
    }
  }

  // ---------------------------------------------------------------- Logging off, closing, ignoring

  /** Logging off to the lobby: nothing is sent, and a new lobby of the account is on its way. */
  lemma LoggingOffReturns(v: Server, sid: nat, data: Text) returns (v': Server)
    requires WorldWaits(v, sid) && |data| <= BUFFER_SIZE && Begins(data, IngameFields(LogOffToLobby))
    ensures Possible(v, Arrival(sid, data)) && Step(v, Arrival(sid, data)) == Goes(v')
    ensures OnlySession(v, sid, v')
    ensures var s := v.sessions[sid];
            v'.sessions[sid] == s.(tasks := [RunTransition], async := StateTransition,
                                   awaiting := Some(Lobby(v.nextLobby, s.current.account, [])))
  {
    var s := v.sessions[sid];
    UserIsInWorld(v, sid);
    LoggedOffSession(s, v.nextLobby);
    IngameReadsExactly(data, LogOffToLobby);
    IngameStep(v, sid, data);
    var s' := ScheduleTransition(Busy(s), Lobby(v.nextLobby, s.current.account, []));
    LogOffStep(Taking(v, sid), sid, data);
    PutTwice(v, sid, Busy(s), s');
    v' := Put(Taking(v, sid), sid, s').(nextLobby := v.nextLobby + 1);
  }

  lemma LoggedOffSession(s: Session, id: nat)
    requires s.current.Ingame?
    ensures ScheduleTransition(Busy(s), Lobby(id, s.current.account, []))
         == s.(tasks := [RunTransition], async := StateTransition, awaiting := Some(Lobby(id, s.current.account, [])))
  {
  }

  lemma LogOffStep(v: Server, sid: nat, data: Text)
    requires sid in v.sessions && v.sessions[sid].current.Ingame? && v.sessions[sid].awaiting.None?
    requires ReadIngameRequest(data).LogOffToLobby?
    ensures var s := v.sessions[sid];
            var s' := ScheduleTransition(s, Lobby(v.nextLobby, s.current.account, []));
            HandleIngame(v, sid, data) == Goes(Put(v, sid, s').(nextLobby := v.nextLobby + 1))
  {
  }

  /** A packet without an opcode, or a request that breaks off, closes the session. */
  lemma BadRequestCloses(v: Server, sid: nat, data: Text, r: IngameRequest) returns (v': Server)
    requires WorldWaits(v, sid) && !r.NoIngameRequest? && !r.BadIngameRequest?
    requires |data| == 0 || (ShortTexts(IngameFields(r)) && BreaksOff(data, IngameFields(r)))
    ensures Possible(v, Arrival(sid, data)) && Step(v, Arrival(sid, data)) == Goes(v')
    ensures OnlyClosed(v, sid, v')
  {
    var s := v.sessions[sid];
    if |data| == 0 {
      OtherOpcodes(data);
    } else {
      CutIngameIsBad(data, r);
    }
    IngameStep(v, sid, data);
    BadStep(Taking(v, sid), sid, data);
    v' := Put(Taking(v, sid), sid, ForceClose(Busy(s)));
    ClosedServer(v, sid, v');
  }

  lemma BadStep(v: Server, sid: nat, data: Text)
    requires sid in v.sessions && v.sessions[sid].current.Ingame? && ReadIngameRequest(data).BadIngameRequest?
    ensures HandleIngame(v, sid, data) == Goes(Put(v, sid, ForceClose(v.sessions[sid])))
  {
  }

  lemma SpreadNothing(v: Server)
    ensures Spread(v, v.world) == v
  {
    forall t <- v.sessions
      ensures Forward(v.sessions[t], v.world.social.mail, v.world.social.mail) == v.sessions[t]
    {
      ForwardedNothing(v.sessions[t], v.world.social.mail);
    }
    assert Spread(v, v.world).sessions == v.sessions;
  }

  /** An unknown opcode does nothing. */
  lemma UnknownRequestIsIgnored(v: Server, sid: nat, data: Text)
    requires WorldWaits(v, sid) && Agrees(v.world, v.now) && |data| > 0 && data[0] > 6
    ensures Possible(v, Arrival(sid, data)) && Step(v, Arrival(sid, data)) == Goes(v)
  {
    UserIsInWorld(v, sid);
    OtherOpcodes(data);
    IngameStep(v, sid, data);
    CanServeNow(v.world, UserAt(v, sid), NoIngameRequest, v.now);
    UnservedWorld(v.world, UserAt(v, sid), NoIngameRequest, v.now);
    ServedStep(Taking(v, sid), sid, data);
    PollAfterSpread(v, sid, v.world);
    SpreadNothing(v);
  }

  lemma ServedStep(v: Server, sid: nat, data: Text)
    requires sid in v.sessions && v.sessions[sid].current.Ingame?
    requires CanServe(v.world, v.sessions[sid].current.me, ReadIngameRequest(data))
    requires !ReadIngameRequest(data).BadIngameRequest? && !ReadIngameRequest(data).LogOffToLobby?
    ensures var v1 := Spread(v, ServedWorld(v.world, v.sessions[sid].current.me, ReadIngameRequest(data), v.now));
            HandleIngame(v, sid, data) == Goes(Put(v1, sid, PollAgain(v1.sessions[sid])))
  {
  }

  // ---------------------------------------------------------------- The timers

  /** The timer of the chat sends every user one census for every room that he is in, and changes nothing else. */
  lemma BroadcastArrives(v: Server, rooms: seq<Text>) returns (v': Server)
    requires Agrees(v.world, v.now) && Enumerates(rooms, v.world.rooms.Keys)
    ensures Possible(v, BroadcastTimer(rooms)) && Step(v, BroadcastTimer(rooms)) == Goes(v')
    ensures OnlyMail(v.world, v'.world)
    ensures forall e <- v.world.entities :: ClientHears(v, v', e.uid, Chats.Censuses(ChatOf(v.world), e, rooms))
  {
    var c := ChatOf(v.world);
    var w := WithChat(v.world, Chats.PeriodicBroadcast(c, rooms));
    v' := Spread(v, w);
    Chats.PeriodicBroadcastIsConsistent(c, rooms);
    forall e <- v.world.entities
      ensures ClientHears(v, v', e.uid, Chats.Censuses(c, e, rooms))
    {
      Chats.BroadcastReaches(c, rooms, e);
      SpreadTells(v, w, e.uid, Chats.Censuses(c, e, rooms));
    }
  }

  /** After two cleanups no request that was there before the first one waits any more. */
  lemma TwoCleanupsForget(v: Server, between: int) returns (v1: Server, v2: Server)
    ensures Step(v, CleanupTimer) == Goes(v1) && Step(v1.(now := between), CleanupTimer) == Goes(v2)
    ensures forall r, t :: !Live(v2.world.social.buffers, r, t)
    ensures v1 == v.(world := v.world.(social := v.world.social.(buffers := v1.world.social.buffers)))
  {
    v1 := Step(v, CleanupTimer).server;
    v2 := Step(v1.(now := between), CleanupTimer).server;
  }
}
