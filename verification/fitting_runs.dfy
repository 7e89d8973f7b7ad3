/** Whole runs whose requests keep the bounds: everything that the server sends fits its buffer. */
module FittingRuns {
  import opened Basics
  import opened Protocol
  import opened Codec
  import opened Wire
  import opened Client
  import opened Framing
  import opened Database
  import opened WorldRegistrar
  import opened Friends
  import opened Worlds
  import opened Sessions
  import opened ServerSteps
  import opened SessionInvariant
  import opened ServerRuns
  import opened LobbyRuns
  import opened PacketSizes
  import Chats

  // ---------------------------------------------------------------- What fits

  predicate SentFits(s: Session) {
    forall i :: 0 <= i < |s.sent| ==> Fits(s.sent[i])
  }

  predicate AllSentFit(v: Server) {
    forall sid <- v.sessions :: SentFits(v.sessions[sid])
  }

  /** No packet that was sent, or is on its way, is larger than the buffer that it was written to. */
  predicate WithinBuffer(v: Server) {
    FitMail(v.world.social.mail) && AllSentFit(v)
  }

  /** The join of every participant fitted, so his farewell will. */
  predicate FarewellsWillFit(rooms: map<Text, seq<Entity>>) {
    forall room <- rooms :: forall e <- rooms[room] :: |room| + |e.name| <= 2039
  }

  predicate Fitting(v: Server) {
    WithinBuffer(v) && FarewellsWillFit(v.world.rooms)
  }

  /** The database has not run out of unsigned ids. */
  predicate IdsLeft(v: Server) {
    v.world.social.tables.nextId <= IDS
  }

  /** The exact bounds of an event, to be checked when it comes: those of a request to the world, and the census of
      every room when the timer goes off. */
  ghost predicate EventKeepsBounds(v: Server, e: GameEvent) {
    match e
    case Run(sid, _, input) =>
      input.Arrives? && sid in v.sessions && v.sessions[sid].open && v.sessions[sid].current.Ingame? ==>
        RequestFits(v.world, v.sessions[sid].current.me, ReadIngameRequest(input.data))
    case BroadcastTimer(_) => forall room <- v.world.rooms :: CensusFits(ChatOf(v.world), room)
    case _ => true
  }

  // ---------------------------------------------------------------- Names and ids

  lemma UsersHaveShortNames(w: World)
    requires SameUsers(w) && Limited(w.social.tables)
    ensures ShortNames(w)
  {
    forall e <- w.entities
      ensures |e.name| <= NAME_LIMIT && e.uid in w.social.mail
    {
      assert w.social.registry.byId[e.uid] == e && e.uid in w.social.tables.characters;
      assert ProperName(w.social.tables.characters[e.uid].nickname);
    }
  }

  lemma UsersHaveIds(w: World, e: Entity)
    requires SameUsers(w) && Sound(w.social.tables) && e in w.entities
    ensures 0 < e.uid < w.social.tables.nextId
  {
    KnownUser(w, e);
  }

  lemma RoomHasCount(w: World, es: seq<Entity>)
    requires SameUsers(w) && Sound(w.social.tables) && Chats.Distinct(w.entities) && w.social.tables.nextId <= IDS
    requires NoDup(es) && forall e <- es :: e in w.entities
    ensures |es| < IDS
  {
    forall e <- es
      ensures 0 < e.uid < w.social.tables.nextId
    {
      UsersHaveIds(w, e);
    }
    forall i, j | 0 <= i < j < |es|
      ensures es[i].uid != es[j].uid
    {
      assert es[i] in w.entities && es[j] in w.entities;
    }
    RoomsAreCountable(es, w.social.tables.nextId);
  }

  lemma RoomsHaveCounts(w: World, now: int)
    requires Agrees(w, now) && w.social.tables.nextId <= IDS
    ensures CountsAreUnsigned(ChatOf(w))
  {
    forall room <- w.rooms
      ensures |w.rooms[room]| < IDS
    {
      RoomHasCount(w, w.rooms[room]);
    }
  }

  lemma {:induction false} ListBytesOfShortNames(chars: seq<Entity>)
    requires forall i :: 0 <= i < |chars| ==> |chars[i].name| <= NAME_LIMIT
    ensures ListBytes(chars) <= |chars| * (UNSIGNED + UNSIGNED + NAME_LIMIT)
    decreases |chars|
  {
    if |chars| > 0 {
      ListBytesOfShortNames(chars[1..]);
    }
  }

  /** A list of characters of one account, whole or with one left out, fits. */
  lemma ListOfAccountFits(t: Tables, chars: seq<Entity>, account: nat, some: seq<Entity>)
    requires Sound(t) && Limited(t) && t.nextId <= IDS && Enumerates(chars, Owned(t, account))
    requires |some| <= |chars| && forall e <- some :: e in chars
    ensures Fits(CharacterList(some))
  {
    EnumerationCounts(chars, Owned(t, account));
    forall i | 0 <= i < |some|
      ensures |some[i].name| <= NAME_LIMIT && some[i].uid < IDS
    {
      assert some[i] in chars && some[i] in Owned(t, account);
      assert ProperName(t.characters[some[i].uid].nickname);
    }
    ListBytesOfShortNames(some);
  }

  // ---------------------------------------------------------------- Sending

  lemma SendAllFits(s: Session, ps: seq<Packet>)
    requires SentFits(s) && forall i :: 0 <= i < |ps| ==> Fits(ps[i])
    ensures SentFits(SendAll(s, ps))
  {
  }

  lemma ForwardFits(s: Session, before: Mail, after: Mail)
    requires SentFits(s) && FitMail(after)
    ensures SentFits(Forward(s, before, after))
  {
    if UserOf(s).Some? {
      SendAllFits(s, News(before, after, UserOf(s).value.uid));
    }
  }

  lemma SpreadFits(v: Server, w: World)
    requires AllSentFit(v) && FitMail(w.social.mail)
    ensures AllSentFit(Spread(v, w))
  {
    forall sid <- v.sessions
      ensures SentFits(Spread(v, w).sessions[sid])
    {
      ForwardFits(v.sessions[sid], v.world.social.mail, w.social.mail);
    }
  }

  lemma PutFits(v: Server, sid: nat, s: Session)
    requires AllSentFit(v) && SentFits(s)
    ensures AllSentFit(Put(v, sid, s))
  {
  }

  // ---------------------------------------------------------------- Packets

  lemma HelloFits(v: Server, sid: nat, data: Text, verdict: Option<nat>)
    requires Fitting(v) && sid in v.sessions
    ensures var r := HandleHello(v, sid, data, verdict); r.Goes? ==> Fitting(r.server)
  {
    var s := v.sessions[sid];
    SendAllFits(s, [GoodKeys]);
    SendAllFits(s, [BadKeys]);
    if ReadPlain(data, 0, OPCODE).Got? {
      PutFits(v, sid, AfterHello(s, data, verdict, v.nextLobby));
    }
  }

  lemma RegisterFits(s: Social, me: Entity, order: seq<Uid>)
    requires FitMail(s.mail) && |me.name| <= NAME_LIMIT
    requires CanRegister(s, me) && Enumerates(order, NewcomersFriends(s, me.uid))
    requires forall i :: 0 <= i < |order| ==> Fits(Greetings(s.registry, order)[i])
    ensures FitMail(Register(s, me, order).mail)
  {
    DeliverFits(s.mail, NewcomersFriends(s, me.uid), FriendLogin(me.name));
    var mail := Deliver(s.mail, NewcomersFriends(s, me.uid), FriendLogin(me.name));
    assert Register(s, me, order).mail == mail[me.uid := mail[me.uid] + Greetings(s.registry, order)];
  }

  lemma NewcomersMailFits(w: World, me: Entity, order: seq<Uid>)
    requires FitMail(w.social.mail) && ShortNames(w) && Indexed(w.social.registry) && |me.name| <= NAME_LIMIT
    requires CanRegister(InChat(Opened(w, me), me).social, me)
    requires Enumerates(order, NewcomersFriends(w.social, me.uid))
    ensures FitMail(Enter(w, me, order).social.mail)
  {
    var s := InChat(Opened(w, me), me).social;
    assert s.registry == w.social.registry && FitMail(s.mail);
    GreetingsFit(w, order);
    RegisterFits(s, me, order);
  }

  lemma GreetingsFit(w: World, order: seq<Uid>)
    requires ShortNames(w) && Indexed(w.social.registry) && forall f <- order :: f in w.social.registry.byId
    ensures forall i :: 0 <= i < |order| ==> Fits(Greetings(w.social.registry, order)[i])
  {
    var r := w.social.registry;
    forall i | 0 <= i < |order|
      ensures Fits(Greetings(r, order)[i])
    {
      var e := r.byId[order[i]];
      assert r.byName[e.name] == e && e in w.entities;
    }
  }

  lemma EnteredFits(v: Server, sid: nat, w: World, me: Entity)
    requires AllSentFit(v) && FitMail(w.social.mail) && FarewellsWillFit(w.rooms)
    requires sid in v.sessions && v.sessions[sid].current.Lobby? && me.uid in w.social.mail
    ensures Fitting(Entered(v, sid, w, me))
  {
    SpreadFits(v, w);
    var v1 := Spread(v, w);
    SendAllFits(v1.sessions[sid], w.social.mail[me.uid]);
    var s := SendAll(v1.sessions[sid], w.social.mail[me.uid]);
    PutFits(v1, sid, PollAgain(ScheduleTransition(s, Ingame(v.sessions[sid].current.account, me))));
  }

  lemma SelectFits(v: Server, sid: nat, name: Text, friends: seq<Uid>)
    requires Fitting(v) && sid in v.sessions && v.sessions[sid].current.Lobby?
    requires ShortNames(v.world) && Indexed(v.world.social.registry)
    requires forall e <- v.sessions[sid].current.chars :: |e.name| <= NAME_LIMIT
    requires var chars := v.sessions[sid].current.chars;
             var i := Find(chars, name);
             i < |chars| ==> Enumerates(friends, NewcomersFriends(v.world.social, chars[i].uid))
    ensures var r := HandleSelect(v, sid, name, friends); r.Goes? ==> Fitting(r.server)
  {
    var s := v.sessions[sid];
    var i := Find(s.current.chars, name);
    if i < |s.current.chars| && CanEnter(v.world, s.current.chars[i]) && s.awaiting.None? {
      var me := s.current.chars[i];
      assert me in s.current.chars;
      SendAllFits(s, [CharacterSelected(me.name)]);
      NewcomersMailFits(v.world, me, friends);
      EnterFrame(v.world, me, friends);
      EnteredFits(Put(v, sid, Send(s, CharacterSelected(me.name))), sid, Enter(v.world, me, friends), me);
    }
  }

  lemma CreateFits(v: Server, sid: nat, name: Text)
    requires Fitting(v) && sid in v.sessions && v.sessions[sid].current.Lobby?
    requires IdsLeft(HandleCreate(v, sid, name))
    ensures Fitting(HandleCreate(v, sid, name))
  {
    var s, t := v.sessions[sid], v.world.social.tables;
    match CreationProblem(t, s.current.chars, name)
    case Some(failure) => SendAllFits(s, [CharacterCreationFail(failure)]);
    case None =>
      var e := Entity(t.nextId, name);
      SendAllFits(Relisted(s, s.current.chars + [e]), [CharacterCreated(e)]);
  }

  lemma DeleteFits(v: Server, sid: nat, name: Text)
    requires Fitting(v) && sid in v.sessions && v.sessions[sid].current.Lobby? && IdsLeft(v)
    requires Sound(v.world.social.tables) && Limited(v.world.social.tables)
    requires Enumerates(v.sessions[sid].current.chars, Owned(v.world.social.tables, v.sessions[sid].current.account))
    ensures Fitting(HandleDelete(v, sid, name))
  {
    var s, t := v.sessions[sid], v.world.social.tables;
    var chars := s.current.chars;
    var i := Find(chars, name);
    if i < |chars| {
      var rest := chars[..i] + chars[i + 1..];
      ListOfAccountFits(t, chars, s.current.account, rest);
      SendAllFits(Relisted(s, rest), [CharacterList(rest)]);
    }
  }

  /** The lobby, which knows the characters of its account. */
  lemma LobbyFits(v: Server, sid: nat, data: Text, friends: seq<Uid>)
    requires Fitting(v) && IdsLeft(v) && ShortNames(v.world) && Indexed(v.world.social.registry)
    requires sid in v.sessions && v.sessions[sid].current.Lobby?
    requires Sound(v.world.social.tables) && Limited(v.world.social.tables)
    requires Enumerates(v.sessions[sid].current.chars, Owned(v.world.social.tables, v.sessions[sid].current.account))
    requires OrderFits(v.world, v.sessions[sid].current, data, friends)
    ensures var r := HandleLobby(v, sid, data, friends); r.Goes? && IdsLeft(r.server) ==> Fitting(r.server)
  {
    match ReadLobbyRequest(data)
    case Select(name) =>
      ListedNamesAreShort(v.world.social.tables, v.sessions[sid].current.chars, v.sessions[sid].current.account);
      SelectFits(v, sid, name, friends);
    case Create(name) =>
      if IdsLeft(HandleCreate(v, sid, name)) {
        CreateFits(v, sid, name);
      }
    case Delete(name) => DeleteFits(v, sid, name);
    case _ => PutFits(v, sid, v.sessions[sid]);
  }

  lemma ListedNamesAreShort(t: Tables, chars: seq<Entity>, account: nat)
    requires Limited(t) && Enumerates(chars, Owned(t, account))
    ensures forall e <- chars :: |e.name| <= NAME_LIMIT
  {
    forall e <- chars
      ensures |e.name| <= NAME_LIMIT
    {
      assert e in Owned(t, account);
      assert ProperName(t.characters[e.uid].nickname);
    }
  }

  lemma FarewellsAfterJoin(c: Chats.Chat, me: Entity, room: Text, c': Chats.Chat)
    requires FarewellsWillFit(c.rooms) && c' == Chats.JoinRoom(c, me, room)
    requires me in Chats.Members(c, room) || |room| + |me.name| <= 2039
    ensures FarewellsWillFit(c'.rooms)
  {
  }

  lemma FarewellsAfterLeave(c: Chats.Chat, me: Entity, room: Text, c': Chats.Chat)
    requires FarewellsWillFit(c.rooms) && c' == Chats.LeaveRoom(c, me, room)
    ensures FarewellsWillFit(c'.rooms)
  {
  }

  lemma FarewellsAfterRequest(w: World, me: Entity, r: IngameRequest, now: int)
    requires FarewellsWillFit(w.rooms) && CanServe(w, me, r) && RequestFits(w, me, r)
    ensures FarewellsWillFit(ServedWorld(w, me, r, now).rooms)
  {
    match r
    case JoinChat(room) => FarewellsAfterJoin(ChatOf(w), me, room, Chats.JoinRoom(ChatOf(w), me, room));
    case LeaveChat(room) => FarewellsAfterLeave(ChatOf(w), me, room, Chats.LeaveRoom(ChatOf(w), me, room));
    case _ =>
  }

  lemma IngameFits(v: Server, sid: nat, data: Text)
    requires Fitting(v) && ShortNames(v.world) && Chats.RoomsAgree(ChatOf(v.world))
    requires sid in v.sessions && v.sessions[sid].current.Ingame?
    requires RequestFits(v.world, v.sessions[sid].current.me, ReadIngameRequest(data))
    ensures var r := HandleIngame(v, sid, data); r.Goes? ==> Fitting(r.server)
  {
    var me, r := v.sessions[sid].current.me, ReadIngameRequest(data);
    if !r.BadIngameRequest? && !r.LogOffToLobby? && CanServe(v.world, me, r) {
      var w := ServedWorld(v.world, me, r, v.now);
      RequestFitsExactly(v.world, me, r, v.now);
      FarewellsAfterRequest(v.world, me, r, v.now);
      SpreadFits(v, w);
      var v1 := Spread(v, w);
      PutFits(v1, sid, PollAgain(v1.sessions[sid]));
    }
  }

  // ---------------------------------------------------------------- Leaving

  lemma FarewellMail(c: Chats.Chat, me: Entity, room: Text, c': Chats.Chat)
    requires c' == Chats.LeaveRoom(c, me, room)
    ensures || c'.mail == c.mail
            || (room in c.rooms && me in c.rooms[room]
                && c'.mail == Deliver(c.mail, Chats.UidsOf(Without(c.rooms[room], me)), UserLeftChat(room, me.name)))
  {
  }

  lemma NoticeMailFits(mail: Mail, to: set<Uid>, room: Text, who: Text, mail': Mail)
    requires FitMail(mail) && |room| + |who| <= 2039
    requires mail' == Deliver(mail, to, UserLeftChat(room, who))
    ensures FitMail(mail')
  {
    DeliverFits(mail, to, UserLeftChat(room, who));
  }

  lemma FarewellFits(c: Chats.Chat, me: Entity, room: Text, c': Chats.Chat)
    requires FitMail(c.mail) && FarewellsWillFit(c.rooms) && c' == Chats.LeaveRoom(c, me, room)
    ensures FitMail(c'.mail) && FarewellsWillFit(c'.rooms)
  {
    FarewellsAfterLeave(c, me, room, c');
    FarewellMail(c, me, room, c');
    if c'.mail != c.mail {
      NoticeMailFits(c.mail, Chats.UidsOf(Without(c.rooms[room], me)), room, me.name, c'.mail);
    }
  }

  lemma {:induction false} FarewellsFit(c: Chats.Chat, me: Entity, order: seq<Text>)
    requires FitMail(c.mail) && FarewellsWillFit(c.rooms)
    ensures FitMail(Chats.LeaveRooms(c, me, order).mail) && FarewellsWillFit(Chats.LeaveRooms(c, me, order).rooms)
    decreases |order|
  {
    if |order| > 0 {
      FarewellsFit(c, me, order[..|order| - 1]);
      var c1 := Chats.LeaveRooms(c, me, order[..|order| - 1]);
      FarewellFits(c1, me, order[|order| - 1], Chats.LeaveRooms(c, me, order));
    }
  }

  lemma LastWorldFits(w: World, me: Entity, rooms: seq<Text>)
    requires FitMail(w.social.mail) && FarewellsWillFit(w.rooms) && |me.name| <= NAME_LIMIT
    requires me.uid in w.social.lists
    ensures FitMail(LastWorld(w, me, rooms).social.mail) && FarewellsWillFit(LastWorld(w, me, rooms).rooms)
  {
    DeliverFits(w.social.mail, OnlineFriends(w.social, me.uid), FriendLeave(me.name));
    var w2 := OutOfFriends(OutOfRegistrar(w, me), me);
    assert FitMail(w2.social.mail);
    FarewellsFit(ChatOf(w2), me, rooms);
  }

  lemma DepartedFits(v: Server, sid: nat, s': Session, w: World, me: Entity)
    requires AllSentFit(v) && SentFits(s') && FitMail(w.social.mail) && FarewellsWillFit(w.rooms)
    ensures Fitting(Put(v, sid, s').(world := Closed(w, me)))
  {
    PutFits(v, sid, s');
  }

  lemma DestroyedFits(v: Server, sid: nat, rooms: seq<Text>)
    requires Fitting(v) && ShortNames(v.world) && sid in v.sessions
    ensures var r := Destroyed(v, sid, rooms); r.Goes? ==> Fitting(r.server) && sid in r.server.sessions
  {
    var s := v.sessions[sid];
    if s.current.Ingame? && CanLeave(v.world, s.current.me) {
      var me := s.current.me;
      var w := LastWorld(v.world, me, rooms);
      LastWorldFits(v.world, me, rooms);
      SpreadFits(v, w);
      var v1 := Spread(v, w);
      SendAllFits(v1.sessions[sid], [MovedToLobby]);
      DepartedFits(v1, sid, Send(v1.sessions[sid], MovedToLobby).(current := Null), w, me);
    }
  }

  // ---------------------------------------------------------------- Events

  lemma ArrivalFits(v: Server, sid: nat, input: Input)
    requires Invariant(v) && Possible(v, Run(sid, 0, input)) && v.sessions[sid].open && v.sessions[sid].tasks == [Recv]
    requires Limited(v.world.social.tables) && Fitting(v) && IdsLeft(v) && input.Arrives?
    requires EventKeepsBounds(v, Run(sid, 0, input))
    ensures var r := Handle(Taking(v, sid), sid, input);
            r.Goes? && IdsLeft(r.server) ==> Fitting(r.server)
  {
    var s, v1 := v.sessions[sid], Taking(v, sid);
    assert Good(v.world, s);
    UsersHaveShortNames(v.world);
    PutFits(v, sid, Busy(s));
    match s.current
    case Null =>
    case Preauth => HelloFits(v1, sid, input.data, input.verdict);
    case Lobby(_, _, _) => LobbyFits(v1, sid, input.data, input.friends);
    case Ingame(_, _) => IngameFits(v1, sid, input.data);
  }

  lemma BreakFits(v: Server, sid: nat)
    requires Fitting(v) && sid in v.sessions
    ensures Fitting(Taking(v, sid)) && Fitting(Put(Taking(v, sid), sid, ForceClose(Busy(v.sessions[sid]))))
  {
  }

  lemma ListSentFits(v: Server, sid: nat, rows: seq<Entity>)
    requires Fitting(v) && sid in v.sessions && v.sessions[sid].current.Lobby? && Fits(CharacterList(rows))
    ensures Fitting(Put(v, sid, Arm(Send(Relisted(v.sessions[sid], rows), CharacterList(rows)))))
  {
    SendAllFits(Relisted(v.sessions[sid], rows), [CharacterList(rows)]);
  }

  lemma CallbackSends(v: Server, sid: nat, lobby: nat, rows: seq<Entity>)
    requires sid in v.sessions && v.sessions[sid].current.Lobby?
    ensures var r := RunTask(v, sid, Completion(lobby, rows), Nothing);
            r.Goes? ==> r.server == Put(v, sid, Arm(Send(Relisted(v.sessions[sid], rows), CharacterList(rows))))
  {
  }

  lemma CallbackFits(v: Server, sid: nat, lobby: nat, rows: seq<Entity>)
    requires AllGood(v) && Sound(v.world.social.tables) && Limited(v.world.social.tables) && Fitting(v) && IdsLeft(v)
    requires sid in v.sessions && v.sessions[sid].tasks == [Completion(lobby, rows)]
    ensures var r := RunTask(Taking(v, sid), sid, Completion(lobby, rows), Nothing);
            r.Goes? ==> Fitting(r.server)
  {
    BreakFits(v, sid);
    assert Good(v.world, v.sessions[sid]);
    if v.sessions[sid].current.Lobby? {
      ListOfAccountFits(v.world.social.tables, rows, v.sessions[sid].current.account, rows);
      ListSentFits(Taking(v, sid), sid, rows);
      CallbackSends(Taking(v, sid), sid, lobby, rows);
    }
  }

  lemma TransitionFits(v: Server, sid: nat, rooms: seq<Text>)
    requires Fitting(v) && ShortNames(v.world) && sid in v.sessions
    ensures var r := RunTask(v, sid, RunTransition, Visits(rooms)); r.Goes? ==> Fitting(r.server)
  {
    DestroyedFits(v, sid, rooms);
  }

  lemma ReceptionFits(v: Server, sid: nat, input: Input)
    requires Invariant(v) && Possible(v, Run(sid, 0, input)) && v.sessions[sid].tasks == [Recv]
    requires Limited(v.world.social.tables) && Fitting(v) && IdsLeft(v)
    requires EventKeepsBounds(v, Run(sid, 0, input))
    ensures var r := RunTask(Taking(v, sid), sid, Recv, input);
            r.Goes? && IdsLeft(r.server) ==> Fitting(r.server)
  {
    BreakFits(v, sid);
    if v.sessions[sid].open && input.Arrives? {
      ArrivalFits(v, sid, input);
    }
  }

  lemma OtherTaskFits(v: Server, sid: nat, t: Task, input: Input)
    requires Fitting(v) && ShortNames(v.world) && sid in v.sessions
    requires if t.Query? then input.Returns? else (t.RunTransition? || t.RunFinalize?) && input.Visits?
    ensures var r := RunTask(v, sid, t, input);
            r.Goes? ==> Fitting(r.server)
  {
    match t
    case RunTransition => TransitionFits(v, sid, input.rooms);
    case RunFinalize => DestroyedFits(v, sid, input.rooms);
    case Query(_, _) =>
  }

  lemma TaskFits(v: Server, sid: nat, t: Task, input: Input)
    requires Invariant(v) && Possible(v, Run(sid, 0, input)) && v.sessions[sid].tasks == [t]
    requires Limited(v.world.social.tables) && Fitting(v) && IdsLeft(v)
    requires EventKeepsBounds(v, Run(sid, 0, input))
    ensures var r := RunTask(Taking(v, sid), sid, t, input);
            r.Goes? && IdsLeft(r.server) ==> Fitting(r.server)
  {
    BreakFits(v, sid);
    assert ShortNames(v.world) by {
      UsersHaveShortNames(v.world);
    }
    match t
    case Recv => ReceptionFits(v, sid, input);
    case Completion(lobby, rows) => CallbackFits(v, sid, lobby, rows);
    case _ => OtherTaskFits(Taking(v, sid), sid, t, input);
  }

  lemma EveryRoomIsHeard(w: World, order: seq<Text>)
    requires ShortNames(w) && Chats.RoomsAgree(ChatOf(w)) && Enumerates(order, w.rooms.Keys)
    ensures Heard(ChatOf(w), order)
  {
    forall i | 0 <= i < |order|
      ensures !(w.social.mail.Keys !! Chats.UidsOf(Chats.Members(ChatOf(w), order[i])))
    {
      var es := w.rooms[order[i]];
      assert es[0] in es;
      ReachesSomebody(w, es);
    }
  }

  lemma EveryRoomOnce(c: Chats.Chat, order: seq<Text>)
    requires Enumerates(order, c.rooms.Keys)
    ensures CensusesFit(c, order) <==> forall room <- c.rooms :: CensusFits(c, room)
  {
    if CensusesFit(c, order) {
      forall room <- c.rooms
        ensures CensusFits(c, room)
      {
        assert room in order;
      }
    }
  }

  /** The world after the timer, whose mail fits if and only if every census does. */
  lemma TimerFitsExactly(v: Server, rooms: seq<Text>, w: World)
    requires ShortNames(v.world) && Chats.RoomsAgree(ChatOf(v.world)) && FitMail(v.world.social.mail)
    requires Enumerates(rooms, v.world.rooms.Keys)
    requires w == WithChat(v.world, Chats.PeriodicBroadcast(ChatOf(v.world), rooms))
    ensures FitMail(w.social.mail) <==> EventKeepsBounds(v, BroadcastTimer(rooms))
    ensures w.rooms == v.world.rooms
  {
    EveryRoomIsHeard(v.world, rooms);
    EveryRoomOnce(ChatOf(v.world), rooms);
    BroadcastFitsExactly(ChatOf(v.world), rooms);
    BroadcastAddsNoRooms(ChatOf(v.world), rooms);
  }

  lemma StepFits(v: Server, e: GameEvent)
    requires Invariant(v) && Possible(v, e) && Limited(v.world.social.tables)
    requires Fitting(v) && IdsLeft(v) && EventKeepsBounds(v, e)
    ensures Step(v, e).Goes? && IdsLeft(Step(v, e).server) ==> Fitting(Step(v, e).server)
  {
    match e
    case Accept(sid) => PutFits(v, sid, ACCEPTED);
    case BroadcastTimer(rooms) =>
      var w := WithChat(v.world, Chats.PeriodicBroadcast(ChatOf(v.world), rooms));
      UsersHaveShortNames(v.world);
      TimerFitsExactly(v, rooms, w);
      SpreadFits(v, w);
    case CleanupTimer =>
    case Run(sid, k, input) =>
      assert Good(v.world, v.sessions[sid]);
      OnlyTask(v.sessions[sid], k);
      TaskFits(v, sid, v.sessions[sid].tasks[0], input);
  }

  // ---------------------------------------------------------------- The bounds are exact

  lemma IngameFitsOnlyIf(v: Server, sid: nat, data: Text)
    requires FitMail(v.world.social.mail) && ShortNames(v.world) && Chats.RoomsAgree(ChatOf(v.world))
    requires sid in v.sessions && v.sessions[sid].current.Ingame?
    requires !RequestFits(v.world, v.sessions[sid].current.me, ReadIngameRequest(data))
    ensures var r := HandleIngame(v, sid, data); r.Goes? ==> !FitMail(r.server.world.social.mail)
  {
    var me, r := v.sessions[sid].current.me, ReadIngameRequest(data);
    if CanServe(v.world, me, r) {
      RequestFitsExactly(v.world, me, r, v.now);
    }
  }

  lemma RunFitsOnlyIf(v: Server, sid: nat, k: nat, input: Input)
    requires Invariant(v) && Possible(v, Run(sid, k, input)) && Limited(v.world.social.tables)
    requires Fitting(v) && !EventKeepsBounds(v, Run(sid, k, input))
    ensures Step(v, Run(sid, k, input)).Goes? ==> !WithinBuffer(Step(v, Run(sid, k, input)).server)
  {
    assert v.sessions[sid].tasks == [Recv] && k == 0 && Taken(v.sessions[sid], k) == Busy(v.sessions[sid]) by {
      assert Good(v.world, v.sessions[sid]);
      OnlyTask(v.sessions[sid], k);
    }
    UsersHaveShortNames(v.world);
    IngameFitsOnlyIf(Taking(v, sid), sid, input.data);
  }

  /** Every event writes within the buffer if and only if it keeps its bounds. */
  lemma StepFitsExactly(v: Server, e: GameEvent)
    requires Comfortable(v) && IdsLeft(v) && Possible(v, e) && Step(v, e).Goes? && IdsLeft(Step(v, e).server)
    ensures WithinBuffer(Step(v, e).server) <==> EventKeepsBounds(v, e)
  {
    if EventKeepsBounds(v, e) {
      StepFits(v, e);
    } else {
      match e
      case Run(sid, k, input) => RunFitsOnlyIf(v, sid, k, input);
      case BroadcastTimer(rooms) =>
        UsersHaveShortNames(v.world);
        TimerFitsExactly(v, rooms, WithChat(v.world, Chats.PeriodicBroadcast(ChatOf(v.world), rooms)));
    }
  }

  // ---------------------------------------------------------------- Runs

  /** The ids do not run out in the course of the run. */
  ghost predicate IdsLast(v: Server, run: History)
    requires CanHappen(v, run)
    decreases |run|
  {
    && IdsLeft(v)
    && (|run| == 0 ||
        var next := Step(v.(now := run[0].time), run[0].event);
        next.Goes? ==> IdsLast(next.server, run[1..]))
  }

  /** Every event keeps its bounds when it comes. */
  ghost predicate KeepsBounds(v: Server, run: History)
    requires CanHappen(v, run)
    decreases |run|
  {
    |run| == 0 ||
    var ready := v.(now := run[0].time);
    && EventKeepsBounds(ready, run[0].event)
    && (Step(ready, run[0].event).Goes? ==> KeepsBounds(Step(ready, run[0].event).server, run[1..]))
  }

  /** No packet that is written in the course of the run is larger than its buffer. */
  ghost predicate NeverOverruns(v: Server, run: History)
    requires CanHappen(v, run)
    decreases |run|
  {
    && WithinBuffer(v)
    && (|run| == 0 ||
        var next := Step(v.(now := run[0].time), run[0].event);
        next.Goes? ==> NeverOverruns(next.server, run[1..]))
  }

  /** A state in which every run is safe and within its bounds so far. */
  ghost predicate Comfortable(v: Server) {
    Invariant(v) && Limited(v.world.social.tables) && Fitting(v)
  }

  lemma TimePasses(v: Server, time: int)
    requires Comfortable(v) && v.now <= time
    ensures Comfortable(v.(now := time))
  {
    TimeIsSafe(v, time);
  }

  lemma EventPasses(v: Server, e: GameEvent)
    requires Comfortable(v) && IdsLeft(v) && Possible(v, e) && Step(v, e).Goes? && EventKeepsBounds(v, e)
    ensures IdsLeft(Step(v, e).server) ==> Comfortable(Step(v, e).server)
  {
    StepIsSafe(v, e);
    StepIsLimited(v, e);
    StepFits(v, e);
  }

  lemma {:induction false} RunFits(v: Server, run: History)
    requires Comfortable(v) && CanHappen(v, run) && IdsLast(v, run) && KeepsBounds(v, run)
    ensures StateAfter(v, run).Goes? ==> Comfortable(StateAfter(v, run).server)
    decreases |run|
  {
    if |run| > 0 {
      var ready, e := v.(now := run[0].time), run[0].event;
      TimePasses(v, run[0].time);
      if Step(ready, e).Goes? {
        EventPasses(ready, e);
        RunFits(Step(ready, e).server, run[1..]);
      }
    }
  }

  /** A fault of the preauth state writes nothing and asks for no bounds. */
  lemma FaultKeepsBounds(v: Server, e: GameEvent)
    requires Invariant(v) && Possible(v, e) && Step(v, e).Faults?
    ensures EventKeepsBounds(v, e)
  {
    StepIsSafe(v, e);
  }

  lemma {:induction false} RunFitsExactly(v: Server, run: History)
    requires Comfortable(v) && CanHappen(v, run) && IdsLast(v, run)
    ensures NeverOverruns(v, run) <==> KeepsBounds(v, run)
    decreases |run|
  {
    if |run| > 0 {
      var ready, e := v.(now := run[0].time), run[0].event;
      TimePasses(v, run[0].time);
      if Step(ready, e).Faults? {
        FaultKeepsBounds(ready, e);
      } else {
        StepFitsExactly(ready, e);
        if EventKeepsBounds(ready, e) {
          EventPasses(ready, e);
          RunFitsExactly(Step(ready, e).server, run[1..]);
        }
      }
    }
  }

  lemma StartedIsComfortable(tables: Tables, start: int)
    requires Sound(tables) && Limited(tables)
    ensures Comfortable(Started(tables, start))
  {
    StartedIsSafe(tables, start);
  }

  /** In a run of the server no packet overruns the buffer that it is written to if and only if every event of the run
      keeps its bounds. */
  lemma {:induction false} OverrunsExactly(tables: Tables, start: int, run: History)
    requires Sound(tables) && Limited(tables)
    requires CanHappen(Started(tables, start), run) && IdsLast(Started(tables, start), run)
    ensures NeverOverruns(Started(tables, start), run) <==> KeepsBounds(Started(tables, start), run)
  {
    StartedIsComfortable(tables, start);
    RunFitsExactly(Started(tables, start), run);
  }

  /** Every packet that such a run has sent can be sent. */
  lemma {:induction false} NothingOverruns(tables: Tables, start: int, run: History, v: Server)
    requires Sound(tables) && Limited(tables)
    requires CanHappen(Started(tables, start), run) && StateAfter(Started(tables, start), run) == Goes(v)
    requires IdsLast(Started(tables, start), run) && KeepsBounds(Started(tables, start), run)
    ensures forall sid <- v.sessions :: forall i :: 0 <= i < |v.sessions[sid].sent| ==>
              Sendable(v.sessions[sid].sent[i])
  {
    StartedIsComfortable(tables, start);
    RunFits(Started(tables, start), run);
    forall sid <- v.sessions, i | 0 <= i < |v.sessions[sid].sent|
      ensures Sendable(v.sessions[sid].sent[i])
    {
      assert SentFits(v.sessions[sid]);
      FittingIsSendable(v.sessions[sid].sent[i]);
    }
  }

  /** End to end, from what the clients send alone: in every run whose events keep their bounds, every client takes the
      packets that were sent to it off its stream and decodes each of them as what it is. */
  lemma {:induction false} EveryClientUnderstands(tables: Tables, start: int, run: History, v: Server, sid: nat)
    requires Sound(tables) && Limited(tables)
    requires CanHappen(Started(tables, start), run) && StateAfter(Started(tables, start), run) == Goes(v)
    requires IdsLast(Started(tables, start), run) && KeepsBounds(Started(tables, start), run) && sid in v.sessions
    ensures var sent := v.sessions[sid].sent;
            var received := Receive(Stream(SentBytes(sent)));
            && received == Reception(SentBytes(sent), [], false)
            && Conversation(PreauthPhase, received.packets) == Understood(sent)
  {
    NothingOverruns(tables, start, run, v);
    ClientUnderstands(v, sid);
  }

  // ---------------------------------------------------------------- Bounds on the strings alone

  predicate ModestEvent(e: GameEvent) {
    e.Run? && e.input.Arrives? ==> Modest(ReadIngameRequest(e.input.data))
  }

  lemma ModestRequestKeepsBounds(v: Server, sid: nat, k: nat, input: Input)
    requires ShortRooms(v.world.rooms) && ShortNames(v.world) && AllGood(v) && ModestEvent(Run(sid, k, input))
    ensures EventKeepsBounds(v, Run(sid, k, input))
  {
    if input.Arrives? && sid in v.sessions && v.sessions[sid].open && v.sessions[sid].current.Ingame? {
      assert Good(v.world, v.sessions[sid]);
      ModestFits(v.world, v.sessions[sid].current.me, ReadIngameRequest(input.data));
    }
  }

  lemma ModestEventKeepsBounds(v: Server, e: GameEvent)
    requires Comfortable(v) && IdsLeft(v) && ShortRooms(v.world.rooms) && ModestEvent(e)
    ensures EventKeepsBounds(v, e)
  {
    match e
    case Run(sid, k, input) =>
      UsersHaveShortNames(v.world);
      ModestRequestKeepsBounds(v, sid, k, input);
    case BroadcastTimer(_) =>
      RoomsHaveCounts(v.world, v.now);
      ShortRoomsFit(ChatOf(v.world));
    case _ =>
  }

  // ---------------------------------------------------------------- Rooms stay short

  predicate RoomsStayShort(v: Server, r: Progress) {
    r.Goes? && ShortRooms(v.world.rooms) ==> ShortRooms(r.server.world.rooms)
  }

  lemma {:induction false} LeavingAddsNoRooms(c: Chats.Chat, me: Entity, order: seq<Text>)
    ensures Chats.LeaveRooms(c, me, order).rooms.Keys <= c.rooms.Keys
    decreases |order|
  {
    if |order| > 0 {
      LeavingAddsNoRooms(c, me, order[..|order| - 1]);
    }
  }

  lemma DestroyedAddsNoRooms(v: Server, sid: nat, rooms: seq<Text>)
    requires sid in v.sessions
    ensures var r := Destroyed(v, sid, rooms);
            r.Goes? ==> sid in r.server.sessions && r.server.world.rooms.Keys <= v.world.rooms.Keys
  {
    var s := v.sessions[sid];
    if s.current.Ingame? && CanLeave(v.world, s.current.me) {
      var w := OutOfFriends(OutOfRegistrar(v.world, s.current.me), s.current.me);
      LeavingAddsNoRooms(ChatOf(w), s.current.me, rooms);
    }
  }

  lemma SelectAddsNoRooms(v: Server, sid: nat, name: Text, friends: seq<Uid>)
    requires sid in v.sessions && v.sessions[sid].current.Lobby?
    requires var chars := v.sessions[sid].current.chars;
             var i := Find(chars, name);
             i < |chars| ==> Enumerates(friends, NewcomersFriends(v.world.social, chars[i].uid))
    ensures var r := HandleSelect(v, sid, name, friends);
            r.Goes? ==> r.server.world.rooms == v.world.rooms
  {
    var chars := v.sessions[sid].current.chars;
    var i := Find(chars, name);
    if i < |chars| && CanEnter(v.world, chars[i]) {
      EnterFrame(v.world, chars[i], friends);
    }
  }

  lemma LobbyAddsNoRooms(v: Server, sid: nat, data: Text, friends: seq<Uid>)
    requires sid in v.sessions && v.sessions[sid].current.Lobby?
    requires OrderFits(v.world, v.sessions[sid].current, data, friends)
    ensures var r := HandleLobby(v, sid, data, friends);
            r.Goes? ==> r.server.world.rooms == v.world.rooms
  {
    match ReadLobbyRequest(data)
    case Select(name) => SelectAddsNoRooms(v, sid, name, friends);
    case _ =>
  }

  lemma ServedRoomsAreShort(w: World, me: Entity, r: IngameRequest, now: int)
    requires ShortRooms(w.rooms) && CanServe(w, me, r) && Modest(r)
    ensures ShortRooms(ServedWorld(w, me, r, now).rooms)
  {
  }

  lemma IngameRoomsAreShort(v: Server, sid: nat, data: Text)
    requires sid in v.sessions && v.sessions[sid].current.Ingame? && Modest(ReadIngameRequest(data))
    ensures RoomsStayShort(v, HandleIngame(v, sid, data))
  {
    var me, r := v.sessions[sid].current.me, ReadIngameRequest(data);
    if ShortRooms(v.world.rooms) && CanServe(v.world, me, r) {
      ServedRoomsAreShort(v.world, me, r, v.now);
    }
  }

  lemma StepRoomsAreShort(v: Server, e: GameEvent)
    requires Possible(v, e) && ModestEvent(e)
    ensures RoomsStayShort(v, Step(v, e))
  {
    match e
    case BroadcastTimer(rooms) => BroadcastAddsNoRooms(ChatOf(v.world), rooms);
    case Run(sid, k, input) =>
      var v1 := Put(v, sid, Taken(v.sessions[sid], k));
      if input.Visits? {
        DestroyedAddsNoRooms(v1, sid, input.rooms);
      } else if input.Arrives? && v.sessions[sid].current.Lobby? {
        LobbyAddsNoRooms(v1, sid, input.data, input.friends);
      } else if input.Arrives? && v.sessions[sid].current.Ingame? {
        IngameRoomsAreShort(v1, sid, input.data);
      }
    case _ =>
  }

  lemma {:induction false} BroadcastAddsNoRooms(c: Chats.Chat, order: seq<Text>)
    ensures Chats.PeriodicBroadcast(c, order).rooms == c.rooms
    decreases |order|
  {
    if |order| > 0 {
      BroadcastAddsNoRooms(c, order[..|order| - 1]);
    }
  }

  // ---------------------------------------------------------------- Ids

  predicate UsesOneId(v: Server, r: Progress) {
    r.Goes? ==> r.server.world.social.tables.nextId <= v.world.social.tables.nextId + 1
  }

  lemma ServedUsesNoId(w: World, me: Entity, r: IngameRequest, now: int)
    requires CanServe(w, me, r)
    ensures ServedWorld(w, me, r, now).social.tables.nextId == w.social.tables.nextId
  {
    match r
    case FriendAdd(nick) => RequestAddFrame(w.social, me, nick, now);
    case FriendRemove(nick) => RequestRemoveFrame(w.social, me, nick);
    case _ =>
  }

  lemma DestroyedUsesNoId(v: Server, sid: nat, rooms: seq<Text>)
    requires sid in v.sessions
    ensures var r := Destroyed(v, sid, rooms);
            r.Goes? ==> r.server.world.social.tables == v.world.social.tables && sid in r.server.sessions
  {
    var s := v.sessions[sid];
    if s.current.Ingame? && CanLeave(v.world, s.current.me) {
      LeaveFrame(v.world, s.current.me, rooms);
    }
  }

  lemma LobbyUsesOneId(v: Server, sid: nat, data: Text, friends: seq<Uid>)
    requires sid in v.sessions && v.sessions[sid].current.Lobby?
    requires OrderFits(v.world, v.sessions[sid].current, data, friends)
    ensures UsesOneId(v, HandleLobby(v, sid, data, friends))
  {
    match ReadLobbyRequest(data)
    case Select(name) => SelectKeepsTables(v, sid, name, friends);
    case _ =>
  }

  lemma IngameUsesNoId(v: Server, sid: nat, data: Text)
    requires sid in v.sessions && v.sessions[sid].current.Ingame?
    ensures UsesOneId(v, HandleIngame(v, sid, data))
  {
    var me, r := v.sessions[sid].current.me, ReadIngameRequest(data);
    if !r.BadIngameRequest? && !r.LogOffToLobby? && CanServe(v.world, me, r) {
      ServedUsesNoId(v.world, me, r, v.now);
    }
  }

  /** Each event takes one id from the database at most. */
  lemma StepUsesOneId(v: Server, e: GameEvent)
    requires Possible(v, e)
    ensures UsesOneId(v, Step(v, e))
  {
    if e.Run? {
      var v1 := Put(v, e.sid, Taken(v.sessions[e.sid], e.k));
      if e.input.Visits? {
        DestroyedUsesNoId(v1, e.sid, e.input.rooms);
      } else if e.input.Arrives? && v.sessions[e.sid].current.Lobby? {
        LobbyUsesOneId(v1, e.sid, e.input.data, e.input.friends);
      } else if e.input.Arrives? && v.sessions[e.sid].current.Ingame? {
        IngameUsesNoId(v1, e.sid, e.input.data);
      }
    }
  }

  // ---------------------------------------------------------------- Modest runs

  predicate ModestRun(run: History) {
    forall i :: 0 <= i < |run| ==> ModestEvent(run[i].event)
  }

  lemma {:induction false} ModestTail(run: History)
    requires |run| > 0 && ModestRun(run)
    ensures ModestRun(run[1..]) && ModestEvent(run[0].event)
  {
    assert forall i | 0 <= i < |run[1..]| :: run[1..][i] == run[i + 1];
  }

  lemma {:induction false} ModestFrom(v: Server, run: History)
    requires Comfortable(v) && ShortRooms(v.world.rooms) && CanHappen(v, run) && ModestRun(run)
    requires v.world.social.tables.nextId + |run| <= IDS
    ensures IdsLast(v, run) && KeepsBounds(v, run)
    decreases |run|
  {
    if |run| > 0 {
      var ready, e := v.(now := run[0].time), run[0].event;
      TimePasses(v, run[0].time);
      ModestTail(run);
      ModestEventKeepsBounds(ready, e);
      if Step(ready, e).Goes? {
        EventPasses(ready, e);
        StepUsesOneId(ready, e);
        StepRoomsAreShort(ready, e);
        ModestFrom(Step(ready, e).server, run[1..]);
      }
    }
  }

  /** Bounds on the strings alone, in every packet that arrives, keep every run within its bounds. */
  lemma {:induction false} ModestRunsKeepBounds(tables: Tables, start: int, run: History)
    requires Sound(tables) && Limited(tables) && CanHappen(Started(tables, start), run)
    requires ModestRun(run) && tables.nextId + |run| <= IDS
    ensures IdsLast(Started(tables, start), run) && KeepsBounds(Started(tables, start), run)
  {
    StartedIsComfortable(tables, start);
    ModestFrom(Started(tables, start), run);
  }
}
