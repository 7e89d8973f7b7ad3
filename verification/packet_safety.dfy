/** Every packet from a client, in every phase, keeps the invariant. */
module PacketSafety {
  import opened Basics
  import opened Protocol
  import opened Codec
  import opened Database
  import opened Friends
  import opened Worlds
  import opened Sessions
  import opened ServerSteps
  import opened SessionInvariant
  import Chats

  // ---------------------------------------------------------------- Closing, greeting, ignoring

  /** force_close in a handler, possibly after a last packet, and the poll that follows it or not. */
  lemma ClosingIsGood(w: World, s: Session)
    requires Good(w, s) && s.open && s.tasks == [Recv]
    ensures Good(w, ForceClose(Busy(s))) && PollAgain(ForceClose(Busy(s))) == ForceClose(Busy(s))
    ensures s.current.Preauth? ==> Good(w, ForceClose(Send(Busy(s), BadKeys)))
  {
    SentOne(Busy(s), BadKeys);
  }

  lemma CloseIsSafe(v: Server, sid: nat)
    requires Waiting(v, sid)
    ensures var s := Busy(v.sessions[sid]);
            && PollAgain(ForceClose(s)) == ForceClose(s)
            && Attended(Put(Taking(v, sid), sid, ForceClose(s)))
            && (s.current.Preauth? ==> Attended(Put(Taking(v, sid), sid, ForceClose(Send(s, BadKeys)))))
  {
    var s := v.sessions[sid];
    assert Good(v.world, s);
    ClosingIsGood(v.world, s);
    SameUserStep(v, sid, ForceClose(Busy(s)));
    if s.current.Preauth? {
      SameUserStep(v, sid, ForceClose(Send(Busy(s), BadKeys)));
    }
  }

  lemma SameUserStep(v: Server, sid: nat, s': Session)
    requires Attended(v) && sid in v.sessions && Good(v.world, s')
    requires UserOf(s') == UserOf(v.sessions[sid]) && AccountOf(s') == AccountOf(v.sessions[sid])
    ensures Attended(Put(Taking(v, sid), sid, s'))
  {
    LocalStep(v, sid, Put(Taking(v, sid), sid, s'));
  }

  lemma AdmittedIsSafe(v: Server, sid: nat, account: nat)
    requires Waiting(v, sid) && v.sessions[sid].current.Preauth? && AccountIsFree(v, Some(account))
    ensures var s' := ScheduleTransition(Send(Busy(v.sessions[sid]), GoodKeys), Lobby(v.nextLobby, account, []));
            Attended(Put(Taking(v, sid), sid, s').(nextLobby := v.nextLobby + 1))
  {
    var s := v.sessions[sid];
    assert Good(v.world, s);
    SentOne(Busy(s), GoodKeys);
    var s' := ScheduleTransition(Send(Busy(s), GoodKeys), Lobby(v.nextLobby, account, []));
    LocalStep(v, sid, Put(Taking(v, sid), sid, s').(nextLobby := v.nextLobby + 1));
  }

  lemma NextLobbyIsFree(v: Server, n: nat)
    ensures Attended(v.(nextLobby := n)) == Attended(v)
  {
  }

  /** Only a packet without an opcode makes the preauth state fault. */
  lemma HelloIsSafe(v: Server, sid: nat, data: Text, verdict: Option<nat>)
    requires Waiting(v, sid) && v.sessions[sid].current.Preauth? && AccountIsFree(v, verdict)
    ensures var r := HandleHello(Taking(v, sid), sid, data, verdict);
            && (r.Faults? <==> data == [])
            && (r.Goes? ==> Attended(r.server) && r.server.world == v.world && r.server.now == v.now)
  {
    CloseIsSafe(v, sid);
    assert v.sessions[sid].awaiting.None? by {
      assert Good(v.world, v.sessions[sid]);
    }
    if data != [] {
      if ReadHello(data).Keys? && verdict.Some? {
        AdmittedIsSafe(v, sid, verdict.value);
      } else {
        NextLobbyIsFree(HandleHello(Taking(v, sid), sid, data, verdict).server, v.nextLobby);
      }
    }
  }

  /** A packet that the lobby or the world ignores. */
  lemma IgnoringIsSafe(v: Server, sid: nat)
    requires Waiting(v, sid) && !v.sessions[sid].current.Preauth?
    ensures Attended(Put(Taking(v, sid), sid, PollAgain(Busy(v.sessions[sid]))))
  {
    var s := v.sessions[sid];
    assert Good(v.world, s);
    assert PollAgain(Busy(s)) == s;
    LocalStep(v, sid, Put(Taking(v, sid), sid, PollAgain(Busy(s))));
  }

  lemma LogOffIsSafe(v: Server, sid: nat)
    requires Waiting(v, sid) && v.sessions[sid].current.Ingame?
    ensures var s := Busy(v.sessions[sid]);
            var r := ToLobby(Taking(v, sid), sid, s, s.current.account);
            r.Goes? && Attended(r.server)
  {
    var s := v.sessions[sid];
    assert Good(v.world, s);
    var s' := ScheduleTransition(Busy(s), Lobby(v.nextLobby, s.current.account, []));
    LoggedOffIsGood(v.world, s, s');
    LocalStep(v, sid, Put(Taking(v, sid), sid, s'));
    NextLobbyIsFree(Put(Taking(v, sid), sid, s'), v.nextLobby + 1);
  }

  lemma LoggedOffIsGood(w: World, s: Session, s': Session)
    requires Good(w, s) && s.open && s.tasks == [Recv] && s.current.Ingame?
    requires s'.awaiting.Some? && s'.awaiting.value.Lobby?
    requires s' == ScheduleTransition(Busy(s), Lobby(s'.awaiting.value.id, s.current.account, []))
    ensures s.awaiting.None? && Good(w, s') && UserOf(s') == UserOf(s) && AccountOf(s') == AccountOf(s)
  {
  }

  // ---------------------------------------------------------------- The world sends

  /** An operation of the world that nobody enters or leaves by. */
  ghost predicate Stays(w: World, w': World) {
    && w'.entities == w.entities
    && w'.social.tables.characters == w.social.tables.characters
    && Grows(w.social.mail, w'.social.mail, WORLD)
  }

  lemma SpreadIsSafe(v: Server, w: World)
    requires Attended(v) && Stays(v.world, w)
    ensures Attended(Spread(v, w))
  {
    forall sid <- v.sessions
      ensures var s' := Spread(v, w).sessions[sid];
              Good(w, s') && UserOf(s') == UserOf(v.sessions[sid]) && AccountOf(s') == AccountOf(v.sessions[sid])
    {
      assert Good(v.world, v.sessions[sid]);
      ForwardIsGood(v.world, w, v.sessions[sid]);
    }
  }

  lemma GrowthInWorld(a: Mail, b: Mail, sender: Sender)
    requires Grows(a, b, {sender}) && sender in WORLD
    ensures Grows(a, b, WORLD)
  {
    GrowsByMore(a, b, {sender}, WORLD);
  }

  /** The only difference is one message of the chat to some users, if any. */
  ghost predicate IsMessage(w: World, w': World) {
    w' == w ||
    exists to: set<Uid>, p: Packet ::
      && SenderOf(p) == FromChat && !Chats.IsMembership(p)
      && w' == w.(social := w.social.(mail := Deliver(w.social.mail, to, p)))
  }

  lemma MessageStays(w: World, now: int, w': World)
    requires Agrees(w, now) && IsMessage(w, w')
    ensures Agrees(w', now) && Stays(w, w')
  {
    if w' == w {
      NothingStays(w);
    } else {
      var to, p :|
        && SenderOf(p) == FromChat && !Chats.IsMembership(p)
        && w' == w.(social := w.social.(mail := Deliver(w.social.mail, to, p)));
      MessageAgrees(w, to, p, now);
      DeliverGrows(w.social.mail, to, p, WORLD);
    }
  }

  lemma NothingStays(w: World)
    ensures Stays(w, w)
  {
  }

  lemma FriendAddStays(w: World, me: Entity, nick: Text, now: int)
    requires Agrees(w, now) && me in w.entities
    ensures CanRequest(w.social, me, nick)
    ensures var w' := w.(social := RequestAdd(w.social, me, nick, now)); Agrees(w', now) && Stays(w, w')
  {
    FriendAddAgrees(w, me, nick, now);
    RequestAddGrows(w.social, me, nick, now);
    RequestAddFrame(w.social, me, nick, now);
    GrowthInWorld(w.social.mail, RequestAdd(w.social, me, nick, now).mail, FromFriends);
  }

  lemma FriendRemoveStays(w: World, me: Entity, nick: Text, now: int)
    requires Agrees(w, now) && me in w.entities && me.uid in w.social.lists
    ensures var w' := w.(social := RequestRemove(w.social, me, nick)); Agrees(w', now) && Stays(w, w')
  {
    FriendRemoveAgrees(w, me, nick, now);
    RequestRemoveGrows(w.social, me, nick);
    RequestRemoveFrame(w.social, me, nick);
    GrowthInWorld(w.social.mail, RequestRemove(w.social, me, nick).mail, FromFriends);
  }

  lemma JoinStays(w: World, me: Entity, room: Text, now: int)
    requires Agrees(w, now) && me in w.entities
    ensures var w' := WithChat(w, Chats.JoinRoom(ChatOf(w), me, room)); Agrees(w', now) && Stays(w, w')
  {
    JoinAgrees(w, me, room, now);
    JoinGrows(ChatOf(w), me, room);
    RoomsFrame(ChatOf(w), me, room);
    ChatStays(w, Chats.JoinRoom(ChatOf(w), me, room));
  }

  lemma ChatStays(w: World, c: Chats.Chat)
    requires c.entities == w.entities && Grows(w.social.mail, c.mail, {FromChat})
    ensures Stays(w, WithChat(w, c))
  {
    GrowthInWorld(w.social.mail, c.mail, FromChat);
  }

  lemma LeaveRoomStays(w: World, me: Entity, room: Text, now: int)
    requires Agrees(w, now) && me in w.entities
    ensures var w' := WithChat(w, Chats.LeaveRoom(ChatOf(w), me, room)); Agrees(w', now) && Stays(w, w')
  {
    LeaveRoomAgrees(w, me, room, now);
    LeaveGrows(ChatOf(w), me, room);
    RoomsFrame(ChatOf(w), me, room);
    ChatStays(w, Chats.LeaveRoom(ChatOf(w), me, room));
  }

  lemma BroadcastIsMessage(w: World, me: Entity, room: Text, message: Text)
    ensures IsMessage(w, WithChat(w, Chats.BroadcastMessage(ChatOf(w), me, room, message)))
  {
    var to, p := Chats.UidsOf(Chats.Members(ChatOf(w), room)), ChatMsg(room, me.name, message);
    var w' := WithChat(w, Chats.BroadcastMessage(ChatOf(w), me, room, message));
    assert w' == w || w' == w.(social := w.social.(mail := Deliver(w.social.mail, to, p)));
  }

  lemma WhisperIsMessage(w: World, me: Entity, recipient: Text, message: Text)
    ensures IsMessage(w, WithChat(w, Chats.Whisper(ChatOf(w), me, recipient, message)))
  {
    var w' := WithChat(w, Chats.Whisper(ChatOf(w), me, recipient, message));
    if recipient in w.social.registry.byName {
      var to, p := {w.social.registry.byName[recipient].uid}, WhisperMessage(me.name, message);
      assert w' == w || w' == w.(social := w.social.(mail := Deliver(w.social.mail, to, p)));
    } else {
      assert w' == w;
    }
  }

  /** The assert of the whisper: who is found by name is registered in the chat. */
  lemma NamedUser(w: World, name: Text)
    requires SameUsers(w) && name in w.social.registry.byName
    ensures w.social.registry.byName[name] in w.entities
  {
    var his := w.social.registry.byName[name];
    assert w.social.registry.byId[his.uid] == his;
  }

  lemma CanServeNow(w: World, me: Entity, r: IngameRequest, now: int)
    requires Agrees(w, now) && me in w.entities
    ensures CanServe(w, me, r)
  {
    KnownUser(w, me);
    if r.SendWhisper? && r.recipient in w.social.registry.byName {
      NamedUser(w, r.recipient);
    }
    if r.FriendAdd? {
      FriendAddAgrees(w, me, r.nick, now);
    }
  }

  /** The request was served, and the world agrees again. */
  ghost predicate ServesWell(w: World, me: Entity, r: IngameRequest, now: int) {
    CanServe(w, me, r) && Agrees(ServedWorld(w, me, r, now), now) && Stays(w, ServedWorld(w, me, r, now))
  }

  lemma ServedInto(w: World, me: Entity, r: IngameRequest, now: int, w': World)
    requires CanServe(w, me, r) && w' == ServedWorld(w, me, r, now) && Agrees(w', now) && Stays(w, w')
    ensures ServesWell(w, me, r, now)
  {
  }

  lemma JoinedWorld(w: World, me: Entity, room: Text, now: int)
    requires CanServe(w, me, JoinChat(room))
    ensures ServedWorld(w, me, JoinChat(room), now) == WithChat(w, Chats.JoinRoom(ChatOf(w), me, room))
  {
  }

  lemma LeftWorld(w: World, me: Entity, room: Text, now: int)
    requires CanServe(w, me, LeaveChat(room))
    ensures ServedWorld(w, me, LeaveChat(room), now) == WithChat(w, Chats.LeaveRoom(ChatOf(w), me, room))
  {
  }

  lemma ServedJoin(w: World, me: Entity, room: Text, now: int)
    requires Agrees(w, now) && CanServe(w, me, JoinChat(room))
    ensures ServesWell(w, me, JoinChat(room), now)
  {
    JoinStays(w, me, room, now);
    JoinedWorld(w, me, room, now);
    ServedInto(w, me, JoinChat(room), now, ServedWorld(w, me, JoinChat(room), now));
  }

  lemma ServedLeave(w: World, me: Entity, room: Text, now: int)
    requires Agrees(w, now) && CanServe(w, me, LeaveChat(room))
    ensures ServesWell(w, me, LeaveChat(room), now)
  {
    LeaveRoomStays(w, me, room, now);
    LeftWorld(w, me, room, now);
    ServedInto(w, me, LeaveChat(room), now, ServedWorld(w, me, LeaveChat(room), now));
  }

  lemma ServedByMessage(w: World, me: Entity, r: IngameRequest, now: int, w': World)
    requires Agrees(w, now) && CanServe(w, me, r) && w' == ServedWorld(w, me, r, now) && IsMessage(w, w')
    ensures ServesWell(w, me, r, now)
  {
    MessageStays(w, now, w');
    ServedInto(w, me, r, now, w');
  }

  lemma MessagedWorld(w: World, me: Entity, room: Text, message: Text, now: int)
    requires CanServe(w, me, SendChatMsg(room, message))
    ensures IsMessage(w, ServedWorld(w, me, SendChatMsg(room, message), now))
  {
    BroadcastIsMessage(w, me, room, message);
  }

  lemma ServedMessage(w: World, me: Entity, room: Text, message: Text, now: int)
    requires Agrees(w, now) && CanServe(w, me, SendChatMsg(room, message))
    ensures ServesWell(w, me, SendChatMsg(room, message), now)
  {
    MessagedWorld(w, me, room, message, now);
    ServedByMessage(w, me, SendChatMsg(room, message), now, ServedWorld(w, me, SendChatMsg(room, message), now));
  }

  lemma WhisperedWorld(w: World, me: Entity, recipient: Text, message: Text, now: int)
    requires CanServe(w, me, SendWhisper(recipient, message))
    ensures IsMessage(w, ServedWorld(w, me, SendWhisper(recipient, message), now))
  {
    WhisperIsMessage(w, me, recipient, message);
  }

  lemma ServedWhisper(w: World, me: Entity, recipient: Text, message: Text, now: int)
    requires Agrees(w, now) && CanServe(w, me, SendWhisper(recipient, message))
    ensures ServesWell(w, me, SendWhisper(recipient, message), now)
  {
    WhisperedWorld(w, me, recipient, message, now);
    ServedByMessage(w, me, SendWhisper(recipient, message), now,
                    ServedWorld(w, me, SendWhisper(recipient, message), now));
  }

  lemma AddedWorld(w: World, me: Entity, nick: Text, now: int)
    requires CanServe(w, me, FriendAdd(nick))
    ensures ServedWorld(w, me, FriendAdd(nick), now) == w.(social := RequestAdd(w.social, me, nick, now))
  {
  }

  lemma ServedFriendAdd(w: World, me: Entity, nick: Text, now: int)
    requires Agrees(w, now) && CanServe(w, me, FriendAdd(nick))
    ensures ServesWell(w, me, FriendAdd(nick), now)
  {
    FriendAddStays(w, me, nick, now);
    AddedWorld(w, me, nick, now);
    ServedInto(w, me, FriendAdd(nick), now, ServedWorld(w, me, FriendAdd(nick), now));
  }

  lemma RemovedWorld(w: World, me: Entity, nick: Text, now: int)
    requires CanServe(w, me, FriendRemove(nick))
    ensures ServedWorld(w, me, FriendRemove(nick), now) == w.(social := RequestRemove(w.social, me, nick))
  {
  }

  lemma ServedFriendRemove(w: World, me: Entity, nick: Text, now: int)
    requires Agrees(w, now) && CanServe(w, me, FriendRemove(nick))
    ensures ServesWell(w, me, FriendRemove(nick), now)
  {
    FriendRemoveStays(w, me, nick, now);
    RemovedWorld(w, me, nick, now);
    ServedInto(w, me, FriendRemove(nick), now, ServedWorld(w, me, FriendRemove(nick), now));
  }

  lemma UnservedWorld(w: World, me: Entity, r: IngameRequest, now: int)
    requires CanServe(w, me, r) && (r.LogOffToLobby? || r.NoIngameRequest? || r.BadIngameRequest?)
    ensures ServedWorld(w, me, r, now) == w
  {
  }

  lemma ServedNothing(w: World, me: Entity, r: IngameRequest, now: int)
    requires Agrees(w, now) && CanServe(w, me, r)
    requires r.LogOffToLobby? || r.NoIngameRequest? || r.BadIngameRequest?
    ensures ServesWell(w, me, r, now)
  {
    UnservedWorld(w, me, r, now);
    NothingStays(w);
    ServedInto(w, me, r, now, w);
  }

  lemma EveryRequestServesWell(w: World, me: Entity, r: IngameRequest, now: int)
    requires Agrees(w, now) && CanServe(w, me, r)
    ensures ServesWell(w, me, r, now)
  {
    match r
    case JoinChat(room) => ServedJoin(w, me, room, now);
    case LeaveChat(room) => ServedLeave(w, me, room, now);
    case SendChatMsg(room, message) => ServedMessage(w, me, room, message, now);
    case SendWhisper(recipient, message) => ServedWhisper(w, me, recipient, message, now);
    case FriendAdd(nick) => ServedFriendAdd(w, me, nick, now);
    case FriendRemove(nick) => ServedFriendRemove(w, me, nick, now);
    case _ => ServedNothing(w, me, r, now);
  }

  /** Every request of a user in the world meets the asserts of the systems that serve it, and keeps the world
      in agreement. */
  lemma ServedAgrees(w: World, me: Entity, r: IngameRequest, now: int)
    requires Agrees(w, now) && me in w.entities
    ensures CanServe(w, me, r)
    ensures Agrees(ServedWorld(w, me, r, now), now) && Stays(w, ServedWorld(w, me, r, now))
  {
    CanServeNow(w, me, r, now);
    EveryRequestServesWell(w, me, r, now);
  }

  lemma ServingIsSafe(v: Server, sid: nat, data: Text)
    requires Waiting(v, sid) && Agrees(v.world, v.now) && v.sessions[sid].current.Ingame?
    ensures var r := HandleIngame(Taking(v, sid), sid, data);
            r.Goes? && Invariant(r.server) && r.server.now == v.now
  {
    var s, r := v.sessions[sid], ReadIngameRequest(data);
    assert Good(v.world, s);
    if r.BadIngameRequest? {
      CloseIsSafe(v, sid);
    } else if r.LogOffToLobby? {
      LogOffIsSafe(v, sid);
    } else {
      AnsweringIsSafe(v, sid, data);
    }
  }

  lemma AnsweringIsSafe(v: Server, sid: nat, data: Text)
    requires Waiting(v, sid) && Agrees(v.world, v.now) && v.sessions[sid].current.Ingame?
    requires v.sessions[sid].async == PacketPoll && v.sessions[sid].current.me in v.world.entities
    requires !ReadIngameRequest(data).BadIngameRequest? && !ReadIngameRequest(data).LogOffToLobby?
    ensures var r := HandleIngame(Taking(v, sid), sid, data);
            r.Goes? && Invariant(r.server) && r.server.now == v.now
  {
    var me, r := v.sessions[sid].current.me, ReadIngameRequest(data);
    ServedAgrees(v.world, me, r, v.now);
    var w := ServedWorld(v.world, me, r, v.now);
    SpreadIsSafe(v, w);
    PollAfterSpread(v, sid, w);
  }

  /** Taking the packet, serving it and polling again leaves the session as if it had only listened. */
  lemma PollAfterSpread(v: Server, sid: nat, w: World)
    requires sid in v.sessions && v.sessions[sid].open && v.sessions[sid].tasks == [Recv]
    requires v.sessions[sid].async == PacketPoll
    ensures var v1 := Spread(Taking(v, sid), w);
            Put(v1, sid, PollAgain(v1.sessions[sid])) == Spread(v, w)
  {
    var v1, v2 := Spread(Taking(v, sid), w), Spread(v, w);
    assert PollAgain(v1.sessions[sid]) == v2.sessions[sid];
    assert Put(v1, sid, v2.sessions[sid]).sessions == v2.sessions;
  }

  // ---------------------------------------------------------------- Entering the world

  /** The session's side of a selection: the client is told, then hears what the login mails to it, then waits
      for the transition. */
  function Chosen(s: Session, account: nat, me: Entity, news: seq<Packet>): Session {
    PollAgain(ScheduleTransition(SendAll(Send(s, CharacterSelected(me.name)), news), Ingame(account, me)))
  }

  lemma ChosenIsGood(w: World, w': World, s: Session, me: Entity)
    requires Good(w, s) && s.open && s.tasks == [Recv] && s.current.Lobby?
    requires me in Owned(w'.social.tables, s.current.account)
    requires me in w'.entities && me.uid in w'.social.mail
    requires FromWorld(w'.social.mail[me.uid])
    ensures Good(w', Chosen(Busy(s), s.current.account, me, w'.social.mail[me.uid]))
  {
    var news := w'.social.mail[me.uid];
    var p := CharacterSelected(me.name);
    SentOne(Busy(s), p);
    SinceOne(s.sent, p);
    PhaseAfterWorldPackets(s.sent + [p], news);
    SinceMore(s.sent + [p], news);
    assert [] + news == news;
  }

  /** A step in which the world sends and one session does something of its own. */
  predicate Became(v: Server, sid: nat, w: World, s': Session, v': Server)
    requires sid in v.sessions
  {
    && v'.now == v.now && v'.sessions.Keys == v.sessions.Keys && v'.sessions[sid] == s'
    && forall t <- v.sessions | t != sid :: v'.sessions[t] == Forward(v.sessions[t], v.world.social.mail, w.social.mail)
  }

  lemma BecameIsSafe(v: Server, sid: nat, w: World, s': Session, v': Server)
    requires Attended(v) && sid in v.sessions && OthersKept(v, sid, Spread(v, w)) && Became(v, sid, w, s', v')
    requires forall t <- v.sessions | t != sid :: Good(v'.world, v'.sessions[t])
    requires Good(v'.world, s') && AccountFits(v, sid, s') && UserFits(v, sid, v')
    ensures Attended(v')
  {
    forall t <- v.sessions | t != sid
      ensures v'.sessions[t] == Spread(v, w).sessions[t]
    {
    }
    OthersKeptToo(v, sid, Spread(v, w), v');
    Conclude(v, sid, v');
  }

  lemma EnteredIsChosen(v: Server, sid: nat, w: World, me: Entity)
    requires sid in v.sessions && v.sessions[sid].current.Lobby? && v.sessions[sid].awaiting.None?
    requires me.uid in w.social.mail
    ensures var s := Busy(v.sessions[sid]);
            var v' := Entered(Put(Taking(v, sid), sid, Send(s, CharacterSelected(me.name))), sid, w, me);
            v'.world == w && Became(v, sid, w, Chosen(s, s.current.account, me, w.social.mail[me.uid]), v')
  {
  }

  /** Everybody who had mail still has it, and got more of it from the world at most. */
  predicate AllHear(before: Mail, after: Mail) {
    forall u <- before :: u in after && GrowsAt(before, after, u, WORLD)
  }

  predicate FromWorld(ps: seq<Packet>) {
    forall i :: 0 <= i < |ps| ==> IsWorldPacket(ps[i])
  }

  lemma NewcomerHears(before: Mail, after: Mail, u: Uid)
    requires u !in before && Grows(before[u := []], after, {FromFriends})
    ensures u in after && FromWorld(after[u]) && AllHear(before, after)
  {
    var start := before[u := []];
    GrowthInWorld(start, after, FromFriends);
    assert u in start && GrowsAt(start, after, u, WORLD);
    assert after[u][0..] == after[u];
    forall x <- before
      ensures x in after && GrowsAt(before, after, x, WORLD)
    {
      assert x in start && GrowsAt(start, after, x, WORLD);
    }
  }

  /** The users of the sessions are in the mail. */
  lemma UsersHaveMail(v: Server, t: nat)
    requires AllGood(v) && t in v.sessions && UserOf(v.sessions[t]).Some?
    ensures UserOf(v.sessions[t]).value in v.world.entities && UserOf(v.sessions[t]).value.uid in v.world.social.mail
  {
    assert Good(v.world, v.sessions[t]);
  }

  lemma EnteringIsSafe(v: Server, sid: nat, me: Entity, friends: seq<Uid>)
    requires Waiting(v, sid) && Agrees(v.world, v.now) && v.sessions[sid].current.Lobby?
    requires me in v.sessions[sid].current.chars
    requires Enumerates(friends, NewcomersFriends(v.world.social, me.uid))
    ensures CanEnter(v.world, me) && v.sessions[sid].awaiting.None?
    ensures var w := Enter(v.world, me, friends);
            me.uid in w.social.mail
    ensures var w := Enter(v.world, me, friends);
            var v1 := Put(Taking(v, sid), sid, Send(Busy(v.sessions[sid]), CharacterSelected(me.name)));
            Invariant(Entered(v1, sid, w, me)) && Entered(v1, sid, w, me).now == v.now
  {
    var s := v.sessions[sid];
    assert Good(v.world, s);
    assert me in Owned(v.world.social.tables, s.current.account);
    LobbyCharactersAreOffline(v, sid, me);
    EnterAgrees(v.world, me, friends, v.now);
    EnterMail(v.world, me, friends, v.now);
    NewcomerHears(v.world.social.mail, Enter(v.world, me, friends).social.mail, me.uid);
    EnterFrame(v.world, me, friends);
    var w := Enter(v.world, me, friends);
    var v1 := Put(Taking(v, sid), sid, Send(Busy(s), CharacterSelected(me.name)));
    EnteredIsSafe(v, sid, w, me);
  }

  lemma SessionsHear(v: Server, sid: nat, w: World)
    requires Attended(v) && sid in v.sessions && v.world.entities <= w.entities
    requires w.social.tables == v.world.social.tables && AllHear(v.world.social.mail, w.social.mail)
    ensures OthersKept(v, sid, Spread(v, w))
  {
    forall t <- v.sessions | t != sid && UserOf(v.sessions[t]).Some?
      ensures var e := UserOf(v.sessions[t]).value;
              && e in w.entities && e.uid in v.world.social.mail && e.uid in w.social.mail
              && GrowsAt(v.world.social.mail, w.social.mail, e.uid, WORLD)
    {
      UsersHaveMail(v, t);
    }
    SpreadKeepsOthers(v, sid, w);
  }

  lemma OthersKeptToo(v: Server, sid: nat, v1: Server, v': Server)
    requires sid in v.sessions && OthersKept(v, sid, v1) && v'.sessions.Keys == v.sessions.Keys
    requires forall t <- v.sessions | t != sid :: v'.sessions[t] == v1.sessions[t] && Good(v'.world, v'.sessions[t])
    ensures OthersKept(v, sid, v')
  {
  }

  lemma EnteredIsSafe(v: Server, sid: nat, w: World, me: Entity)
    requires Waiting(v, sid) && v.sessions[sid].current.Lobby? && v.sessions[sid].awaiting.None?
    requires me in Owned(v.world.social.tables, v.sessions[sid].current.account)
    requires w.social.tables == v.world.social.tables && w.entities == v.world.entities + {me}
    requires me.uid in w.social.mail && FromWorld(w.social.mail[me.uid])
    requires AllHear(v.world.social.mail, w.social.mail)
    ensures var v1 := Put(Taking(v, sid), sid, Send(Busy(v.sessions[sid]), CharacterSelected(me.name)));
            Attended(Entered(v1, sid, w, me)) && Entered(v1, sid, w, me).world == w
              && Entered(v1, sid, w, me).now == v.now
  {
    var s := v.sessions[sid];
    assert Good(v.world, s);
    var s' := Chosen(Busy(s), s.current.account, me, w.social.mail[me.uid]);
    var v' := Entered(Put(Taking(v, sid), sid, Send(Busy(s), CharacterSelected(me.name))), sid, w, me);
    EnteredIsChosen(v, sid, w, me);
    ChosenIsGood(v.world, w, s, me);
    SessionsHear(v, sid, w);
    BecameIsSafe(v, sid, w, s', v');
  }

  // ---------------------------------------------------------------- Creating and deleting characters

  lemma OtherAccountsAreGood(w: World, t': Tables, s: Session, account: nat)
    requires Good(w, s) && AccountOf(s) != Some(account)
    requires forall a: nat | a != account :: Owned(t', a) == Owned(w.social.tables, a)
    ensures Good(w.(social := w.social.(tables := t')), s)
  {
  }

  /** A step of one lobby that changes the characters of its account. */
  lemma TablesStep(v: Server, sid: nat, t': Tables, s': Session)
    requires Attended(v) && sid in v.sessions && AccountOf(v.sessions[sid]).Some?
    requires forall a: nat | a != AccountOf(v.sessions[sid]).value :: Owned(t', a) == Owned(v.world.social.tables, a)
    requires AccountOf(s') == AccountOf(v.sessions[sid]) && UserOf(s') == UserOf(v.sessions[sid])
    requires Good(v.world.(social := v.world.social.(tables := t')), s')
    ensures Attended(WithTables(Put(Taking(v, sid), sid, s'), t'))
  {
    var account := AccountOf(v.sessions[sid]).value;
    var v' := WithTables(Put(Taking(v, sid), sid, s'), t');
    forall t <- v.sessions | t != sid
      ensures t in v'.sessions && v'.sessions[t] == v.sessions[t] && Good(v'.world, v'.sessions[t])
    {
      assert Good(v.world, v.sessions[t]);
      OtherAccountsAreGood(v.world, t', v.sessions[t], account);
    }
    Conclude(v, sid, v');
  }

  lemma EnumeratesMore(chars: seq<Entity>, es: set<Entity>, e: Entity)
    requires Enumerates(chars, es) && e !in es
    ensures Enumerates(chars + [e], es + {e})
  {
  }

  lemma EnumeratesLess(chars: seq<Entity>, es: set<Entity>, i: nat)
    requires Enumerates(chars, es) && i < |chars|
    ensures Enumerates(chars[..i] + chars[i + 1..], es - {chars[i]})
  {
    var rest := chars[..i] + chars[i + 1..];
    forall x <- es - {chars[i]}
      ensures x in rest
    {
      var j :| 0 <= j < |chars| && chars[j] == x;
      assert rest[if j < i then j else j - 1] == x;
    }
  }

  /** The session of a lobby with another list, after a packet about it. */
  lemma RelistedIsGood(w: World, s: Session, chars: seq<Entity>, p: Packet)
    requires Single(s) && InStep(s) && s.open && s.tasks == [Recv] && s.current.Lobby?
    requires IsLobbyPacket(p) && Enumerates(chars, Owned(w.social.tables, s.current.account))
    ensures Good(w, PollAgain(Send(Busy(s).(current := s.current.(chars := chars)), p)))
  {
    SentOne(s, p);
  }

  lemma CreatingIsSafe(v: Server, sid: nat, name: Text)
    requires Waiting(v, sid) && Agrees(v.world, v.now) && v.sessions[sid].current.Lobby?
    ensures Invariant(HandleCreate(Taking(v, sid), sid, name)) && HandleCreate(Taking(v, sid), sid, name).now == v.now
  {
    var s, t := v.sessions[sid], v.world.social.tables;
    assert Good(v.world, s);
    match CreationProblem(v.world.social.tables, s.current.chars, name)
    case Some(failure) =>
      RelistedIsGood(v.world, s, s.current.chars, CharacterCreationFail(failure));
      assert Busy(s).(current := s.current.(chars := s.current.chars)) == Busy(s);
      LocalStep(v, sid, HandleCreate(Taking(v, sid), sid, name));
    case None =>
      CreatedStep(v, sid, name);
  }

  lemma CreatedStep(v: Server, sid: nat, name: Text)
    requires Waiting(v, sid) && Agrees(v.world, v.now) && v.sessions[sid].current.Lobby?
    requires CreationProblem(v.world.social.tables, v.sessions[sid].current.chars, name).None?
    ensures Invariant(HandleCreate(Taking(v, sid), sid, name)) && HandleCreate(Taking(v, sid), sid, name).now == v.now
  {
    var s, t := v.sessions[sid], v.world.social.tables;
    assert Good(v.world, s);
    var account := s.current.account;
    var t' := Created(t, name, account);
    var e := Entity(t.nextId, name);
    CreatedAgrees(v.world, name, account, v.now);
    CreatedIsSound(t, name, account);
    EnumeratesMore(s.current.chars, Owned(t, account), e);
    RelistedIsGood(v.world.(social := v.world.social.(tables := t')), s, s.current.chars + [e], CharacterCreated(e));
    TablesStep(v, sid, t',
               PollAgain(Send(Busy(s).(current := s.current.(chars := s.current.chars + [e])), CharacterCreated(e))));
  }

  lemma DeletingIsSafe(v: Server, sid: nat, name: Text)
    requires Waiting(v, sid) && Agrees(v.world, v.now) && v.sessions[sid].current.Lobby?
    ensures Invariant(HandleDelete(Taking(v, sid), sid, name)) && HandleDelete(Taking(v, sid), sid, name).now == v.now
  {
    var chars := v.sessions[sid].current.chars;
    var i := Find(chars, name);
    if i == |chars| || Referenced(v.world.social.tables, chars[i].name) {
      CloseIsSafe(v, sid);
    } else {
      DeletedResult(v, sid, name);
      ErasedStep(v, sid, i, HandleDelete(Taking(v, sid), sid, name));
    }
  }

  /** The character to be deleted is not in the world, so the world agrees without it. */
  lemma ErasedWorld(v: Server, sid: nat, e: Entity, w': World)
    requires Waiting(v, sid) && Agrees(v.world, v.now) && v.sessions[sid].current.Lobby?
    requires e in v.sessions[sid].current.chars && !Referenced(v.world.social.tables, e.name)
    requires w' == v.world.(social := v.world.social.(tables := Erased(v.world.social.tables, e.name)))
    ensures Agrees(w', v.now)
    ensures var t, account := v.world.social.tables, v.sessions[sid].current.account;
            && Owned(w'.social.tables, account) == Owned(t, account) - {e}
            && forall a: nat | a != account :: Owned(w'.social.tables, a) == Owned(t, a)
  {
    var s, t := v.sessions[sid], v.world.social.tables;
    assert Good(v.world, s);
    assert e in Owned(t, s.current.account);
    LobbyCharactersAreOffline(v, sid, e);
    ErasedAgrees(v.world, e, s.current.account, v.now);
    ErasedIsSound(t, e, s.current.account);
  }

  /** The server after the deletion of the i-th character. */
  function Deleted(v: Server, sid: nat, i: nat, t': Tables): Server
    requires sid in v.sessions && v.sessions[sid].current.Lobby? && i < |v.sessions[sid].current.chars|
  {
    var chars := v.sessions[sid].current.chars;
    var rest := chars[..i] + chars[i + 1..];
    WithTables(Put(Taking(v, sid), sid, PollAgain(Send(Relisted(Busy(v.sessions[sid]), rest), CharacterList(rest)))),
               t')
  }

  lemma DeletedResult(v: Server, sid: nat, name: Text)
    requires sid in v.sessions && v.sessions[sid].current.Lobby?
    requires var chars := v.sessions[sid].current.chars;
             var i := Find(chars, name);
             i < |chars| && !Referenced(v.world.social.tables, chars[i].name)
    ensures var i := Find(v.sessions[sid].current.chars, name);
            HandleDelete(Taking(v, sid), sid, name)
              == Deleted(v, sid, i, Erased(v.world.social.tables, v.sessions[sid].current.chars[i].name))
  {
  }

  lemma ErasedStep(v: Server, sid: nat, i: nat, v': Server)
    requires Waiting(v, sid) && Agrees(v.world, v.now) && v.sessions[sid].current.Lobby?
    requires i < |v.sessions[sid].current.chars|
    requires !Referenced(v.world.social.tables, v.sessions[sid].current.chars[i].name)
    requires v' == Deleted(v, sid, i, Erased(v.world.social.tables, v.sessions[sid].current.chars[i].name))
    ensures Agrees(v'.world, v.now) && Attended(v') && v'.now == v.now
  {
    var e := v.sessions[sid].current.chars[i];
    ErasedWorld(v, sid, e, v'.world);
    ErasedSessions(v, sid, i, Erased(v.world.social.tables, e.name));
  }

  lemma ErasedSessions(v: Server, sid: nat, i: nat, t': Tables)
    requires Waiting(v, sid) && v.sessions[sid].current.Lobby? && i < |v.sessions[sid].current.chars|
    requires var t, account := v.world.social.tables, v.sessions[sid].current.account;
             && Owned(t', account) == Owned(t, account) - {v.sessions[sid].current.chars[i]}
             && forall a: nat | a != account :: Owned(t', a) == Owned(t, a)
    ensures Attended(Deleted(v, sid, i, t'))
  {
    var s := v.sessions[sid];
    assert Good(v.world, s);
    var rest := s.current.chars[..i] + s.current.chars[i + 1..];
    EnumeratesLess(s.current.chars, Owned(v.world.social.tables, s.current.account), i);
    RelistedIsGood(v.world.(social := v.world.social.(tables := t')), s, rest, CharacterList(rest));
    TablesStep(v, sid, t', PollAgain(Send(Busy(s).(current := s.current.(chars := rest)), CharacterList(rest))));
  }
}
