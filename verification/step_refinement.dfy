/** What the objects do with a packet, a callback or a destruction is what a step of the server does. */
module StepRefinement {
  import opened Basics
  import opened Protocol
  import opened Friends
  import opened Worlds
  import opened Sessions
  import opened ServerSteps
  import opened PacketSafety
  import opened Mmoclients
  import opened IngameStates

  lemma SentNothing(s: Session)
    ensures SendAll(s, []) == s
  {
    assert s.sent + [] == s.sent;
  }

  lemma NoNews(mail: Mail, u: Uid)
    ensures News(mail, mail, u) == []
  {
  }

  lemma ForwardedNothing(s: Session, mail: Mail)
    ensures Forward(s, mail, mail) == s
  {
    SentNothing(s);
    if UserOf(s).Some? {
      NoNews(mail, UserOf(s).value.uid);
    }
  }

  /** A step that changes one session, and nothing that the world mails. */
  lemma LocalBecame(v: Server, sid: nat, w': World, s': Session, v': Server)
    requires sid in v.sessions && v'.sessions == v.sessions[sid := s'] && v'.now == v.now
    requires w'.social.mail == v.world.social.mail
    ensures Became(v, sid, w', s', v')
  {
    forall t <- v.sessions | t != sid
      ensures v'.sessions[t] == Forward(v.sessions[t], v.world.social.mail, w'.social.mail)
    {
      ForwardedNothing(v.sessions[t], v.world.social.mail);
    }
  }

  // ---------------------------------------------------------------- Preauth

  /** A packet with an opcode: the session becomes what the handler of the preauth object makes of it. */
  lemma HelloSteps(v: Server, sid: nat, data: Text, verdict: Option<nat>)
    requires sid in v.sessions && v.sessions[sid].awaiting.None? && |data| > 0
    ensures var r := HandleHello(v, sid, data, verdict);
            r.Goes? && r.server.world == v.world
            && Became(v, sid, v.world, AfterHello(v.sessions[sid], data, verdict, v.nextLobby), r.server)
  {
    LocalBecame(v, sid, v.world, AfterHello(v.sessions[sid], data, verdict, v.nextLobby),
                HandleHello(v, sid, data, verdict).server);
  }

  // ---------------------------------------------------------------- Lobby

  lemma OtherHandled(v: Server, sid: nat, data: Text, friends: seq<Uid>)
    requires sid in v.sessions && v.sessions[sid].current.Lobby? && !ReadLobbyRequest(data).Select?
    requires OrderFits(v.world, v.sessions[sid].current, data, friends)
    ensures var (t', s') := AfterOther(v.world.social.tables, v.sessions[sid], ReadLobbyRequest(data));
            HandleLobby(v, sid, data, friends) == Goes(WithTables(Put(v, sid, s'), t'))
  {
  }

  /** The handling session when a packet to the lobby has been handled by the objects, and the login's mail to the
      newcomer has gone out through it. */
  function LobbySession(s: Session, r: LobbyRequest, w': World, s': Session): Session
    requires s.current.Lobby?
  {
    if !r.Select? || Find(s.current.chars, r.name) == |s.current.chars| then s'
    else
      var u := s.current.chars[Find(s.current.chars, r.name)].uid;
      if u in w'.social.mail then SendAll(s', w'.social.mail[u]) else s'
  }

  lemma SelectionSteps(v: Server, sid: nat, name: Text, w': World, s': Session) returns (friends: seq<Uid>)
    requires sid in v.sessions && v.sessions[sid].current.Lobby? && v.sessions[sid].awaiting.None?
    requires Selected(v.world, v.sessions[sid], name, w', s')
    ensures var chars := v.sessions[sid].current.chars;
            var i := Find(chars, name);
            i < |chars| ==> Enumerates(friends, NewcomersFriends(v.world.social, chars[i].uid))
    ensures var r := HandleSelect(v, sid, name, friends);
            r.Goes? && r.server.world == w'
            && Became(v, sid, w', LobbySession(v.sessions[sid], Select(name), w', s'), r.server)
  {
    var s := v.sessions[sid];
    var i := Find(s.current.chars, name);
    if i == |s.current.chars| {
      friends := [];
      LocalBecame(v, sid, w', s', HandleSelect(v, sid, name, friends).server);
    } else {
      var me := s.current.chars[i];
      friends :| Enumerates(friends, NewcomersFriends(v.world.social, me.uid)) && w' == Enter(v.world, me, friends);
      EnterFrame(v.world, me, friends);
      EnteredSteps(v, sid, w', me, s');
    }
  }

  lemma EnteredSteps(v: Server, sid: nat, w': World, me: Entity, s': Session)
    requires sid in v.sessions && v.sessions[sid].current.Lobby? && v.sessions[sid].awaiting.None?
    requires me.uid in w'.social.mail && s' == Selecting(v.sessions[sid], v.sessions[sid].current.account, me)
    ensures var v1 := Put(v, sid, Send(v.sessions[sid], CharacterSelected(me.name)));
            Entered(v1, sid, w', me).world == w'
            && Became(v, sid, w', SendAll(s', w'.social.mail[me.uid]), Entered(v1, sid, w', me))
  {
  }

  /** Every outcome of the lobby object's handler is a step of the server, for some order of the friends. */
  lemma LobbySteps(v: Server, sid: nat, data: Text, w': World, s': Session) returns (friends: seq<Uid>)
    requires sid in v.sessions && v.sessions[sid].current.Lobby? && v.sessions[sid].awaiting.None?
    requires LobbyHandled(v.world, v.sessions[sid], ReadLobbyRequest(data), w', s')
    ensures OrderFits(v.world, v.sessions[sid].current, data, friends)
    ensures var r := HandleLobby(v, sid, data, friends);
            r.Goes? && r.server.world == w'
            && Became(v, sid, w', LobbySession(v.sessions[sid], ReadLobbyRequest(data), w', s'), r.server)
  {
    match ReadLobbyRequest(data)
    case Select(name) => friends := SelectionSteps(v, sid, name, w', s');
    case _ =>
      friends := [];
      OtherHandled(v, sid, data, friends);
      LocalBecame(v, sid, w', s', HandleLobby(v, sid, data, friends).server);
  }

  // ---------------------------------------------------------------- The world

  /** The handling session: the answer of the ingame object, after what the world mailed to the user. */
  lemma IngameSteps(v: Server, sid: nat, data: Text)
    requires sid in v.sessions && v.sessions[sid].current.Ingame? && v.sessions[sid].awaiting.None?
    requires CanServe(v.world, v.sessions[sid].current.me, ReadIngameRequest(data))
    ensures var s, r := v.sessions[sid], ReadIngameRequest(data);
            var w' := ServedWorld(v.world, s.current.me, r, v.now);
            var answered := Answered(s, s.current.account, r, v.nextLobby);
            var step := HandleIngame(v, sid, data);
            var news := News(v.world.social.mail, w'.social.mail, s.current.me.uid);
            && step.Goes? && step.server.world == w'
            && Became(v, sid, w', SendAll(answered, news), step.server)
  {
    var s, r := v.sessions[sid], ReadIngameRequest(data);
    var w' := ServedWorld(v.world, s.current.me, r, v.now);
    if r.BadIngameRequest? || r.LogOffToLobby? {
      NoNews(v.world.social.mail, s.current.me.uid);
      SentNothing(Answered(s, s.current.account, r, v.nextLobby));
      LocalBecame(v, sid, w', Answered(s, s.current.account, r, v.nextLobby), HandleIngame(v, sid, data).server);
    }
  }

  /** The destruction of an ingame state: what the logout mails to the user, then moved_to_lobby. */
  lemma DestructionSteps(v: Server, sid: nat, rooms: seq<Text>)
    requires sid in v.sessions && v.sessions[sid].current.Ingame?
    requires UserOf(v.sessions[sid]) == Some(v.sessions[sid].current.me)
    requires CanLeave(v.world, v.sessions[sid].current.me)
    ensures var s, me := v.sessions[sid], v.sessions[sid].current.me;
            var last := OutOfChat(OutOfFriends(OutOfRegistrar(v.world, me), me), me, rooms);
            var heard := SendAll(s, News(v.world.social.mail, last.social.mail, me.uid));
            var step := Destroyed(v, sid, rooms);
            && step.Goes? && step.server.world == Leave(v.world, me, rooms)
            && Became(v, sid, last, Send(heard, MovedToLobby).(current := Null), step.server)
  {
  }

  // ---------------------------------------------------------------- The asynchronous query

  /** The first half of the query, by the object of the database adapter: it posts the callback with the rows. */
  lemma QuerySteps(v: Server, sid: nat, lobby: nat, account: nat, rows: seq<Entity>)
    requires sid in v.sessions
    ensures RunTask(v, sid, Query(lobby, account), Returns(rows))
         == Goes(Put(v, sid, Posted(v.sessions[sid], Completion(lobby, rows))))
  {
  }

  /** The second half, by the lobby object. */
  lemma CallbackSteps(v: Server, sid: nat, lobby: nat, rows: seq<Entity>)
    requires sid in v.sessions && v.sessions[sid].current.Lobby? && v.sessions[sid].current.id == lobby
    ensures RunTask(v, sid, Completion(lobby, rows), Nothing)
         == Goes(Put(v, sid, Arm(Send(Relisted(v.sessions[sid], rows), CharacterList(rows)))))
  {
  }
}
