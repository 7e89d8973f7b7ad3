/** How a session leaves the world: back to the lobby, or for good. */
module Departures {
  import opened Basics
  import opened Protocol
  import opened Friends
  import opened Worlds
  import opened Sessions
  import opened ServerSteps
  import opened SessionInvariant
  import opened ServerRuns
  import Chats

  lemma LeaverHearsNothing(w: World, me: Entity, rooms: seq<Text>, now: int)
    requires Agrees(w, now) && me in w.entities && Enumerates(rooms, Chats.RoomsOf(ChatOf(w), me))
    ensures me.uid in w.social.lists && me.uid in w.social.mail
    ensures Gets(w.social.mail, LastWorld(w, me, rooms).social.mail, me.uid, [])
  {
    KnownUser(w, me);
    SoundIsCanonical(w.social.tables);
    var w2 := LeaveFriends(w, me, now);
    FriendLeftTells(w, me, me.uid);
    assert Enumerates(rooms, Chats.RoomsOf(ChatOf(w2), me)) by {
      SameRooms(ChatOf(w), ChatOf(w2), me);
    }
    Chats.LogoutMail(ChatOf(w2), me, rooms, me);
  }

  lemma NothingForwarded(s: Session, before: Mail, after: Mail)
    requires UserOf(s).Some? && Gets(before, after, UserOf(s).value.uid, [])
    ensures Forward(s, before, after) == s
  {
    assert News(before, after, UserOf(s).value.uid) == [];
    assert s.sent + [] == s.sent;
  }

  /** The session that was in the world and has been sent moved_to_lobby, if it is open. */
  function Moved(s: Session): Session {
    Send(s, MovedToLobby).(current := Null, tasks := [])
  }

  lemma DestroyedSession(v: Server, sid: nat, rooms: seq<Text>) returns (v': Server)
    requires Invariant(v) && sid in v.sessions && Leaving(v.sessions[sid])
    requires Enumerates(rooms, Chats.RoomsOf(ChatOf(v.world), v.sessions[sid].current.me))
    ensures Destroyed(Taking(v, sid), sid, rooms) == Goes(v')
    ensures v.sessions[sid].current.me.uid in v.world.social.lists
    ensures v'.world == Leave(v.world, v.sessions[sid].current.me, rooms)
    ensures sid in v'.sessions && v'.sessions[sid] == Moved(v.sessions[sid])
  {
    var s := v.sessions[sid];
    var me := s.current.me;
    assert Good(v.world, s) && UserOf(s) == Some(me);
    LeaverHearsNothing(v.world, me, rooms, v.now);
    LastWorldHears(v.world, me, rooms, v.now);
    DestroyedIsDeparted(v, sid, rooms);
    NothingForwarded(Busy(s), v.world.social.mail, LastWorld(v.world, me, rooms).social.mail);
    v' := Destroyed(Taking(v, sid), sid, rooms).server;
  }

  lemma LeavingTask(s: Session)
    requires Leaving(s)
    ensures Taken(s, 0) == Busy(s)
  {
  }

  /** The transition out of the world: the user is out, exactly moved_to_lobby is sent to him, and the lobby that waited
      asks for its list. */
  lemma TransitionReturns(v: Server, sid: nat, rooms: seq<Text>) returns (v': Server)
    requires Invariant(v) && sid in v.sessions && v.sessions[sid].open && Leaving(v.sessions[sid])
    requires Enumerates(rooms, Chats.RoomsOf(ChatOf(v.world), v.sessions[sid].current.me))
    ensures Possible(v, Run(sid, 0, Visits(rooms))) && Step(v, Run(sid, 0, Visits(rooms))) == Goes(v')
    ensures v.sessions[sid].current.me.uid in v.world.social.lists
    ensures v'.world == Leave(v.world, v.sessions[sid].current.me, rooms) && sid in v'.sessions
    ensures v.sessions[sid].awaiting.Some? && v.sessions[sid].awaiting.value.Lobby?
    ensures v'.sessions[sid] == Returned(v.sessions[sid])
  {
    LeavingTask(v.sessions[sid]);
    MovedReturns(v.sessions[sid]);
    TransitionTask(v, sid, rooms);
    var v1 := DestroyedSession(v, sid, rooms);
    RunsTransition(Taking(v, sid), sid, rooms, v1);
    v' := Put(v1, sid, MoveOn(v1.sessions[sid]));
  }

  lemma TransitionTask(v: Server, sid: nat, rooms: seq<Text>)
    requires sid in v.sessions && v.sessions[sid].open && Leaving(v.sessions[sid])
    requires Enumerates(rooms, Chats.RoomsOf(ChatOf(v.world), v.sessions[sid].current.me))
    ensures Possible(v, Run(sid, 0, Visits(rooms)))
    ensures Step(v, Run(sid, 0, Visits(rooms))) == RunTask(Taking(v, sid), sid, RunTransition, Visits(rooms))
  {
    LeavingTask(v.sessions[sid]);
  }

  /** Back in a lobby that asks for its list. */
  function Returned(s: Session): Session
    requires s.awaiting.Some? && s.awaiting.value.Lobby?
  {
    s.(current := s.awaiting.value, awaiting := None, async := PacketPoll,
       tasks := [Query(s.awaiting.value.id, s.awaiting.value.account)], sent := s.sent + [MovedToLobby])
  }

  lemma MovedReturns(s: Session)
    requires Leaving(s) && s.open
    ensures s.awaiting.Some? && s.awaiting.value.Lobby? && Moved(s).awaiting.Some?
    ensures MoveOn(Moved(s)) == Returned(s)
  {
  }

  /** The finalization of a session in the world: the user is out, nothing is sent to him, and nothing is under way. */
  lemma FinalizationEnds(v: Server, sid: nat, rooms: seq<Text>) returns (v': Server)
    requires Invariant(v) && sid in v.sessions && !v.sessions[sid].open && Leaving(v.sessions[sid])
    requires Enumerates(rooms, Chats.RoomsOf(ChatOf(v.world), v.sessions[sid].current.me))
    ensures Possible(v, Run(sid, 0, Visits(rooms))) && Step(v, Run(sid, 0, Visits(rooms))) == Goes(v')
    ensures v.sessions[sid].current.me.uid in v.world.social.lists
    ensures v'.world == Leave(v.world, v.sessions[sid].current.me, rooms) && sid in v'.sessions
    ensures v'.sessions[sid] == v.sessions[sid].(current := Null, tasks := [])
  {
    LeavingTask(v.sessions[sid]);
    RunsFinalization(Taking(v, sid), sid, rooms);
    v' := DestroyedSession(v, sid, rooms);
  }
}
