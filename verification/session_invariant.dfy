/** What the sessions and the world have to do with each other between two events. */
module SessionInvariant {
  import opened Basics
  import opened Protocol
  import opened Database
  import opened Worlds
  import opened Sessions
  import opened ServerSteps

  // ---------------------------------------------------------------- The invariant

  /** The character in the world belongs to the account; the list of a lobby that waits for a packet, and the
      rows on the way to it, are what the database holds for the account. */
  predicate Listed(t: Tables, s: Session) {
    && (UserOf(s).Some? ==> AccountOf(s).Some? && UserOf(s).value in Owned(t, AccountOf(s).value))
    && (s.open && s.current.Lobby? && s.tasks == [Recv] ==> Enumerates(s.current.chars, Owned(t, s.current.account)))
    && (s.open && s.current.Lobby? && |s.tasks| == 1 && s.tasks[0].Completion? ==>
          Enumerates(s.tasks[0].rows, Owned(t, s.current.account)))
  }

  /** The character is in the world, and what the world has sent to it is what the session has sent since the
      selection. */
  predicate Housed(w: World, s: Session) {
    match UserOf(s)
    case None => true
    case Some(me) =>
      && me in w.entities && me.uid in w.social.mail
      && (s.open ==> SinceSelected(s.sent) == w.social.mail[me.uid])
  }

  predicate Good(w: World, s: Session) {
    Single(s) && InStep(s) && Listed(w.social.tables, s) && Housed(w, s)
  }

  predicate AllGood(v: Server) {
    forall sid <- v.sessions :: Good(v.world, v.sessions[sid])
  }

  predicate OneSessionPerAccount(v: Server) {
    forall i <- v.sessions, j <- v.sessions ::
      AccountOf(v.sessions[i]).Some? && AccountOf(v.sessions[i]) == AccountOf(v.sessions[j]) ==> i == j
  }

  /** Whoever is in the world has a session. */
  predicate Residents(v: Server) {
    forall e <- v.world.entities :: exists sid <- v.sessions :: UserOf(v.sessions[sid]) == Some(e)
  }

  /** The sessions side of the invariant. */
  predicate Attended(v: Server) {
    AllGood(v) && OneSessionPerAccount(v) && Residents(v)
  }

  ghost predicate Invariant(v: Server) {
    Agrees(v.world, v.now) && Attended(v)
  }

  // ---------------------------------------------------------------- Users and accounts

  lemma OwnerIsUnique(t: Tables, e: Entity, f: Entity, a: nat, b: nat)
    requires e in Owned(t, a) && f in Owned(t, b) && e.uid == f.uid
    ensures a == b && e == f
  {
  }

  /** A user has one session. */
  lemma OneSessionPerUser(v: Server, i: nat, j: nat)
    requires AllGood(v) && OneSessionPerAccount(v) && i in v.sessions && j in v.sessions
    requires UserOf(v.sessions[i]).Some? && UserOf(v.sessions[j]).Some?
    ensures UserOf(v.sessions[i]).value.uid == UserOf(v.sessions[j]).value.uid ==> i == j
  {
    var e, f := UserOf(v.sessions[i]).value, UserOf(v.sessions[j]).value;
    assert Good(v.world, v.sessions[i]) && Good(v.world, v.sessions[j]);
    if e.uid == f.uid {
      OwnerIsUnique(v.world.social.tables, e, f, AccountOf(v.sessions[i]).value, AccountOf(v.sessions[j]).value);
    }
  }

  /** Who is online is so through a session of his account. */
  lemma OnlineHasSession(v: Server, e: Entity, account: nat) returns (sid: nat)
    requires Invariant(v) && e in Owned(v.world.social.tables, account) && e.uid in v.world.social.lists
    ensures sid in v.sessions && UserOf(v.sessions[sid]) == Some(e) && AccountOf(v.sessions[sid]) == Some(account)
  {
    var w := v.world;
    var f := w.social.registry.byId[e.uid];
    assert f in w.entities && f.uid == e.uid;
    sid :| sid in v.sessions && UserOf(v.sessions[sid]) == Some(f);
    assert Good(w, v.sessions[sid]);
    OwnerIsUnique(w.social.tables, e, f, account, AccountOf(v.sessions[sid]).value);
  }

  /** A character of an account whose session is not in the world is not in the world. */
  lemma LobbyCharactersAreOffline(v: Server, sid: nat, e: Entity)
    requires Invariant(v) && sid in v.sessions && UserOf(v.sessions[sid]).None?
    requires AccountOf(v.sessions[sid]).Some? && e in Owned(v.world.social.tables, AccountOf(v.sessions[sid]).value)
    ensures e.uid !in v.world.social.lists
  {
    if e.uid in v.world.social.lists {
      var t := OnlineHasSession(v, e, AccountOf(v.sessions[sid]).value);
    }
  }

  // ---------------------------------------------------------------- Forwarding

  lemma SentWorldPackets(s: Session, ps: seq<Packet>)
    requires InStep(s) && UserOf(s).Some? && forall i :: 0 <= i < |ps| ==> IsWorldPacket(ps[i])
    ensures InStep(SendAll(s, ps))
    ensures s.open ==> SinceSelected(SendAll(s, ps).sent) == SinceSelected(s.sent) + ps
  {
    if s.open {
      PhaseAfterWorldPackets(s.sent, ps);
      SinceMore(s.sent, ps);
    }
  }

  const WORLD: set<Sender> := {FromFriends, FromChat}

  /** What a user hears keeps his session good. */
  lemma ForwardIsGood(w: World, w': World, s: Session)
    requires Good(w, s) && w'.social.tables.characters == w.social.tables.characters
    requires match UserOf(s)
             case None => true
             case Some(me) =>
               && me in w'.entities && me.uid in w.social.mail && me.uid in w'.social.mail
               && GrowsAt(w.social.mail, w'.social.mail, me.uid, WORLD)
    ensures var s' := Forward(s, w.social.mail, w'.social.mail);
            Good(w', s') && UserOf(s') == UserOf(s) && AccountOf(s') == AccountOf(s)
  {
    if UserOf(s).Some? {
      var u := UserOf(s).value.uid;
      var news := News(w.social.mail, w'.social.mail, u);
      SentWorldPackets(s, news);
      assert w'.social.mail[u] == w.social.mail[u] + news;
    }
    SameOwners(w.social.tables, w'.social.tables);
  }

  lemma SameOwners(t: Tables, t': Tables)
    requires t'.characters == t.characters
    ensures forall a: nat :: Owned(t', a) == Owned(t, a)
  {
  }

  /** After a step of one session: the other sessions are good and stand for the same users and accounts. */
  predicate OthersKept(v: Server, sid: nat, v': Server) {
    && v'.sessions.Keys == v.sessions.Keys + {sid}
    && forall t <- v.sessions | t != sid ::
         && t in v'.sessions
         && Good(v'.world, v'.sessions[t])
         && UserOf(v'.sessions[t]) == UserOf(v.sessions[t])
         && AccountOf(v'.sessions[t]) == AccountOf(v.sessions[t])
  }

  lemma SpreadKeepsOthers(v: Server, sid: nat, w: World)
    requires sid in v.sessions && w.social.tables.characters == v.world.social.tables.characters
    requires forall t <- v.sessions | t != sid :: Good(v.world, v.sessions[t])
    requires forall t <- v.sessions | t != sid && UserOf(v.sessions[t]).Some? ::
               var me := UserOf(v.sessions[t]).value;
               && me in w.entities && me.uid in v.world.social.mail && me.uid in w.social.mail
               && GrowsAt(v.world.social.mail, w.social.mail, me.uid, WORLD)
    ensures OthersKept(v, sid, Spread(v, w))
  {
    forall t <- v.sessions | t != sid
      ensures var s' := Spread(v, w).sessions[t];
              Good(w, s') && UserOf(s') == UserOf(v.sessions[t]) && AccountOf(s') == AccountOf(v.sessions[t])
    {
      ForwardIsGood(v.world, w, v.sessions[t]);
    }
  }

  // ---------------------------------------------------------------- Putting a step together

  /** The acting session's account: the one it had, none, or one that was free. */
  predicate AccountFits(v: Server, sid: nat, s: Session) {
    || AccountOf(s).None?
    || (sid in v.sessions && AccountOf(s) == AccountOf(v.sessions[sid]))
    || forall t <- v.sessions :: AccountOf(v.sessions[t]) != AccountOf(s)
  }

  predicate UserFits(v: Server, sid: nat, v': Server)
    requires sid in v'.sessions
  {
    var before, after := if sid in v.sessions then UserOf(v.sessions[sid]) else None, UserOf(v'.sessions[sid]);
    || (before == after && v'.world.entities == v.world.entities)
    || (before.None? && after.Some? && v'.world.entities == v.world.entities + {after.value})
    || (before.Some? && after.None? && v'.world.entities == v.world.entities - {before.value})
  }

  lemma Conclude(v: Server, sid: nat, v': Server)
    requires OneSessionPerAccount(v) && Residents(v) && OthersKept(v, sid, v')
    requires sid in v'.sessions && Good(v'.world, v'.sessions[sid])
    requires AccountFits(v, sid, v'.sessions[sid]) && UserFits(v, sid, v')
    ensures Attended(v')
  {
    ConcludeAccounts(v, sid, v');
    ConcludeResidents(v, sid, v');
    forall t <- v'.sessions
      ensures Good(v'.world, v'.sessions[t])
    {
      assert t == sid || t in v.sessions;
    }
  }

  lemma ConcludeAccounts(v: Server, sid: nat, v': Server)
    requires OneSessionPerAccount(v) && OthersKept(v, sid, v') && sid in v'.sessions
    requires AccountFits(v, sid, v'.sessions[sid])
    ensures OneSessionPerAccount(v')
  {
    forall i <- v'.sessions, j <- v'.sessions
      | AccountOf(v'.sessions[i]).Some? && AccountOf(v'.sessions[i]) == AccountOf(v'.sessions[j])
      ensures i == j
    {
      assert (i == sid || i in v.sessions) && (j == sid || j in v.sessions);
    }
  }

  lemma ConcludeResidents(v: Server, sid: nat, v': Server)
    requires Residents(v) && OthersKept(v, sid, v') && sid in v'.sessions && UserFits(v, sid, v')
    ensures Residents(v')
  {
    forall e <- v'.world.entities
      ensures exists t <- v'.sessions :: UserOf(v'.sessions[t]) == Some(e)
    {
      if UserOf(v'.sessions[sid]) != Some(e) {
        assert e in v.world.entities;
        var t :| t in v.sessions && UserOf(v.sessions[t]) == Some(e);
        assert t != sid && UserOf(v'.sessions[t]) == Some(e);
      }
    }
  }

  /** A step that changes nothing but the session. */
  lemma LocalStep(v: Server, sid: nat, v': Server)
    requires Attended(v) && v'.world == v.world
    requires sid in v'.sessions && v'.sessions == v.sessions[sid := v'.sessions[sid]]
    requires Good(v.world, v'.sessions[sid]) && AccountFits(v, sid, v'.sessions[sid])
    requires UserOf(v'.sessions[sid]) == if sid in v.sessions then UserOf(v.sessions[sid]) else None
    ensures Attended(v')
  {
    Conclude(v, sid, v');
  }

  // ---------------------------------------------------------------- A session handles its packet

  /** The session when its outstanding task has been taken. */
  function Busy(s: Session): Session {
    s.(tasks := [])
  }

  lemma OnlyTask(s: Session, k: nat)
    requires Single(s) && k < |s.tasks|
    ensures k == 0 && s.tasks == [s.tasks[0]] && Taken(s, k) == Busy(s)
  {
  }

  /** A session that waits for a packet, and the server while it handles one. */
  predicate Waiting(v: Server, sid: nat) {
    Attended(v) && sid in v.sessions && v.sessions[sid].open && v.sessions[sid].tasks == [Recv]
  }

  function Taking(v: Server, sid: nat): Server
    requires sid in v.sessions
  {
    Put(v, sid, Busy(v.sessions[sid]))
  }

  lemma SentOne(s: Session, p: Packet)
    ensures PhaseAfter(Send(s, p).sent) == if s.open then Advance(PhaseAfter(s.sent), p) else PhaseAfter(s.sent)
  {
    PhaseAfterOne(s.sent, p);
  }
}
