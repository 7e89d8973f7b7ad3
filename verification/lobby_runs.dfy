/** The limits of the lobby over whole runs: how many characters, and which names. */
module LobbyRuns {
  import opened Basics
  import opened Protocol
  import opened Codec
  import opened Database
  import opened Friends
  import opened Worlds
  import opened Wire
  import opened Sessions
  import opened ServerSteps
  import opened SessionInvariant
  import opened ServerRuns

  /** 1 to 20 letters and digits. */
  predicate ProperName(name: Text) {
    1 <= |name| <= NAME_LIMIT && AllAlnum(name)
  }

  ghost predicate Limited(t: Tables) {
    && (forall account: nat :: |Owned(t, account)| <= CHARACTER_LIMIT)
    && (forall u <- t.characters :: ProperName(t.characters[u].nickname))
  }

  lemma {:induction false} EnumerationCounts(order: seq<Entity>, es: set<Entity>)
    requires Enumerates(order, es)
    ensures |order| == |es|
    decreases |order|
  {
    if |order| == 0 {
      assert es == {};
    } else {
      EnumerationCounts(order[1..], es - {order[0]});
    }
  }

  lemma SameCharactersAreLimited(t: Tables, t': Tables)
    requires Limited(t) && t'.characters == t.characters
    ensures Limited(t')
  {
    SameOwners(t, t');
  }

  lemma CreatedIsLimited(v: Server, sid: nat, name: Text)
    requires Waiting(v, sid) && Agrees(v.world, v.now) && v.sessions[sid].current.Lobby?
    requires Limited(v.world.social.tables)
    ensures Limited(HandleCreate(Taking(v, sid), sid, name).world.social.tables)
  {
    var s, t := v.sessions[sid], v.world.social.tables;
    assert Good(v.world, s);
    if CreationProblem(t, s.current.chars, name).None? {
      CreatedIsSound(t, name, s.current.account);
      EnumerationCounts(s.current.chars, Owned(t, s.current.account));
      var t' := Created(t, name, s.current.account);
      forall account: nat
        ensures |Owned(t', account)| <= CHARACTER_LIMIT
      {
        assert account != s.current.account ==> Owned(t', account) == Owned(t, account);
      }
    }
  }

  lemma DeletedIsLimited(v: Server, sid: nat, name: Text)
    requires Waiting(v, sid) && Agrees(v.world, v.now) && v.sessions[sid].current.Lobby?
    requires Limited(v.world.social.tables)
    ensures Limited(HandleDelete(Taking(v, sid), sid, name).world.social.tables)
  {
    var s, t := v.sessions[sid], v.world.social.tables;
    assert Good(v.world, s);
    var i := Find(s.current.chars, name);
    if i < |s.current.chars| && !Referenced(t, s.current.chars[i].name) {
      var e := s.current.chars[i];
      ErasedIsSound(t, e, s.current.account);
      var t' := Erased(t, e.name);
      forall account: nat
        ensures |Owned(t', account)| <= CHARACTER_LIMIT
      {
        assert account != s.current.account ==> Owned(t', account) == Owned(t, account);
      }
    }
  }

  lemma LobbyIsLimited(v: Server, sid: nat, data: Text, friends: seq<Uid>)
    requires Waiting(v, sid) && Agrees(v.world, v.now) && v.sessions[sid].current.Lobby?
    requires Limited(v.world.social.tables)
    requires OrderFits(v.world, v.sessions[sid].current, data, friends)
    ensures var r := HandleLobby(Taking(v, sid), sid, data, friends);
            r.Goes? ==> Limited(r.server.world.social.tables)
  {
    match ReadLobbyRequest(data)
    case Create(name) => CreatedIsLimited(v, sid, name);
    case Delete(name) => DeletedIsLimited(v, sid, name);
    case Select(name) => SelectKeepsTables(Taking(v, sid), sid, name, friends);
    case _ => ClosingKeepsTables(Taking(v, sid), sid, data, friends);
  }

  lemma ClosingKeepsTables(v: Server, sid: nat, data: Text, friends: seq<Uid>)
    requires sid in v.sessions && v.sessions[sid].current.Lobby?
    requires var r := ReadLobbyRequest(data); r.BadLobbyRequest? || r.LogOff? || r.NoLobbyRequest?
    ensures HandleLobby(v, sid, data, friends).Goes?
    ensures HandleLobby(v, sid, data, friends).server.world.social.tables == v.world.social.tables
  {
  }

  lemma SelectKeepsTables(v: Server, sid: nat, name: Text, friends: seq<Uid>)
    requires sid in v.sessions && v.sessions[sid].current.Lobby?
    requires var chars := v.sessions[sid].current.chars;
             var i := Find(chars, name);
             i < |chars| ==> Enumerates(friends, NewcomersFriends(v.world.social, chars[i].uid))
    ensures var r := HandleSelect(v, sid, name, friends);
            r.Goes? ==> r.server.world.social.tables == v.world.social.tables
  {
    var chars := v.sessions[sid].current.chars;
    var i := Find(chars, name);
    if i < |chars| && CanEnter(v.world, chars[i]) {
      EnterFrame(v.world, chars[i], friends);
    }
  }

  predicate KeepsCharacters(v: Server, r: Progress) {
    r.Goes? ==> r.server.world.social.tables.characters == v.world.social.tables.characters
  }

  lemma LeavingKeepsCharacters(v: Server, sid: nat, rooms: seq<Text>)
    requires sid in v.sessions
    ensures KeepsCharacters(v, Destroyed(v, sid, rooms))
    ensures Destroyed(v, sid, rooms).Goes? ==> sid in Destroyed(v, sid, rooms).server.sessions
  {
    var s := v.sessions[sid];
    if s.current.Ingame? && CanLeave(v.world, s.current.me) {
      LeaveFrame(v.world, s.current.me, rooms);
    }
  }

  lemma ServedKeepsCharacters(w: World, me: Entity, r: IngameRequest, now: int)
    requires CanServe(w, me, r)
    ensures ServedWorld(w, me, r, now).social.tables.characters == w.social.tables.characters
  {
    match r
    case FriendAdd(nick) => RequestAddFrame(w.social, me, nick, now);
    case FriendRemove(nick) => RequestRemoveFrame(w.social, me, nick);
    case _ =>
  }

  lemma IngameKeepsCharacters(v: Server, sid: nat, data: Text)
    requires sid in v.sessions && v.sessions[sid].current.Ingame?
    ensures KeepsCharacters(v, HandleIngame(v, sid, data))
  {
    var me, r := v.sessions[sid].current.me, ReadIngameRequest(data);
    if !r.BadIngameRequest? && !r.LogOffToLobby? && CanServe(v.world, me, r) {
      ServedKeepsCharacters(v.world, me, r, v.now);
    }
  }

  /** Only requests to the lobby change the characters. */
  lemma TaskKeepsCharacters(v: Server, sid: nat, t: Task, input: Input)
    requires sid in v.sessions && |v.sessions[sid].tasks| == 1 && t == v.sessions[sid].tasks[0]
    requires Possible(v, Run(sid, 0, input))
    requires !(t.Recv? && v.sessions[sid].current.Lobby?)
    ensures KeepsCharacters(v, RunTask(Taking(v, sid), sid, t, input))
  {
    if input.Visits? {
      LeavingKeepsCharacters(Taking(v, sid), sid, input.rooms);
    }
    if v.sessions[sid].current.Ingame? && input.Arrives? {
      IngameKeepsCharacters(Taking(v, sid), sid, input.data);
    }
  }

  lemma StepIsLimited(v: Server, e: GameEvent)
    requires Invariant(v) && Possible(v, e) && Limited(v.world.social.tables)
    ensures Step(v, e).Goes? ==> Limited(Step(v, e).server.world.social.tables)
  {
    match e
    case Accept(_) =>
    case BroadcastTimer(_) =>
    case CleanupTimer => SameCharactersAreLimited(v.world.social.tables, v.world.social.tables);
    case Run(sid, k, input) =>
      var s := v.sessions[sid];
      assert Good(v.world, s);
      OnlyTask(s, k);
      TaskIsLimited(v, sid, input);
  }

  lemma TaskIsLimited(v: Server, sid: nat, input: Input)
    requires Invariant(v) && Possible(v, Run(sid, 0, input)) && Limited(v.world.social.tables)
    requires |v.sessions[sid].tasks| == 1
    ensures var r := RunTask(Taking(v, sid), sid, v.sessions[sid].tasks[0], input);
            r.Goes? ==> Limited(r.server.world.social.tables)
  {
    var s := v.sessions[sid];
    assert Good(v.world, s);
    var r := RunTask(Taking(v, sid), sid, s.tasks[0], input);
    if s.tasks[0].Recv? && s.current.Lobby? {
      assert s.tasks == [Recv];
      if input.Arrives? {
        LobbyIsLimited(v, sid, input.data, input.friends);
      }
    } else {
      TaskKeepsCharacters(v, sid, s.tasks[0], input);
      if r.Goes? {
        SameCharactersAreLimited(v.world.social.tables, r.server.world.social.tables);
      }
    }
  }

  lemma {:induction false} RunIsLimited(v: Server, run: History)
    requires Invariant(v) && CanHappen(v, run) && Limited(v.world.social.tables)
    ensures StateAfter(v, run).Goes? ==> Limited(StateAfter(v, run).server.world.social.tables)
    decreases |run|
  {
    if |run| > 0 {
      var ready := v.(now := run[0].time);
      TimeIsSafe(v, run[0].time);
      StepIsSafe(ready, run[0].event);
      if Step(ready, run[0].event).Goes? {
        StepIsLimited(ready, run[0].event);
        RunIsLimited(Step(ready, run[0].event).server, run[1..]);
      }
    }
  }

  /** If it was so at the start, no account ever has more than five characters, and every name is 1 to 20 letters
      and digits. */
  lemma {:induction false} LimitsHold(tables: Tables, start: int, run: History, v: Server)
    requires Sound(tables) && Limited(tables)
    requires CanHappen(Started(tables, start), run) && StateAfter(Started(tables, start), run) == Goes(v)
    ensures Limited(v.world.social.tables)
  {
    StartedIsSafe(tables, start);
    RunIsLimited(Started(tables, start), run);
  }

  /** So the list of a lobby that waits for a packet is within the limit, and fits the buffer of its packet. */
  lemma LobbyListFits(v: Server, sid: nat)
    requires Reachable(v) && Limited(v.world.social.tables)
    requires sid in v.sessions && v.sessions[sid].open && v.sessions[sid].current.Lobby?
    requires v.sessions[sid].tasks == [Recv]
    ensures |v.sessions[sid].current.chars| <= CHARACTER_LIMIT
    ensures |Bytes(CharacterList(v.sessions[sid].current.chars))| <= BUFFER_SIZE
  {
    LobbyListIsDatabase(v, sid);
    ListFits(v.world.social.tables, v.sessions[sid].current.chars, v.sessions[sid].current.account);
  }

  lemma ListFits(t: Tables, chars: seq<Entity>, account: nat)
    requires Limited(t) && Enumerates(chars, Owned(t, account))
    ensures |chars| <= CHARACTER_LIMIT && |Bytes(CharacterList(chars))| <= BUFFER_SIZE
  {
    EnumerationCounts(chars, Owned(t, account));
    forall i | 0 <= i < |chars|
      ensures |chars[i].name| <= NAME_LIMIT
    {
      assert chars[i] in Owned(t, account);
    }
    CharacterListFits(chars);
  }
}
