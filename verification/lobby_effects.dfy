/** What the requests to the lobby bring about: creating, deleting and selecting a character, and logging off. */
module LobbyEffects {
  import opened Basics
  import opened Protocol
  import opened Codec
  import opened Database
  import opened Friends
  import opened Worlds
  import opened Sessions
  import opened ServerSteps
  import opened SessionInvariant
  import opened PacketSafety
  import opened RequestPackets
  import opened ServerRuns
  import opened LobbyRuns
  import opened Admission

  // ---------------------------------------------------------------- A packet to a waiting lobby

  /** The session waits for a packet in its lobby. */
  predicate LobbyWaits(v: Server, sid: nat) {
    Waiting(v, sid) && v.sessions[sid].current.Lobby?
  }

  function ListOf(v: Server, sid: nat): seq<Entity>
    requires LobbyWaits(v, sid)
  {
    v.sessions[sid].current.chars
  }

  function AccountAt(v: Server, sid: nat): nat
    requires LobbyWaits(v, sid)
  {
    v.sessions[sid].current.account
  }

  /** The step of a packet that selects nobody. */
  lemma OtherPacketStep(v: Server, sid: nat, data: Text, r: LobbyRequest)
    requires LobbyWaits(v, sid) && ReadLobbyRequest(data) == r && !r.Select?
    ensures Possible(v, Run(sid, 0, Arrives(data, None, [])))
    ensures Step(v, Run(sid, 0, Arrives(data, None, []))) == HandleLobby(Taking(v, sid), sid, data, [])
  {
    OnlyTask(v.sessions[sid], 0);
    assert Good(v.world, v.sessions[sid]);
  }

  /** The session answered with one packet, and waits again with this list. */
  predicate AnswersWith(s: Session, s': Session, chars: seq<Entity>, p: Packet) {
    && s.current.Lobby? && s' == s.(current := s.current.(chars := chars), sent := s.sent + [p])
  }

  lemma AnsweredSession(s: Session, chars: seq<Entity>, p: Packet)
    requires s.open && s.tasks == [Recv] && s.current.Lobby? && s.async == PacketPoll
    ensures AnswersWith(s, PollAgain(Send(Relisted(Busy(s), chars), p)), chars, p)
  {
  }

  /** Only this session and the tables have changed. */
  predicate OnlyTables(v: Server, sid: nat, v': Server, t': Tables) {
    && sid in v'.sessions && v' == WithTables(v.(sessions := v.sessions[sid := v'.sessions[sid]]), t')
  }

  // ---------------------------------------------------------------- Creating

  /** A digit or a letter. */
  predicate DigitOrLetter(c: Byte) {
    48 <= c <= 57 || 65 <= c <= 90 || 97 <= c <= 122
  }

  predicate DigitsAndLetters(name: Text) {
    forall i :: 0 <= i < |name| ==> DigitOrLetter(name[i])
  }

  ghost predicate NameIsFree(t: Tables, name: Text) {
    forall u <- t.characters :: t.characters[u].nickname != name
  }

  lemma FreeNameHasNoUid(t: Tables, name: Text)
    requires Sound(t)
    ensures NameIsFree(t, name) <==> UidOf(t, name) == INVALID_ID
  {
    TakenHasUid(t, name);
    if !NameIsFree(t, name) {
      var u :| u in t.characters && t.characters[u].nickname == name;
      assert HasNickname(t, u, name);
    }
  }

  /** What the first failing check says, if one fails: of count, length, bytes and database, in this order. */
  lemma ProblemExactly(t: Tables, account: nat, chars: seq<Entity>, name: Text)
    requires Sound(t) && Enumerates(chars, Owned(t, account))
    ensures var problem := CreationProblem(t, chars, name);
            if |Owned(t, account)| >= 5 then problem == Some(CharacterLimitExceeded)
            else if |name| == 0 || |name| > 20 then problem == Some(NameTooLong)
            else if !DigitsAndLetters(name) then problem == Some(NameContainsIncorrectDigits)
            else if !NameIsFree(t, name) then problem == Some(NameAlreadyUsed)
            else problem == None
  {
    EnumerationCounts(chars, Owned(t, account));
    FreeNameHasNoUid(t, name);
    assert DigitsAndLetters(name) <==> AllAlnum(name);
  }

  ghost predicate CanCreate(t: Tables, account: nat, name: Text) {
    |Owned(t, account)| < 5 && 1 <= |name| <= 20 && DigitsAndLetters(name) && NameIsFree(t, name)
  }

  /** The tables with one character more. */
  ghost predicate OneCharacterMore(t: Tables, t': Tables, account: nat, e: Entity) {
    && Owned(t', account) == Owned(t, account) + {e} && e.uid !in t.characters
    && t'.characters == t.characters[e.uid := CharacterRow(account, e.name)]
    && (forall a: nat | a != account :: Owned(t', a) == Owned(t, a))
    && t'.friends == t.friends
  }

  lemma CreatedOneMore(t: Tables, account: nat, name: Text)
    requires Sound(t) && NameIsFree(t, name)
    ensures OneCharacterMore(t, Created(t, name, account), account, Entity(t.nextId, name))
  {
    FreeNameHasNoUid(t, name);
    CreatedIsSound(t, name, account);
  }

  /** The event of a packet that arrives at a lobby. */
  function Arrival(sid: nat, data: Text): GameEvent {
    Run(sid, 0, Arrives(data, None, []))
  }

  lemma CreateStep(v: Server, sid: nat, data: Text, name: Text) returns (v': Server)
    requires LobbyWaits(v, sid) && |data| <= BUFFER_SIZE && Begins(data, LobbyFields(Create(name)))
    ensures Possible(v, Arrival(sid, data)) && Step(v, Arrival(sid, data)) == Goes(v')
    ensures v' == HandleCreate(Taking(v, sid), sid, name)
  {
    LobbyReadsExactly(data, Create(name));
    OtherPacketStep(v, sid, data, Create(name));
    v' := HandleCreate(Taking(v, sid), sid, name);
  }

  lemma WaitingLobby(v: Server, sid: nat)
    requires LobbyWaits(v, sid)
    ensures v.sessions[sid].async == PacketPoll && v.sessions[sid].awaiting.None?
    ensures Enumerates(ListOf(v, sid), Owned(v.world.social.tables, AccountAt(v, sid)))
  {
    assert Good(v.world, v.sessions[sid]);
  }

  lemma CreatedServer(v: Server, sid: nat, name: Text, s': Session, v': Server)
    requires LobbyWaits(v, sid) && CreationProblem(v.world.social.tables, ListOf(v, sid), name).None?
    requires var e := Entity(v.world.social.tables.nextId, name);
             s' == PollAgain(Send(Relisted(Busy(v.sessions[sid]), ListOf(v, sid) + [e]), CharacterCreated(e)))
    requires v' == HandleCreate(Taking(v, sid), sid, name)
    ensures sid in v'.sessions && v'.sessions[sid] == s'
    ensures OnlyTables(v, sid, v', Created(v.world.social.tables, name, AccountAt(v, sid)))
  {
    PutTwice(v, sid, Busy(v.sessions[sid]), s');
  }

  /** A character is created if the account has less than five, the name has 1 to 20 bytes, all of them digits and
      letters, and nobody has it: account and list have exactly this one more, and the client is told. */
  lemma CreationCreates(v: Server, sid: nat, data: Text, name: Text) returns (v': Server, e: Entity)
    requires LobbyWaits(v, sid) && Sound(v.world.social.tables)
    requires |data| <= BUFFER_SIZE && Begins(data, LobbyFields(Create(name)))
    requires CanCreate(v.world.social.tables, AccountAt(v, sid), name)
    ensures Possible(v, Arrival(sid, data)) && Step(v, Arrival(sid, data)) == Goes(v')
    ensures e == Entity(v.world.social.tables.nextId, name)
    ensures OnlyTables(v, sid, v', v'.world.social.tables)
    ensures OneCharacterMore(v.world.social.tables, v'.world.social.tables, AccountAt(v, sid), e)
    ensures AnswersWith(v.sessions[sid], v'.sessions[sid], ListOf(v, sid) + [e], CharacterCreated(e))
  {
    var s, t := v.sessions[sid], v.world.social.tables;
    WaitingLobby(v, sid);
    v' := CreateStep(v, sid, data, name);
    e := Entity(t.nextId, name);
    ProblemExactly(t, s.current.account, s.current.chars, name);
    CreatedOneMore(t, s.current.account, name);
    AnsweredSession(s, s.current.chars + [e], CharacterCreated(e));
    CreatedServer(v, sid, name, PollAgain(Send(Relisted(Busy(s), s.current.chars + [e]), CharacterCreated(e))), v');
  }

  lemma RefusedServer(v: Server, sid: nat, name: Text, reason: CreationFailure, s': Session, v': Server)
    requires LobbyWaits(v, sid) && CreationProblem(v.world.social.tables, ListOf(v, sid), name) == Some(reason)
    requires s' == PollAgain(Send(Relisted(Busy(v.sessions[sid]), ListOf(v, sid)), CharacterCreationFail(reason)))
    requires v' == HandleCreate(Taking(v, sid), sid, name)
    ensures sid in v'.sessions && v'.sessions[sid] == s' && OnlySession(v, sid, v') && v'.nextLobby == v.nextLobby
  {
    assert Relisted(Busy(v.sessions[sid]), ListOf(v, sid)) == Busy(v.sessions[sid]);
    PutTwice(v, sid, Busy(v.sessions[sid]), s');
  }

  /** Otherwise nothing is created, and the one packet that is sent carries the reason of the first check that fails. */
  lemma CreationRefused(v: Server, sid: nat, data: Text, name: Text) returns (v': Server, reason: CreationFailure)
    requires LobbyWaits(v, sid) && Sound(v.world.social.tables)
    requires |data| <= BUFFER_SIZE && Begins(data, LobbyFields(Create(name)))
    requires !CanCreate(v.world.social.tables, AccountAt(v, sid), name)
    ensures Possible(v, Arrival(sid, data)) && Step(v, Arrival(sid, data)) == Goes(v')
    ensures reason == if |Owned(v.world.social.tables, AccountAt(v, sid))| >= 5 then CharacterLimitExceeded
                      else if |name| == 0 || |name| > 20 then NameTooLong
                      else if !DigitsAndLetters(name) then NameContainsIncorrectDigits
                      else NameAlreadyUsed
    ensures OnlySession(v, sid, v') && v'.nextLobby == v.nextLobby
    ensures AnswersWith(v.sessions[sid], v'.sessions[sid], ListOf(v, sid), CharacterCreationFail(reason))
  {
    var s, t := v.sessions[sid], v.world.social.tables;
    WaitingLobby(v, sid);
    v' := CreateStep(v, sid, data, name);
    ProblemExactly(t, s.current.account, s.current.chars, name);
    reason := CreationProblem(t, s.current.chars, name).value;
    var p := CharacterCreationFail(reason);
    AnsweredSession(s, s.current.chars, p);
    RefusedServer(v, sid, name, reason, PollAgain(Send(Relisted(Busy(s), s.current.chars), p)), v');
  }

  /** In every reachable state: a creation request is answered by the new character if and only if the four conditions
      hold. */
  lemma CreationExactly(v: Server, sid: nat, data: Text, name: Text) returns (v': Server)
    requires Reachable(v) && sid in v.sessions && v.sessions[sid].open && v.sessions[sid].current.Lobby?
    requires v.sessions[sid].tasks == [Recv] && |data| <= BUFFER_SIZE && Begins(data, LobbyFields(Create(name)))
    ensures Step(v, Arrival(sid, data)) == Goes(v') && sid in v'.sessions
    ensures CanCreate(v.world.social.tables, v.sessions[sid].current.account, name)
       <==> v'.sessions[sid].sent
              == v.sessions[sid].sent + [CharacterCreated(Entity(v.world.social.tables.nextId, name))]
  {
    ReachableIsSafe(v);
    if CanCreate(v.world.social.tables, v.sessions[sid].current.account, name) {
      var e: Entity;
      v', e := CreationCreates(v, sid, data, name);
    } else {
      var reason: CreationFailure;
      v', reason := CreationRefused(v, sid, data, name);
      LastDiffers(v.sessions[sid].sent, CharacterCreationFail(reason),
                  CharacterCreated(Entity(v.world.social.tables.nextId, name)));
    }
  }

  lemma LastDiffers(sent: seq<Packet>, p: Packet, q: Packet)
    requires p != q
    ensures sent + [p] != sent + [q]
  {
    assert (sent + [p])[|sent|] == p && (sent + [q])[|sent|] == q;
  }

  // ---------------------------------------------------------------- Closing and ignoring

  /** Nothing has changed but that the session is closed, with nothing sent. */
  predicate OnlyClosed(v: Server, sid: nat, v': Server)
    requires sid in v.sessions
  {
    OnlySession(v, sid, v') && v'.nextLobby == v.nextLobby && ClosedAfter(v.sessions[sid], v'.sessions[sid], [])
  }

  lemma ClosedServer(v: Server, sid: nat, v': Server)
    requires Waiting(v, sid)
    requires v' == Put(Taking(v, sid), sid, ForceClose(Busy(v.sessions[sid])))
    ensures OnlyClosed(v, sid, v')
  {
    var s := v.sessions[sid];
    PutTwice(v, sid, Busy(s), ForceClose(Busy(s)));
    assert s.sent + [] == s.sent;
  }

  lemma ClosedEitherWay(s: Session)
    ensures PollAgain(ForceClose(s)) == ForceClose(s)
  {
  }

  /** The packet has no opcode, or breaks off inside of a request. */
  ghost predicate IsCutShort(data: Text) {
    || |data| == 0
    || exists r: LobbyRequest ::
         && !r.NoLobbyRequest? && !r.BadLobbyRequest?
         && ShortTexts(LobbyFields(r)) && BreaksOff(data, LobbyFields(r))
  }

  /** Logging off, and a packet that breaks off, close the session. */
  lemma LoggingOffCloses(v: Server, sid: nat, data: Text) returns (v': Server)
    requires LobbyWaits(v, sid) && |data| <= BUFFER_SIZE && (Begins(data, LobbyFields(LogOff)) || IsCutShort(data))
    ensures Possible(v, Arrival(sid, data)) && Step(v, Arrival(sid, data)) == Goes(v')
    ensures OnlyClosed(v, sid, v')
  {
    ClosingRequest(data);
    OtherPacketStep(v, sid, data, ReadLobbyRequest(data));
    ClosingStep(Taking(v, sid), sid, data);
    v' := Put(Taking(v, sid), sid, ForceClose(Busy(v.sessions[sid])));
    ClosedServer(v, sid, v');
  }

  lemma ClosingRequest(data: Text)
    requires |data| <= BUFFER_SIZE && (Begins(data, LobbyFields(LogOff)) || IsCutShort(data))
    ensures ReadLobbyRequest(data).LogOff? || ReadLobbyRequest(data).BadLobbyRequest?
  {
    if Begins(data, LobbyFields(LogOff)) {
      LobbyReadsExactly(data, LogOff);
    } else if |data| == 0 {
      OtherOpcodes(data);
    } else {
      var cut: LobbyRequest :|
        && !cut.NoLobbyRequest? && !cut.BadLobbyRequest?
        && ShortTexts(LobbyFields(cut)) && BreaksOff(data, LobbyFields(cut));
      CutLobbyIsBad(data, cut);
    }
  }

  lemma ClosingStep(v: Server, sid: nat, data: Text)
    requires sid in v.sessions && v.sessions[sid].current.Lobby?
    requires ReadLobbyRequest(data).LogOff? || ReadLobbyRequest(data).BadLobbyRequest?
    ensures HandleLobby(v, sid, data, []) == Goes(Put(v, sid, ForceClose(v.sessions[sid])))
  {
    ClosedEitherWay(v.sessions[sid]);
  }

  /** An unknown opcode does nothing. */
  lemma UnknownIsIgnored(v: Server, sid: nat, data: Text)
    requires LobbyWaits(v, sid) && |data| > 0 && data[0] > 3
    ensures Possible(v, Arrival(sid, data)) && Step(v, Arrival(sid, data)) == Goes(v)
  {
    var s := v.sessions[sid];
    OtherOpcodes(data);
    OtherPacketStep(v, sid, data, NoLobbyRequest);
    WaitingLobby(v, sid);
    assert PollAgain(Busy(s)) == s;
    PutTwice(v, sid, Busy(s), s);
    assert v.sessions[sid := s] == v.sessions;
  }

  // ---------------------------------------------------------------- Deleting

  /** The tables with one character less. */
  ghost predicate OneCharacterLess(t: Tables, t': Tables, account: nat, e: Entity) {
    && Owned(t', account) == Owned(t, account) - {e}
    && (forall a: nat | a != account :: Owned(t', a) == Owned(t, a))
    && t'.friends == t.friends && t'.nextId == t.nextId
  }

  /** A character cannot be deleted exactly as long as it has friends. */
  lemma ReferencedHasFriends(t: Tables, e: Entity)
    requires Sound(t) && HasNickname(t, e.uid, e.name)
    ensures Referenced(t, e.name) <==> FriendsOf(t.friends, e.uid) != {}
  {
    if Referenced(t, e.name) {
      var row :|
        && row in t.friends
        && ((row.characterId in t.characters && t.characters[row.characterId].nickname == e.name)
            || (row.hisFriendId in t.characters && t.characters[row.hisFriendId].nickname == e.name));
      assert row.characterId == e.uid || row.hisFriendId == e.uid;
      assert row.characterId in FriendsOf(t.friends, e.uid) || row.hisFriendId in FriendsOf(t.friends, e.uid);
    }
    forall f | f in FriendsOf(t.friends, e.uid)
      ensures Referenced(t, e.name)
    {
      FriendIsReference(t, e, f);
    }
  }

  lemma FriendIsReference(t: Tables, e: Entity, f: Uid)
    requires HasNickname(t, e.uid, e.name) && f in FriendsOf(t.friends, e.uid)
    ensures Referenced(t, e.name)
  {
    assert FriendRow(f, e.uid) in t.friends || FriendRow(e.uid, f) in t.friends;
  }

  /** The one with this name, if there is one. */
  lemma FoundIsTheOne(t: Tables, account: nat, chars: seq<Entity>, i: nat)
    requires Sound(t) && Enumerates(chars, Owned(t, account)) && i < |chars|
    ensures Find(chars, chars[i].name) == i && HasNickname(t, chars[i].uid, chars[i].name)
  {
    var k := Find(chars, chars[i].name);
    assert chars[i] in Owned(t, account) && chars[k] in Owned(t, account);
    assert chars[k].uid == chars[i].uid && chars[k] == chars[i];
  }

  lemma DeleteStep(v: Server, sid: nat, data: Text, name: Text) returns (v': Server)
    requires LobbyWaits(v, sid) && |data| <= BUFFER_SIZE && Begins(data, LobbyFields(Delete(name)))
    ensures Possible(v, Arrival(sid, data)) && Step(v, Arrival(sid, data)) == Goes(v')
    ensures v' == HandleDelete(Taking(v, sid), sid, name)
  {
    LobbyReadsExactly(data, Delete(name));
    OtherPacketStep(v, sid, data, Delete(name));
    v' := HandleDelete(Taking(v, sid), sid, name);
  }

  lemma DeletedServer(v: Server, sid: nat, i: nat, s': Session, v': Server)
    requires LobbyWaits(v, sid) && i < |ListOf(v, sid)| && Find(ListOf(v, sid), ListOf(v, sid)[i].name) == i
    requires !Referenced(v.world.social.tables, ListOf(v, sid)[i].name)
    requires var rest := ListOf(v, sid)[..i] + ListOf(v, sid)[i + 1..];
             s' == PollAgain(Send(Relisted(Busy(v.sessions[sid]), rest), CharacterList(rest)))
    requires v' == HandleDelete(Taking(v, sid), sid, ListOf(v, sid)[i].name)
    ensures sid in v'.sessions && v'.sessions[sid] == s'
    ensures OnlyTables(v, sid, v', Erased(v.world.social.tables, ListOf(v, sid)[i].name))
  {
    PutTwice(v, sid, Busy(v.sessions[sid]), s');
  }

  /** Deleting a listed character without friends takes exactly it out of account and list, and sends the list. */
  lemma DeletionDeletes(v: Server, sid: nat, data: Text, i: nat) returns (v': Server, rest: seq<Entity>)
    requires LobbyWaits(v, sid) && Sound(v.world.social.tables) && i < |ListOf(v, sid)|
    requires |data| <= BUFFER_SIZE && Begins(data, LobbyFields(Delete(ListOf(v, sid)[i].name)))
    requires FriendsOf(v.world.social.tables.friends, ListOf(v, sid)[i].uid) == {}
    ensures Possible(v, Arrival(sid, data)) && Step(v, Arrival(sid, data)) == Goes(v')
    ensures rest == ListOf(v, sid)[..i] + ListOf(v, sid)[i + 1..]
    ensures OnlyTables(v, sid, v', v'.world.social.tables)
    ensures OneCharacterLess(v.world.social.tables, v'.world.social.tables, AccountAt(v, sid), ListOf(v, sid)[i])
    ensures AnswersWith(v.sessions[sid], v'.sessions[sid], rest, CharacterList(rest))
  {
    var s, t := v.sessions[sid], v.world.social.tables;
    var e := s.current.chars[i];
    WaitingLobby(v, sid);
    FoundIsTheOne(t, s.current.account, s.current.chars, i);
    ReferencedHasFriends(t, e);
    v' := DeleteStep(v, sid, data, e.name);
    rest := s.current.chars[..i] + s.current.chars[i + 1..];
    ErasedOneLess(t, e, s.current.account);
    AnsweredSession(s, rest, CharacterList(rest));
    DeletedServer(v, sid, i, PollAgain(Send(Relisted(Busy(s), rest), CharacterList(rest))), v');
  }

  lemma ErasedOneLess(t: Tables, e: Entity, account: nat)
    requires Sound(t) && e in Owned(t, account) && !Referenced(t, e.name)
    ensures OneCharacterLess(t, Erased(t, e.name), account, e)
  {
    ErasedIsSound(t, e, account);
  }

  /** A name that is not listed, or that of a character with friends: the session is closed, and nothing is deleted. */
  lemma DeletionRefused(v: Server, sid: nat, data: Text, name: Text) returns (v': Server)
    requires LobbyWaits(v, sid) && Sound(v.world.social.tables)
    requires |data| <= BUFFER_SIZE && Begins(data, LobbyFields(Delete(name)))
    requires forall e <- ListOf(v, sid) :: e.name == name ==> FriendsOf(v.world.social.tables.friends, e.uid) != {}
    ensures Possible(v, Arrival(sid, data)) && Step(v, Arrival(sid, data)) == Goes(v')
    ensures OnlyClosed(v, sid, v')
  {
    var s, t := v.sessions[sid], v.world.social.tables;
    WaitingLobby(v, sid);
    v' := DeleteStep(v, sid, data, name);
    var i := Find(s.current.chars, name);
    if i < |s.current.chars| {
      FoundIsTheOne(t, s.current.account, s.current.chars, i);
      ReferencedHasFriends(t, s.current.chars[i]);
    }
    ClosedEitherWay(Busy(s));
    ClosedServer(v, sid, Put(Taking(v, sid), sid, ForceClose(Busy(s))));
  }

  // ---------------------------------------------------------------- Selecting

  lemma SelectStep(v: Server, sid: nat, data: Text, name: Text, friends: seq<Uid>)
    requires LobbyWaits(v, sid) && |data| <= BUFFER_SIZE && Begins(data, LobbyFields(Select(name)))
    requires var i := Find(ListOf(v, sid), name);
             i < |ListOf(v, sid)| ==> Enumerates(friends, NewcomersFriends(v.world.social, ListOf(v, sid)[i].uid))
    ensures Possible(v, Run(sid, 0, Arrives(data, None, friends)))
    ensures Step(v, Run(sid, 0, Arrives(data, None, friends))) == HandleSelect(Taking(v, sid), sid, name, friends)
  {
    LobbyReadsExactly(data, Select(name));
    OnlyTask(v.sessions[sid], 0);
    assert Good(v.world, v.sessions[sid]);
  }

  /** A name that is not listed: the session is closed, with nothing sent. */
  lemma SelectionRefused(v: Server, sid: nat, data: Text, name: Text, friends: seq<Uid>) returns (v': Server)
    requires LobbyWaits(v, sid) && |data| <= BUFFER_SIZE && Begins(data, LobbyFields(Select(name)))
    requires forall e <- ListOf(v, sid) :: e.name != name
    ensures Possible(v, Run(sid, 0, Arrives(data, None, friends)))
    ensures Step(v, Run(sid, 0, Arrives(data, None, friends))) == Goes(v')
    ensures OnlyClosed(v, sid, v')
  {
    assert Find(ListOf(v, sid), name) == |ListOf(v, sid)|;
    SelectStep(v, sid, data, name, friends);
    ClosedEitherWay(Busy(v.sessions[sid]));
    v' := Put(Taking(v, sid), sid, ForceClose(Busy(v.sessions[sid])));
    ClosedServer(v, sid, v');
  }

  /** The session was told of the character and then what the world mailed to it, and is on its way into the world. */
  predicate OnItsWay(s: Session, s': Session, me: Entity, news: seq<Packet>) {
    && s.current.Lobby? && s'.open && s'.closes == s.closes && s'.current == s.current
    && s'.sent == s.sent + [CharacterSelected(me.name)] + news
    && s'.tasks == [RunTransition] && s'.awaiting == Some(Ingame(s.current.account, me))
  }

  /** Selecting a listed character puts exactly this one into the world, and the client hears its name first. */
  lemma SelectionEnters(v: Server, sid: nat, data: Text, i: nat, friends: seq<Uid>) returns (v': Server)
    requires LobbyWaits(v, sid) && Agrees(v.world, v.now) && i < |ListOf(v, sid)|
    requires |data| <= BUFFER_SIZE && Begins(data, LobbyFields(Select(ListOf(v, sid)[i].name)))
    requires Enumerates(friends, NewcomersFriends(v.world.social, ListOf(v, sid)[i].uid))
    ensures var me := ListOf(v, sid)[i];
            && Possible(v, Run(sid, 0, Arrives(data, None, friends)))
            && Step(v, Run(sid, 0, Arrives(data, None, friends))) == Goes(v')
    ensures var me := ListOf(v, sid)[i];
            && me !in v.world.entities && v'.world.entities == v.world.entities + {me}
            && sid in v'.sessions && me.uid in v'.world.social.mail
            && OnItsWay(v.sessions[sid], v'.sessions[sid], me, v'.world.social.mail[me.uid])
  {
    var me := ListOf(v, sid)[i];
    WaitingLobby(v, sid);
    FoundIsTheOne(v.world.social.tables, AccountAt(v, sid), ListOf(v, sid), i);
    SelectStep(v, sid, data, me.name, friends);
    NewcomerCanEnter(v, sid, me, friends);
    v' := EnteredServer(v, sid, me, friends);
  }

  lemma NewcomerCanEnter(v: Server, sid: nat, me: Entity, friends: seq<Uid>)
    requires LobbyWaits(v, sid) && Agrees(v.world, v.now) && me in ListOf(v, sid)
    requires Enumerates(friends, NewcomersFriends(v.world.social, me.uid))
    ensures CanEnter(v.world, me)
  {
    EnteringIsSafe(v, sid, me, friends);
  }

  lemma ChosenIsOnItsWay(s: Session, me: Entity, news: seq<Packet>)
    requires s.open && s.current.Lobby?
    ensures OnItsWay(s, Chosen(Busy(s), s.current.account, me, news), me, news)
  {
  }

  lemma EnteredServer(v: Server, sid: nat, me: Entity, friends: seq<Uid>) returns (v': Server)
    requires LobbyWaits(v, sid) && v.sessions[sid].awaiting.None? && CanEnter(v.world, me)
    requires Enumerates(friends, NewcomersFriends(v.world.social, me.uid))
    requires Find(ListOf(v, sid), me.name) < |ListOf(v, sid)|
    requires ListOf(v, sid)[Find(ListOf(v, sid), me.name)] == me
    ensures HandleSelect(Taking(v, sid), sid, me.name, friends) == Goes(v')
    ensures me !in v.world.entities && v'.world.entities == v.world.entities + {me}
    ensures sid in v'.sessions && me.uid in v'.world.social.mail
    ensures OnItsWay(v.sessions[sid], v'.sessions[sid], me, v'.world.social.mail[me.uid])
  {
    var w := Enter(v.world, me, friends);
    EnterFrame(v.world, me, friends);
    EnteredIsChosen(v, sid, w, me);
    ChosenIsOnItsWay(v.sessions[sid], me, w.social.mail[me.uid]);
    v' := Entered(Put(Taking(v, sid), sid, Send(Busy(v.sessions[sid]), CharacterSelected(me.name))), sid, w, me);
  }

  /** In the world, and waiting for a packet. */
  function InWorld(s: Session, account: nat, me: Entity): Session {
    s.(current := Ingame(account, me), awaiting := None, async := PacketPoll, tasks := [Recv])
  }

  /** Then the transition makes the session one that waits for a packet in the world; nothing else happens. */
  lemma SelectedArrives(v: Server, sid: nat, account: nat, me: Entity)
    requires sid in v.sessions && v.sessions[sid].open && v.sessions[sid].current.Lobby?
    requires v.sessions[sid].tasks == [RunTransition] && v.sessions[sid].awaiting == Some(Ingame(account, me))
    ensures Possible(v, Run(sid, 0, Visits([])))
    ensures Step(v, Run(sid, 0, Visits([]))) == Goes(Put(v, sid, InWorld(v.sessions[sid], account, me)))
  {
    var s := v.sessions[sid];
    assert Taken(s, 0) == Busy(s);
    assert MoveOn(Busy(s).(current := Null)) == InWorld(s, account, me);
    PutTwice(v, sid, Busy(s), Busy(s).(current := Null));
    PutTwice(v, sid, Busy(s).(current := Null), InWorld(s, account, me));
  }
}
