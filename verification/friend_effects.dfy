/** What a request to the friend system brings about, told by names, friendships and what everybody hears. */
module FriendEffects {
  import opened Basics
  import opened Protocol
  import opened Database
  import opened PendingRequests
  import opened Friends

  // ---------------------------------------------------------------- What is heard

  /** `u` heard one packet, nobody heard anything else, and that is all that happened. */
  predicate OnlyTold(s: Social, s': Social, u: Uid, p: Packet) {
    s' == s.(mail := s'.mail) && Gets(s.mail, s'.mail, u, [p]) && NobodyElseGets(s.mail, s'.mail, {u})
  }

  /** The database says that they are friends. */
  predicate AreFriends(s: Social, one: Uid, other: Uid) {
    other in FriendsOf(s.tables.friends, one) && one in FriendsOf(s.tables.friends, other)
  }

  predicate AreStrangers(s: Social, one: Uid, other: Uid) {
    other !in FriendsOf(s.tables.friends, one) && one !in FriendsOf(s.tables.friends, other)
  }

  predicate IsPair(u: Uid, v: Uid, one: Uid, other: Uid) {
    (u == one && v == other) || (u == other && v == one)
  }

  /** All friendships but that of the two are as before: in the rows, in the answers of the database, in the caches. */
  ghost predicate OtherRowsStay(t: Tables, t': Tables, one: Uid, other: Uid) {
    && t'.characters == t.characters && t'.nextId == t.nextId
    && (forall row: FriendRow ::
          !IsPair(row.characterId, row.hisFriendId, one, other) ==> t'.friends[row] == t.friends[row])
    && (forall u: Uid, v: Uid ::
          !IsPair(u, v, one, other) ==> (v in FriendsOf(t'.friends, u) <==> v in FriendsOf(t.friends, u)))
  }

  predicate OtherListsStay(lists: map<Uid, set<Uid>>, lists': map<Uid, set<Uid>>, one: Uid, other: Uid) {
    && lists'.Keys == lists.Keys
    && forall u <- lists ::
         && u in lists'
         && (u != one && u != other ==> lists'[u] == lists[u])
         && (u == one ==> lists'[u] - {other} == lists[u] - {other})
         && (u == other ==> lists'[u] - {one} == lists[u] - {one})
  }

  ghost predicate OtherFriendshipsStay(s: Social, s': Social, one: Uid, other: Uid) {
    && OtherRowsStay(s.tables, s'.tables, one, other)
    && OtherListsStay(s.lists, s'.lists, one, other)
    && s'.registry == s.registry
  }

  lemma ReplyTells(s: Social, me: Entity, p: Packet)
    requires me.uid in s.mail
    ensures OnlyTold(s, Reply(s, me, p), me.uid, p)
  {
  }

  // ---------------------------------------------------------------- Removal

  /** A removal of a friend removes him, on both sides and in the database, tells me, and tells him exactly if he is
      online; nobody else hears anything, and no other friendship changes. */
  lemma RemovalRemoves(s: Social, me: Entity, name: Text, his: Uid, now: int)
    requires Consistent(s, now) && me.uid in s.lists && HasNickname(s.tables, me.uid, me.name)
    requires HasNickname(s.tables, his, name) && his in FriendsOf(s.tables.friends, me.uid)
    ensures var s' := RequestRemove(s, me, name);
            && AreStrangers(s', me.uid, his)
            && OtherFriendshipsStay(s, s', me.uid, his)
            && his !in s'.lists[me.uid] && (his in s.lists ==> me.uid !in s'.lists[his])
            && s'.buffers == s.buffers
    ensures var mail, mail' := s.mail, RequestRemove(s, me, name).mail;
            && Gets(mail, mail', me.uid, [BrokenFriendship(name)])
            && (his in s.lists ==> Gets(mail, mail', his, [BrokenFriendship(me.name)]))
            && NobodyElseGets(mail, mail', if his in s.lists then {me.uid, his} else {me.uid})
  {
    SoundIsCanonical(s.tables);
    assert his != INVALID_ID && ViewAgrees(s, me.uid);
    UidOfIsExact(s.tables, his, name);
    RemovalIsBreak(s, me, name, his);
    BreakEnds(s, me, Entity(his, name));
    BreakTells(s, me, Entity(his, name));
  }

  lemma RemovalIsBreak(s: Social, me: Entity, name: Text, his: Uid)
    requires me.uid in s.lists && his in s.lists[me.uid] && UidOf(s.tables, name) == his && his != INVALID_ID
    ensures RequestRemove(s, me, name) == Break(s, me, Entity(his, name))
  {
  }

  lemma BreakTells(s: Social, me: Entity, target: Entity)
    requires me.uid in s.lists && me.uid != target.uid && s.lists.Keys <= s.mail.Keys
    ensures var mail, mail' := s.mail, Break(s, me, target).mail;
            && Gets(mail, mail', me.uid, [BrokenFriendship(target.name)])
            && (target.uid in s.lists ==> Gets(mail, mail', target.uid, [BrokenFriendship(me.name)]))
            && NobodyElseGets(mail, mail', if target.uid in s.lists then {me.uid, target.uid} else {me.uid})
  {
  }

  lemma RowsAfterRemoval(t: Tables, one: Uid, other: Uid, t': Tables)
    requires Canonical(t.friends) && one != other && t' == t.(friends := RowsWithout(t.friends, one, other))
    ensures OtherRowsStay(t, t', one, other)
    ensures other !in FriendsOf(t'.friends, one) && one !in FriendsOf(t'.friends, other)
  {
    forall u: Uid, v: Uid
      ensures v in FriendsOf(t'.friends, u) <==> v in FriendsOf(t.friends, u) && !IsPair(u, v, one, other)
    {
      LookupAfterRemove(t.friends, one, other, u);
    }
  }

  lemma BreakEnds(s: Social, me: Entity, target: Entity)
    requires Canonical(s.tables.friends) && me.uid in s.lists && me.uid != target.uid
    ensures var s' := Break(s, me, target);
            && AreStrangers(s', me.uid, target.uid)
            && OtherFriendshipsStay(s, s', me.uid, target.uid)
            && target.uid !in s'.lists[me.uid] && (target.uid in s.lists ==> me.uid !in s'.lists[target.uid])
            && s'.buffers == s.buffers
  {
    RowsAfterRemoval(s.tables, target.uid, me.uid, Break(s, me, target).tables);
    SwapPair(s.tables, Break(s, me, target).tables, target.uid, me.uid);
  }

  lemma SwapPair(t: Tables, t': Tables, one: Uid, other: Uid)
    requires OtherRowsStay(t, t', one, other)
    ensures OtherRowsStay(t, t', other, one)
  {
    forall row: FriendRow
      ensures IsPair(row.characterId, row.hisFriendId, one, other)
           == IsPair(row.characterId, row.hisFriendId, other, one)
    {
    }
  }

  /** If no friend of mine has that name, I am told so, and nothing else happens. */
  lemma RemovalRefused(s: Social, me: Entity, name: Text, now: int)
    requires Consistent(s, now) && me.uid in s.lists
    requires forall v :: HasNickname(s.tables, v, name) ==> v !in FriendsOf(s.tables.friends, me.uid)
    ensures OnlyTold(s, RequestRemove(s, me, name), me.uid, FriendRemovalFail(name))
  {
    assert ViewAgrees(s, me.uid);
    ReplyTells(s, me, FriendRemovalFail(name));
  }

  // ---------------------------------------------------------------- Refused requests

  /** A name that no user in the world has. */
  lemma AddOffline(s: Social, me: Entity, name: Text, now: int)
    requires Consistent(s, now) && RegistryAgrees(s) && me.uid in s.lists
    requires forall u <- s.lists :: !HasNickname(s.tables, u, name)
    ensures CanRequest(s, me, name)
    ensures OnlyTold(s, RequestAdd(s, me, name, now), me.uid, FriendAddFail(PlayerNotOnline, name))
  {
    assert ViewAgrees(s, me.uid);
    if name in s.registry.byName {
      var his := s.registry.byName[name];
      assert HasNickname(s.tables, his.uid, name);
    }
    ReplyTells(s, me, FriendAddFail(PlayerNotOnline, name));
  }

  /** Who has a name in the world is found by it. */
  lemma FoundByName(s: Social, u: Uid, name: Text)
    requires RegistryAgrees(s) && UniqueNicknames(s.tables.characters) && u in s.lists && HasNickname(s.tables, u, name)
    ensures name in s.registry.byName && s.registry.byName[name] == Entity(u, name)
  {
    var e := s.registry.byId[u];
    assert e.uid == u && e.name == name && s.registry.byName[e.name] == e;
  }

  /** My own name. */
  lemma AddMyself(s: Social, me: Entity, now: int)
    requires Consistent(s, now) && RegistryAgrees(s) && me.uid in s.lists && HasNickname(s.tables, me.uid, me.name)
    ensures CanRequest(s, me, me.name)
    ensures OnlyTold(s, RequestAdd(s, me, me.name, now), me.uid, FriendAddFail(CannotInviteSelf, me.name))
  {
    assert ViewAgrees(s, me.uid);
    FoundByName(s, me.uid, me.name);
    ReplyTells(s, me, FriendAddFail(CannotInviteSelf, me.name));
  }

  /** A friend who is online. */
  lemma AddFriend(s: Social, me: Entity, name: Text, his: Uid, now: int)
    requires Consistent(s, now) && RegistryAgrees(s) && me.uid in s.lists
    requires his in s.lists && HasNickname(s.tables, his, name) && his in FriendsOf(s.tables.friends, me.uid)
    ensures CanRequest(s, me, name)
    ensures OnlyTold(s, RequestAdd(s, me, name, now), me.uid, FriendAddFail(AlreadyFriends, name))
  {
    assert ViewAgrees(s, me.uid);
    SoundIsCanonical(s.tables);
    FoundByName(s, his, name);
    ReplyTells(s, me, FriendAddFail(AlreadyFriends, name));
  }

  // ---------------------------------------------------------------- Requests that go through

  /** Somebody else in the world who is not a friend, under his name. */
  ghost predicate Invitable(s: Social, me: Entity, his: Entity) {
    && me.uid in s.lists && HasNickname(s.tables, me.uid, me.name)
    && his.uid in s.lists && HasNickname(s.tables, his.uid, his.name)
    && his.uid != me.uid && his.uid !in FriendsOf(s.tables.friends, me.uid)
  }

  /** Requests between others are live exactly as before. */
  ghost predicate OtherRequestsStay(b: Buffers, b': Buffers, one: Uid, other: Uid, now: int) {
    forall q: Request :: !IsPair(q.sender, q.recipient, one, other) ==> (Live(b', q, now) <==> Live(b, q, now))
  }

  lemma ProcessConcernsPair(b: Buffers, one: Uid, other: Uid, now: int)
    ensures OtherRequestsStay(b, Process(b, Request(one, other), now), one, other, now)
  {
  }

  lemma InvitedByName(s: Social, me: Entity, his: Entity, now: int)
    requires Consistent(s, now) && RegistryAgrees(s) && Invitable(s, me, his)
    ensures CanRequest(s, me, his.name) && his.uid !in s.lists[me.uid]
    ensures RequestAdd(s, me, his.name, now) == Invite(s, me, his, now)
    ensures s.lists.Keys <= s.mail.Keys
  {
    FoundByName(s, his.uid, his.name);
    forall u <- s.lists
      ensures u in s.mail
    {
      assert ViewAgrees(s, u);
    }
  }

  /** He has a live request to me: we become friends on both sides and in the database, each of us is told, no request
      between us is left, and nothing else changes. */
  lemma AddAnswers(s: Social, me: Entity, his: Entity, now: int)
    requires Consistent(s, now) && RegistryAgrees(s) && Invitable(s, me, his)
    requires Live(s.buffers, Request(his.uid, me.uid), now)
    ensures CanRequest(s, me, his.name)
    ensures var s' := RequestAdd(s, me, his.name, now);
            && AreFriends(s', me.uid, his.uid) && OtherFriendshipsStay(s, s', me.uid, his.uid)
            && his.uid in s'.lists[me.uid] && me.uid in s'.lists[his.uid]
            && !Live(s'.buffers, Request(me.uid, his.uid), now) && !Live(s'.buffers, Request(his.uid, me.uid), now)
            && OtherRequestsStay(s.buffers, s'.buffers, me.uid, his.uid, now)
            && Gets(s.mail, s'.mail, me.uid, [NewFriendship(his.name)])
            && Gets(s.mail, s'.mail, his.uid, [NewFriendship(me.name)])
            && NobodyElseGets(s.mail, s'.mail, {me.uid, his.uid})
  {
    InvitedByName(s, me, his, now);
    SoundIsCanonical(s.tables);
    LiveAnswer(s, me.uid, his.uid, now);
    AnswerBefriends(s, me, his, now);
    BefriendJoins(s.(buffers := Process(s.buffers, Request(me.uid, his.uid), now)), me, his);
    ProcessConcernsPair(s.buffers, me.uid, his.uid, now);
  }

  lemma AnswerBefriends(s: Social, me: Entity, his: Entity, now: int)
    requires me.uid in s.lists && his.uid in s.lists && Live(s.buffers, Request(his.uid, me.uid), now)
    ensures Invite(s, me, his, now)
         == Befriend(s.(buffers := Process(s.buffers, Request(me.uid, his.uid), now)), me, his)
  {
    assert Reverse(Request(me.uid, his.uid)) == Request(his.uid, me.uid);
  }

  /** The answer uses the one live copy up; my own request was not live beside it. */
  lemma LiveAnswer(s: Social, mine: Uid, his: Uid, now: int)
    requires Exclusive(s, now) && Live(s.buffers, Request(his, mine), now) && mine != his
    ensures var b := Process(s.buffers, Request(mine, his), now);
            !Live(b, Request(mine, his), now) && !Live(b, Request(his, mine), now)
  {
    assert Reverse(Request(mine, his)) == Request(his, mine) && Reverse(Request(his, mine)) == Request(mine, his);
    assert OneCopy(s.buffers, Request(his, mine), now);
  }

  lemma RowsAfterMaking(t: Tables, one: Uid, other: Uid, t': Tables)
    requires Canonical(t.friends) && t' == t.(friends := RowsWith(t.friends, one, other))
    ensures OtherRowsStay(t, t', one, other)
    ensures other in FriendsOf(t'.friends, one) && one in FriendsOf(t'.friends, other)
  {
    forall u: Uid, v: Uid
      ensures v in FriendsOf(t'.friends, u) <==> v in FriendsOf(t.friends, u) || IsPair(u, v, one, other)
    {
      LookupAfterMake(t.friends, one, other, u);
    }
  }

  lemma BefriendJoins(s: Social, me: Entity, his: Entity)
    requires Canonical(s.tables.friends) && me.uid in s.lists && his.uid in s.lists && me.uid != his.uid
    requires s.lists.Keys <= s.mail.Keys
    ensures var s' := Befriend(s, me, his);
            && AreFriends(s', me.uid, his.uid) && OtherFriendshipsStay(s, s', me.uid, his.uid)
            && his.uid in s'.lists[me.uid] && me.uid in s'.lists[his.uid] && s'.buffers == s.buffers
            && Gets(s.mail, s'.mail, me.uid, [NewFriendship(his.name)])
            && Gets(s.mail, s'.mail, his.uid, [NewFriendship(me.name)])
            && NobodyElseGets(s.mail, s'.mail, {me.uid, his.uid})
  {
    RowsAfterMaking(s.tables, his.uid, me.uid, Befriend(s, me, his).tables);
    SwapPair(s.tables, Befriend(s, me, his).tables, his.uid, me.uid);
  }

  /** My own request is still live, and his is not: I am told that it waits, and it is withdrawn. */
  lemma AddAgain(s: Social, me: Entity, his: Entity, now: int)
    requires Consistent(s, now) && RegistryAgrees(s) && Invitable(s, me, his)
    requires Live(s.buffers, Request(me.uid, his.uid), now)
    ensures CanRequest(s, me, his.name)
    ensures var s' := RequestAdd(s, me, his.name, now);
            && s' == s.(mail := s'.mail, buffers := s'.buffers)
            && !Live(s'.buffers, Request(me.uid, his.uid), now) && !Live(s'.buffers, Request(his.uid, me.uid), now)
            && OtherRequestsStay(s.buffers, s'.buffers, me.uid, his.uid, now)
            && Gets(s.mail, s'.mail, me.uid, [FriendAddResult(PreviousStillWaiting, his.name)])
            && NobodyElseGets(s.mail, s'.mail, {me.uid})
  {
    InvitedByName(s, me, his, now);
    OnlyOneWaits(s, me.uid, his.uid, now);
    InviteWithdraws(s, me, his, now);
  }

  lemma OnlyOneWaits(s: Social, mine: Uid, his: Uid, now: int)
    requires Exclusive(s, now) && Live(s.buffers, Request(mine, his), now)
    ensures !Live(s.buffers, Request(his, mine), now) && OneCopy(s.buffers, Request(mine, his), now)
  {
    assert Reverse(Request(mine, his)) == Request(his, mine);
  }

  lemma InviteWithdraws(s: Social, me: Entity, his: Entity, now: int)
    requires me.uid in s.lists && his.uid in s.lists && me.uid in s.mail && me.uid != his.uid
    requires Live(s.buffers, Request(me.uid, his.uid), now) && !Live(s.buffers, Request(his.uid, me.uid), now)
    requires OneCopy(s.buffers, Request(me.uid, his.uid), now)
    ensures var s' := Invite(s, me, his, now);
            && s' == s.(mail := s'.mail, buffers := s'.buffers)
            && !Live(s'.buffers, Request(me.uid, his.uid), now) && !Live(s'.buffers, Request(his.uid, me.uid), now)
            && OtherRequestsStay(s.buffers, s'.buffers, me.uid, his.uid, now)
            && Gets(s.mail, s'.mail, me.uid, [FriendAddResult(PreviousStillWaiting, his.name)])
            && NobodyElseGets(s.mail, s'.mail, {me.uid})
  {
    assert Reverse(Request(me.uid, his.uid)) == Request(his.uid, me.uid);
    ProcessConcernsPair(s.buffers, me.uid, his.uid, now);
  }

  /** Nothing waits between us: he is asked, I am told so, and the request is live from now on. */
  lemma AddAsks(s: Social, me: Entity, his: Entity, now: int)
    requires Consistent(s, now) && RegistryAgrees(s) && Invitable(s, me, his)
    requires !Live(s.buffers, Request(me.uid, his.uid), now) && !Live(s.buffers, Request(his.uid, me.uid), now)
    ensures CanRequest(s, me, his.name)
    ensures var s' := RequestAdd(s, me, his.name, now);
            && s' == s.(mail := s'.mail, buffers := s'.buffers)
            && Live(s'.buffers, Request(me.uid, his.uid), now) && !Live(s'.buffers, Request(his.uid, me.uid), now)
            && OtherRequestsStay(s.buffers, s'.buffers, me.uid, his.uid, now)
            && Gets(s.mail, s'.mail, his.uid, [FriendshipRequest(me.name)])
            && Gets(s.mail, s'.mail, me.uid, [FriendAddResult(SentSuccesfully, his.name)])
            && NobodyElseGets(s.mail, s'.mail, {me.uid, his.uid})
  {
    InvitedByName(s, me, his, now);
    InviteAsks(s, me, his, now);
  }

  lemma InviteAsks(s: Social, me: Entity, his: Entity, now: int)
    requires me.uid in s.lists && his.uid in s.lists && me.uid in s.mail && his.uid in s.mail && me.uid != his.uid
    requires !Live(s.buffers, Request(me.uid, his.uid), now) && !Live(s.buffers, Request(his.uid, me.uid), now)
    ensures var s' := Invite(s, me, his, now);
            && s' == s.(mail := s'.mail, buffers := s'.buffers)
            && Live(s'.buffers, Request(me.uid, his.uid), now) && !Live(s'.buffers, Request(his.uid, me.uid), now)
            && OtherRequestsStay(s.buffers, s'.buffers, me.uid, his.uid, now)
            && Gets(s.mail, s'.mail, his.uid, [FriendshipRequest(me.name)])
            && Gets(s.mail, s'.mail, me.uid, [FriendAddResult(SentSuccesfully, his.name)])
            && NobodyElseGets(s.mail, s'.mail, {me.uid, his.uid})
  {
    assert Reverse(Request(me.uid, his.uid)) == Request(his.uid, me.uid);
    ProcessConcernsPair(s.buffers, me.uid, his.uid, now);
  }
}
