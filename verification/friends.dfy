/** The friend system as a function on its state, and what it keeps true. */
module Friends {
  import opened Basics
  import opened Protocol
  import opened Database
  import opened PendingRequests
  import opened WorldRegistrar

  /** Everything the friend system reads or writes.  `lists` is its cache: the friend ids of every
      registered user. */
  datatype Social = Social(registry: Registry, tables: Tables, lists: map<Uid, set<Uid>>, buffers: Buffers, mail: Mail)

  function OnlineFriends(s: Social, u: Uid): set<Uid>
    requires u in s.lists
  {
    s.lists[u] * s.lists.Keys
  }

  function NewcomersFriends(s: Social, u: Uid): set<Uid> {
    FriendsOf(s.tables.friends, u) * s.lists.Keys
  }

  // ---------------------------------------------------------------- Operations

  /** The entity lookup in the loop of register_me finds every friend. */
  predicate CanRegister(s: Social, me: Entity) {
    && me.uid !in s.lists
    && me.uid in s.mail
    && (forall f <- NewcomersFriends(s, me.uid) :: f in s.registry.byId && f in s.mail)
  }

  /** The packets that tell a newcomer which friends are there, in the order of the iteration. */
  function Greetings(r: Registry, order: seq<Uid>): seq<Packet>
    requires forall f <- order :: f in r.byId
  {
    seq(|order|, i requires 0 <= i < |order| => FriendOnlineWhileYouLogin(r.byId[order[i]].name))
  }

  function Register(s: Social, me: Entity, order: seq<Uid>): Social
    requires CanRegister(s, me) && Enumerates(order, NewcomersFriends(s, me.uid))
  {
    var mail := Deliver(s.mail, NewcomersFriends(s, me.uid), FriendLogin(me.name));
    s.(lists := s.lists[me.uid := FriendsOf(s.tables.friends, me.uid)],
       mail := mail[me.uid := mail[me.uid] + Greetings(s.registry, order)])
  }

  function Unregister(s: Social, me: Entity): Social
    requires me.uid in s.lists
  {
    s.(lists := s.lists - {me.uid},
       mail := Deliver(s.mail, OnlineFriends(s, me.uid), FriendLeave(me.name)))
  }

  /** The assert of process_req_friend_add: who is in the registrar is registered here. */
  predicate CanRequest(s: Social, me: Entity, name: Text) {
    && me.uid in s.lists
    && (name in s.registry.byName ==> s.registry.byName[name].uid in s.lists)
  }

  function Reply(s: Social, me: Entity, p: Packet): Social {
    s.(mail := Tell(s.mail, me.uid, p))
  }

  function RequestAdd(s: Social, me: Entity, name: Text, now: int): Social
    requires CanRequest(s, me, name)
  {
    if name !in s.registry.byName then Reply(s, me, FriendAddFail(PlayerNotOnline, name))
    else
      var target := s.registry.byName[name];
      if target.uid == me.uid then Reply(s, me, FriendAddFail(CannotInviteSelf, name))
      else if target.uid in s.lists[me.uid] then Reply(s, me, FriendAddFail(AlreadyFriends, name))
      else Invite(s, me, target, now)
  }

  /** The part of a request that goes through the buffer of waiting requests. */
  function Invite(s: Social, me: Entity, target: Entity, now: int): Social
    requires me.uid in s.lists && target.uid in s.lists
  {
    var request := Request(me.uid, target.uid);
    var s1 := s.(buffers := Process(s.buffers, request, now));
    match AnswerTo(s.buffers, request, now)
    case AlreadyInBuffer => Reply(s1, me, FriendAddResult(PreviousStillWaiting, target.name))
    case SuccesfullyAdded => Forwarded(s1, me, target)
    case ThatWasAMatch => Befriend(s1, me, target)
  }

  function Forwarded(s: Social, me: Entity, target: Entity): Social {
    Reply(Reply(s, target, FriendshipRequest(me.name)), me, FriendAddResult(SentSuccesfully, target.name))
  }

  function Befriend(s: Social, me: Entity, target: Entity): Social
    requires me.uid in s.lists && target.uid in s.lists
  {
    Reply(Reply(s, me, NewFriendship(target.name)), target, NewFriendship(me.name))
      .(lists := s.lists[me.uid := s.lists[me.uid] + {target.uid}][target.uid := s.lists[target.uid] + {me.uid}],
        tables := s.tables.(friends := RowsWith(s.tables.friends, target.uid, me.uid)))
  }

  ghost function RequestRemove(s: Social, me: Entity, name: Text): Social
    requires me.uid in s.lists
  {
    var target := UidOf(s.tables, name);
    if target == INVALID_ID || target !in s.lists[me.uid] then Reply(s, me, FriendRemovalFail(name))
    else Break(s, me, Entity(target, name))
  }

  /** The former friend hears of it, and forgets me, only when he is registered. */
  function Break(s: Social, me: Entity, target: Entity): Social
    requires me.uid in s.lists
  {
    var mine := s.lists[me.uid := s.lists[me.uid] - {target.uid}];
    var s1 := Reply(s, me, BrokenFriendship(target.name))
                .(tables := s.tables.(friends := RowsWithout(s.tables.friends, target.uid, me.uid)));
    if target.uid in s.lists then
      Reply(s1, target, BrokenFriendship(me.name)).(lists := mine[target.uid := mine[target.uid] - {me.uid}])
    else
      s1.(lists := mine)
  }

  // ---------------------------------------------------------------- The client's view

  /** What a client that listens to the notifications believes: the names of his friends who are online. */
  function Replay(log: seq<Packet>): set<Text> {
    if |log| == 0 then {} else ReplayStep(Replay(log[..|log| - 1]), log[|log| - 1])
  }

  function ReplayStep(view: set<Text>, p: Packet): set<Text> {
    match p
    case FriendOnlineWhileYouLogin(nick) => view + {nick}
    case FriendLogin(nick) => view + {nick}
    case NewFriendship(nick) => view + {nick}
    case FriendLeave(nick) => view - {nick}
    case BrokenFriendship(nick) => view - {nick}
    case _ => view
  }

  lemma ReplayOne(log: seq<Packet>, p: Packet)
    ensures Replay(log + [p]) == ReplayStep(Replay(log), p)
  {
    assert (log + [p])[..|log|] == log;
  }

  type Characters = map<Uid, CharacterRow>

  function Names(t: Characters, ids: set<Uid>): set<Text> {
    set v <- ids | v in t :: t[v].nickname
  }

  predicate Announces(p: Packet, nick: Text) {
    p == FriendOnlineWhileYouLogin(nick) || p == FriendLogin(nick) || p == NewFriendship(nick)
  }

  predicate Retracts(p: Packet, nick: Text) {
    p == FriendLeave(nick) || p == BrokenFriendship(nick)
  }

  predicate IsNotification(p: Packet) {
    p.FriendOnlineWhileYouLogin? || p.FriendLogin? || p.NewFriendship? || p.FriendLeave? || p.BrokenFriendship?
  }

  lemma ViewGains(t: Characters, log: seq<Packet>, p: Packet, ids: set<Uid>, v: Uid, ids': set<Uid>)
    requires Replay(log) == Names(t, ids)
    requires v in t && Announces(p, t[v].nickname) && ids' == ids + {v}
    ensures Replay(log + [p]) == Names(t, ids')
  {
    ReplayOne(log, p);
    assert Names(t, ids + {v}) == Names(t, ids) + {t[v].nickname};
  }

  /** Taking the name away takes away this friend and no other, because nicknames are unique. */
  lemma ViewLoses(t: Characters, log: seq<Packet>, p: Packet, ids: set<Uid>, v: Uid, ids': set<Uid>)
    requires Replay(log) == Names(t, ids) && UniqueNicknames(t)
    requires v in t && Retracts(p, t[v].nickname) && ids' == ids - {v}
    ensures Replay(log + [p]) == Names(t, ids')
  {
    ReplayOne(log, p);
    assert Names(t, ids - {v}) == Names(t, ids) - {t[v].nickname};
  }

  lemma SameNames(t: Characters, t': Characters, ids: set<Uid>)
    requires forall u <- ids :: u in t && u in t' && t[u] == t'[u]
    ensures Names(t, ids) == Names(t', ids)
  {
  }

  // ---------------------------------------------------------------- Invariants

  /** The cache of every registered user is the database's answer for him. */
  ghost predicate CacheAgrees(s: Social) {
    forall u <- s.lists :: u in s.tables.characters && s.lists[u] == FriendsOf(s.tables.friends, u)
  }

  /** The notifications sent to `u` replay to the names of his friends who are online. */
  ghost predicate ViewAgrees(s: Social, u: Uid)
    requires u in s.lists
  {
    u in s.mail && Replay(s.mail[u]) == Names(s.tables.characters, OnlineFriends(s, u))
  }

  ghost predicate ReplayAgrees(s: Social) {
    forall u <- s.lists :: ViewAgrees(s, u)
  }

  /** Friendship and waiting requests exclude each other, and so do requests in both directions. */
  ghost predicate Exclusive(s: Social, now: int) {
    && (forall r | Live(s.buffers, r, now) :: RowOf(r.sender, r.recipient) !in s.tables.friends)
    && (forall r | Live(s.buffers, r, now) :: !Live(s.buffers, Reverse(r), now))
    && (forall r :: OneCopy(s.buffers, r, now))
  }

  ghost predicate Consistent(s: Social, now: int) {
    Sound(s.tables) && CacheAgrees(s) && ReplayAgrees(s) && Exclusive(s, now)
  }

  /** The registrar and the friend system know the same users, by the names of the database. */
  ghost predicate RegistryAgrees(s: Social) {
    && Indexed(s.registry)
    && s.registry.byId.Keys == s.lists.Keys
    && (forall u <- s.registry.byId ::
          u in s.tables.characters && s.registry.byId[u].name == s.tables.characters[u].nickname)
  }

  lemma SoundIsCanonical(t: Tables)
    requires Sound(t)
    ensures Canonical(t.friends)
    ensures forall u :: u !in FriendsOf(t.friends, u)
  {
  }

  /** Between two users in the world the caches are symmetric. */
  lemma CacheIsSymmetric(s: Social, u: Uid, v: Uid)
    requires Sound(s.tables) && CacheAgrees(s) && u in s.lists && v in s.lists
    ensures v in s.lists[u] <==> u in s.lists[v]
    ensures u !in s.lists[u]
  {
    LookupFindsRow(s.tables.friends, u, v);
    LookupFindsRow(s.tables.friends, v, u);
  }

  // ---------------------------------------------------------------- Login

  function Elements(order: seq<Uid>): set<Uid> {
    set f <- order
  }

  lemma {:induction false} ReplayGreetings(r: Registry, order: seq<Uid>, t: Characters)
    requires forall f <- order :: f in r.byId && f in t && r.byId[f].name == t[f].nickname
    ensures Replay(Greetings(r, order)) == Names(t, Elements(order))
    decreases |order|
  {
    if order == [] {
      assert Names(t, Elements(order)) == {};
    } else {
      var init, f := order[..|order| - 1], order[|order| - 1];
      assert order == init + [f];
      ReplayGreetings(r, init, t);
      ViewGains(t, Greetings(r, init), FriendOnlineWhileYouLogin(r.byId[f].name), Elements(init), f, Elements(order));
      assert Greetings(r, order) == Greetings(r, init) + [FriendOnlineWhileYouLogin(r.byId[f].name)];
    }
  }

  lemma RegisterMyView(s: Social, me: Entity, order: seq<Uid>)
    requires RegistryAgrees(s) && CanRegister(s, me) && s.mail[me.uid] == []
    requires Enumerates(order, NewcomersFriends(s, me.uid)) && me.uid !in FriendsOf(s.tables.friends, me.uid)
    ensures ViewAgrees(Register(s, me, order), me.uid)
  {
    var s' := Register(s, me, order);
    ReplayGreetings(s.registry, order, s.tables.characters);
    assert s'.mail[me.uid] == Greetings(s.registry, order);
    assert Elements(order) == OnlineFriends(s', me.uid);
  }

  lemma RegisterHisView(s: Social, me: Entity, order: seq<Uid>, u: Uid)
    requires CanRegister(s, me) && Enumerates(order, NewcomersFriends(s, me.uid))
    requires HasNickname(s.tables, me.uid, me.name)
    requires u in s.lists && ViewAgrees(s, u)
    requires u in NewcomersFriends(s, me.uid) <==> me.uid in s.lists[u]
    ensures ViewAgrees(Register(s, me, order), u)
  {
    var s' := Register(s, me, order);
    if u in NewcomersFriends(s, me.uid) {
      assert s'.mail[u] == s.mail[u] + [FriendLogin(me.name)];
      ViewGains(s.tables.characters, s.mail[u], FriendLogin(me.name), OnlineFriends(s, u), me.uid,
                OnlineFriends(s', u));
    } else {
      assert s'.mail[u] == s.mail[u];
      assert OnlineFriends(s', u) == OnlineFriends(s, u);
    }
  }

  lemma CanRegisterNow(s: Social, me: Entity)
    requires RegistryAgrees(s) && ReplayAgrees(s) && me.uid !in s.lists && me.uid in s.mail
    ensures CanRegister(s, me)
  {
    forall f <- NewcomersFriends(s, me.uid)
      ensures f in s.registry.byId && f in s.mail
    {
      assert f in s.lists && ViewAgrees(s, f);
    }
  }

  lemma RegisterIsConsistent(s: Social, me: Entity, order: seq<Uid>, now: int)
    requires Consistent(s, now) && RegistryAgrees(s)
    requires HasNickname(s.tables, me.uid, me.name)
    requires me.uid !in s.lists && me.uid in s.mail && s.mail[me.uid] == []
    requires Enumerates(order, NewcomersFriends(s, me.uid))
    ensures CanRegister(s, me) && Consistent(Register(s, me, order), now)
  {
    CanRegisterNow(s, me);
    var s' := Register(s, me, order);
    SoundIsCanonical(s.tables);
    forall u <- s'.lists
      ensures ViewAgrees(s', u)
    {
      if u == me.uid {
        RegisterMyView(s, me, order);
      } else {
        LookupFindsRow(s.tables.friends, u, me.uid);
        LookupFindsRow(s.tables.friends, me.uid, u);
        RegisterHisView(s, me, order, u);
      }
    }
  }

  // ---------------------------------------------------------------- Logout

  lemma UnregisterView(s: Social, me: Entity, u: Uid)
    requires UniqueNicknames(s.tables.characters) && HasNickname(s.tables, me.uid, me.name)
    requires me.uid in s.lists && u in s.lists && u != me.uid && ViewAgrees(s, u)
    requires u in s.lists[me.uid] <==> me.uid in s.lists[u]
    ensures ViewAgrees(Unregister(s, me), u)
  {
    var s' := Unregister(s, me);
    if u in s.lists[me.uid] {
      assert s'.mail[u] == s.mail[u] + [FriendLeave(me.name)];
      ViewLoses(s.tables.characters, s.mail[u], FriendLeave(me.name), OnlineFriends(s, u), me.uid,
                OnlineFriends(s', u));
    } else {
      assert s'.mail[u] == s.mail[u];
      assert OnlineFriends(s', u) == OnlineFriends(s, u);
    }
  }

  lemma UnregisterIsConsistent(s: Social, me: Entity, now: int)
    requires Consistent(s, now) && me.uid in s.lists && HasNickname(s.tables, me.uid, me.name)
    ensures Consistent(Unregister(s, me), now)
  {
    forall u <- s.lists | u != me.uid
      ensures ViewAgrees(Unregister(s, me), u)
    {
      CacheIsSymmetric(s, u, me.uid);
      UnregisterView(s, me, u);
    }
  }

  // ---------------------------------------------------------------- Requests

  /** A packet that is no notification about a friend leaves the client's view alone. */
  lemma ReplyIsConsistent(s: Social, me: Entity, p: Packet, now: int)
    requires Consistent(s, now) && !IsNotification(p)
    ensures Consistent(Reply(s, me, p), now)
  {
    var s' := Reply(s, me, p);
    forall v <- s.lists
      ensures ViewAgrees(s', v)
    {
      assert ViewAgrees(s, v);
      ReplayOne(s.mail[v], p);
      assert OnlineFriends(s', v) == OnlineFriends(s, v);
    }
  }

  ghost predicate CanBefriend(s: Social, me: Entity, target: Entity) {
    && me.uid in s.lists && target.uid in s.lists && target.uid != me.uid
    && HasNickname(s.tables, me.uid, me.name) && HasNickname(s.tables, target.uid, target.name)
  }

  lemma BefriendView(s: Social, me: Entity, target: Entity, u: Uid)
    requires CanBefriend(s, me, target) && u in s.lists && ViewAgrees(s, u)
    ensures ViewAgrees(Befriend(s, me, target), u)
  {
    var s' := Befriend(s, me, target);
    if u == me.uid {
      assert s'.mail[u] == s.mail[u] + [NewFriendship(target.name)];
      ViewGains(s.tables.characters, s.mail[u], NewFriendship(target.name), OnlineFriends(s, u), target.uid,
                OnlineFriends(s', u));
    } else if u == target.uid {
      assert s'.mail[u] == s.mail[u] + [NewFriendship(me.name)];
      ViewGains(s.tables.characters, s.mail[u], NewFriendship(me.name), OnlineFriends(s, u), me.uid,
                OnlineFriends(s', u));
    } else {
      assert s'.mail[u] == s.mail[u];
      assert OnlineFriends(s', u) == OnlineFriends(s, u);
    }
  }

  lemma BefriendCache(s: Social, me: Entity, target: Entity)
    requires Canonical(s.tables.friends) && CacheAgrees(s) && CanBefriend(s, me, target)
    ensures CacheAgrees(Befriend(s, me, target))
  {
    var s' := Befriend(s, me, target);
    forall u <- s.lists
      ensures s'.lists[u] == FriendsOf(s'.tables.friends, u)
    {
      LookupAfterMake(s.tables.friends, target.uid, me.uid, u);
    }
  }

  /** No duplicate row appears, although the schema would allow it. */
  lemma NewRowIsSound(t: Tables, one: Uid, other: Uid)
    requires Sound(t) && one != other && one in t.characters && other in t.characters
    requires RowOf(one, other) !in t.friends
    ensures Sound(t.(friends := RowsWith(t.friends, one, other)))
  {
    var rows := RowsWith(t.friends, one, other);
    forall row <- rows
      ensures row in t.friends || row == RowOf(one, other)
    {
    }
  }

  lemma ProcessIsExclusive(s: Social, r: Request, now: int)
    requires Exclusive(s, now) && r.sender != r.recipient
    requires RowOf(r.sender, r.recipient) !in s.tables.friends
    requires AnswerTo(s.buffers, r, now) != ThatWasAMatch
    ensures Exclusive(s.(buffers := Process(s.buffers, r, now)), now)
  {
    var b := Process(s.buffers, r, now);
    forall q
      ensures OneCopy(b, q, now)
    {
      assert OneCopy(s.buffers, q, now);
    }
  }

  /** A match ends the request that it answers, so the new friends have none left in either direction. */
  lemma MatchIsExclusive(s: Social, r: Request, now: int)
    requires Exclusive(s, now) && r.sender != r.recipient && RowOf(r.sender, r.recipient) !in s.tables.friends
    requires AnswerTo(s.buffers, r, now) == ThatWasAMatch
    ensures var friends := RowsWith(s.tables.friends, r.recipient, r.sender);
            Exclusive(s.(buffers := Process(s.buffers, r, now), tables := s.tables.(friends := friends)), now)
  {
    var b := Process(s.buffers, r, now);
    forall q | Live(b, q, now)
      ensures Live(s.buffers, q, now) && q != r && q != Reverse(r)
    {
      assert OneCopy(s.buffers, Reverse(r), now);
    }
    forall q
      ensures OneCopy(b, q, now)
    {
      assert OneCopy(s.buffers, q, now);
    }
  }

  lemma MatchIsConsistent(s: Social, me: Entity, target: Entity, now: int)
    requires Consistent(s, now) && CanBefriend(s, me, target) && target.uid !in s.lists[me.uid]
    requires AnswerTo(s.buffers, Request(me.uid, target.uid), now) == ThatWasAMatch
    ensures Consistent(Invite(s, me, target, now), now)
  {
    var request := Request(me.uid, target.uid);
    var s1 := s.(buffers := Process(s.buffers, request, now));
    var s' := Befriend(s1, me, target);
    SoundIsCanonical(s.tables);
    LookupFindsRow(s.tables.friends, me.uid, target.uid);
    NewRowIsSound(s.tables, target.uid, me.uid);
    BefriendCache(s1, me, target);
    MatchIsExclusive(s, request, now);
    assert Exclusive(s', now);
    BuffersKeepReplay(s, s1);
    BefriendReplay(s1, me, target);
  }

  lemma BefriendReplay(s: Social, me: Entity, target: Entity)
    requires ReplayAgrees(s) && CanBefriend(s, me, target)
    ensures ReplayAgrees(Befriend(s, me, target))
  {
    forall u <- s.lists
      ensures ViewAgrees(Befriend(s, me, target), u)
    {
      BefriendView(s, me, target, u);
    }
  }

  lemma NoMatchIsConsistent(s: Social, me: Entity, target: Entity, now: int, s1: Social)
    requires Consistent(s, now) && CanBefriend(s, me, target) && target.uid !in s.lists[me.uid]
    requires AnswerTo(s.buffers, Request(me.uid, target.uid), now) != ThatWasAMatch
    requires s1 == s.(buffers := Process(s.buffers, Request(me.uid, target.uid), now))
    ensures Consistent(s1, now)
  {
    SoundIsCanonical(s.tables);
    LookupFindsRow(s.tables.friends, me.uid, target.uid);
    ProcessIsExclusive(s, Request(me.uid, target.uid), now);
    BuffersKeepReplay(s, s1);
  }

  lemma ForwardedIsConsistent(s: Social, me: Entity, target: Entity, now: int)
    requires Consistent(s, now)
    ensures Consistent(Forwarded(s, me, target), now)
  {
    ReplyIsConsistent(s, target, FriendshipRequest(me.name), now);
    ReplyIsConsistent(Reply(s, target, FriendshipRequest(me.name)), me,
                      FriendAddResult(SentSuccesfully, target.name), now);
  }

  lemma InviteIsConsistent(s: Social, me: Entity, target: Entity, now: int)
    requires Consistent(s, now) && CanBefriend(s, me, target) && target.uid !in s.lists[me.uid]
    ensures Consistent(Invite(s, me, target, now), now)
  {
    var request := Request(me.uid, target.uid);
    if AnswerTo(s.buffers, request, now) == ThatWasAMatch {
      MatchIsConsistent(s, me, target, now);
    } else {
      var s1 := s.(buffers := Process(s.buffers, request, now));
      NoMatchIsConsistent(s, me, target, now, s1);
      if AnswerTo(s.buffers, request, now) == AlreadyInBuffer {
        ReplyIsConsistent(s1, me, FriendAddResult(PreviousStillWaiting, target.name), now);
      } else {
        ForwardedIsConsistent(s1, me, target, now);
      }
    }
  }

  lemma BuffersKeepReplay(s: Social, s': Social)
    requires ReplayAgrees(s) && s' == s.(buffers := s'.buffers)
    ensures ReplayAgrees(s')
  {
    forall v <- s.lists
      ensures ViewAgrees(s', v)
    {
      assert ViewAgrees(s, v);
    }
  }

  /** A request is refused with a reason, or goes to the buffer for a user who can become a friend. */
  lemma RequestAddCases(s: Social, me: Entity, name: Text, now: int) returns (reason: FriendAddFailure)
    requires RegistryAgrees(s) && me.uid in s.lists && HasNickname(s.tables, me.uid, me.name)
    ensures CanRequest(s, me, name)
    ensures || RequestAdd(s, me, name, now) == Reply(s, me, FriendAddFail(reason, name))
            || (&& name in s.registry.byName
                && CanBefriend(s, me, s.registry.byName[name])
                && s.registry.byName[name].uid !in s.lists[me.uid]
                && RequestAdd(s, me, name, now) == Invite(s, me, s.registry.byName[name], now))
  {
    reason := if name !in s.registry.byName then PlayerNotOnline
              else if s.registry.byName[name].uid == me.uid then CannotInviteSelf
              else AlreadyFriends;
  }

  lemma RequestAddIsConsistent(s: Social, me: Entity, name: Text, now: int)
    requires Consistent(s, now) && RegistryAgrees(s)
    requires me.uid in s.lists && HasNickname(s.tables, me.uid, me.name)
    ensures CanRequest(s, me, name) && Consistent(RequestAdd(s, me, name, now), now)
  {
    var reason := RequestAddCases(s, me, name, now);
    OutcomeIsConsistent(s, me, name, now, reason, RequestAdd(s, me, name, now));
  }

  lemma OutcomeIsConsistent(s: Social, me: Entity, name: Text, now: int, reason: FriendAddFailure, s': Social)
    requires Consistent(s, now)
    requires || s' == Reply(s, me, FriendAddFail(reason, name))
             || (&& name in s.registry.byName
                 && CanBefriend(s, me, s.registry.byName[name])
                 && s.registry.byName[name].uid !in s.lists[me.uid]
                 && s' == Invite(s, me, s.registry.byName[name], now))
    ensures Consistent(s', now)
  {
    if s' == Reply(s, me, FriendAddFail(reason, name)) {
      ReplyIsConsistent(s, me, FriendAddFail(reason, name), now);
    } else {
      InviteIsConsistent(s, me, s.registry.byName[name], now);
    }
  }

  lemma BreakView(s: Social, me: Entity, target: Entity, u: Uid)
    requires UniqueNicknames(s.tables.characters)
    requires HasNickname(s.tables, me.uid, me.name) && HasNickname(s.tables, target.uid, target.name)
    requires me.uid in s.lists && target.uid != me.uid && u in s.lists && ViewAgrees(s, u)
    ensures ViewAgrees(Break(s, me, target), u)
  {
    var s' := Break(s, me, target);
    if u == me.uid {
      assert s'.mail[u] == s.mail[u] + [BrokenFriendship(target.name)];
      ViewLoses(s.tables.characters, s.mail[u], BrokenFriendship(target.name), OnlineFriends(s, u), target.uid,
                OnlineFriends(s', u));
    } else if u == target.uid {
      assert s'.mail[u] == s.mail[u] + [BrokenFriendship(me.name)];
      ViewLoses(s.tables.characters, s.mail[u], BrokenFriendship(me.name), OnlineFriends(s, u), me.uid,
                OnlineFriends(s', u));
    } else {
      assert s'.mail[u] == s.mail[u];
      assert OnlineFriends(s', u) == OnlineFriends(s, u);
    }
  }

  lemma BreakCache(s: Social, me: Entity, target: Entity)
    requires Canonical(s.tables.friends) && CacheAgrees(s) && me.uid in s.lists && target.uid != me.uid
    ensures CacheAgrees(Break(s, me, target))
  {
    var s' := Break(s, me, target);
    var rows := RowsWithout(s.tables.friends, target.uid, me.uid);
    forall u <- s.lists
      ensures s'.lists[u] == FriendsOf(rows, u)
    {
      LookupAfterRemove(s.tables.friends, target.uid, me.uid, u);
      if u != me.uid && u != target.uid {
        assert s'.lists[u] == s.lists[u];
      }
    }
  }

  lemma RemovedRowIsSound(t: Tables, one: Uid, other: Uid)
    requires Sound(t)
    ensures Sound(t.(friends := RowsWithout(t.friends, one, other)))
  {
    forall row <- RowsWithout(t.friends, one, other)
      ensures row in t.friends
    {
    }
  }

  lemma BreakIsConsistent(s: Social, me: Entity, target: Entity, now: int)
    requires Consistent(s, now) && me.uid in s.lists && target.uid in s.lists[me.uid]
    requires HasNickname(s.tables, me.uid, me.name) && HasNickname(s.tables, target.uid, target.name)
    ensures Consistent(Break(s, me, target), now)
  {
    var s' := Break(s, me, target);
    assert target.uid != me.uid && CacheAgrees(s') by {
      SoundIsCanonical(s.tables);
      BreakCache(s, me, target);
    }
    RemovedRowIsSound(s.tables, target.uid, me.uid);
    BreakIsExclusive(s, me, target, now);
    BreakReplay(s, me, target);
  }

  lemma BreakReplay(s: Social, me: Entity, target: Entity)
    requires ReplayAgrees(s) && UniqueNicknames(s.tables.characters)
    requires HasNickname(s.tables, me.uid, me.name) && HasNickname(s.tables, target.uid, target.name)
    requires me.uid in s.lists && target.uid != me.uid
    ensures ReplayAgrees(Break(s, me, target))
  {
    var s' := Break(s, me, target);
    forall u <- s'.lists
      ensures ViewAgrees(s', u)
    {
      assert u in s.lists && ViewAgrees(s, u);
      BreakView(s, me, target, u);
    }
  }

  lemma BreakIsExclusive(s: Social, me: Entity, target: Entity, now: int)
    requires Exclusive(s, now) && me.uid in s.lists
    ensures Exclusive(Break(s, me, target), now)
  {
  }

  lemma RequestRemoveIsConsistent(s: Social, me: Entity, name: Text, now: int)
    requires Consistent(s, now) && me.uid in s.lists && HasNickname(s.tables, me.uid, me.name)
    ensures Consistent(RequestRemove(s, me, name), now)
  {
    var target := UidOf(s.tables, name);
    if target == INVALID_ID || target !in s.lists[me.uid] {
      ReplyIsConsistent(s, me, FriendRemovalFail(name), now);
    } else {
      BreakIsConsistent(s, me, Entity(target, name), now);
    }
  }

  // ---------------------------------------------------------------- Time and the tables

  lemma TimeIsConsistent(s: Social, now: int, later: int)
    requires Consistent(s, now) && now <= later
    ensures Consistent(s, later) && Consistent(s.(buffers := Cleanup(s.buffers)), later)
  {
    forall r | !Live(s.buffers, r, now)
      ensures !Live(s.buffers, r, later) && !Live(Cleanup(s.buffers), r, later)
    {
      DeadStaysDead(s.buffers, r, now, later);
    }
    forall r
      ensures OneCopy(s.buffers, r, later)
    {
      OneCopyLater(s.buffers, r, now, later);
    }
  }

  lemma CreatedIsConsistent(s: Social, name: Text, owner: nat, now: int)
    requires Consistent(s, now) && UidOf(s.tables, name) == INVALID_ID
    ensures Consistent(s.(tables := Created(s.tables, name, owner)), now)
  {
    CreatedIsSound(s.tables, name, owner);
    CreatedKeepsUsers(s.tables, name, owner, s.lists.Keys);
    CharactersKeepFriends(s, s.(tables := Created(s.tables, name, owner)), now);
  }

  lemma CreatedKeepsUsers(t: Tables, name: Text, owner: nat, users: set<Uid>)
    requires Sound(t) && forall u <- users :: u in t.characters
    ensures var t' := Created(t, name, owner);
            forall u <- users :: u in t'.characters && t.characters[u] == t'.characters[u]
  {
  }

  lemma CharactersKeepFriends(s: Social, s': Social, now: int)
    requires Consistent(s, now) && s' == s.(tables := s'.tables) && Sound(s'.tables)
    requires s'.tables.friends == s.tables.friends
    requires forall u <- s.lists ::
               && u in s.tables.characters && u in s'.tables.characters
               && s.tables.characters[u] == s'.tables.characters[u]
    ensures Consistent(s', now)
  {
    CharactersKeepReplay(s, s');
  }

  lemma CharactersKeepReplay(s: Social, s': Social)
    requires ReplayAgrees(s) && s' == s.(tables := s'.tables)
    requires forall u <- s.lists ::
               && u in s.tables.characters && u in s'.tables.characters
               && s.tables.characters[u] == s'.tables.characters[u]
    ensures ReplayAgrees(s')
  {
    forall u <- s.lists
      ensures ViewAgrees(s', u)
    {
      assert ViewAgrees(s, u);
      assert OnlineFriends(s', u) == OnlineFriends(s, u);
      SameNames(s.tables.characters, s'.tables.characters, OnlineFriends(s, u));
    }
  }

  lemma ErasedIsConsistent(s: Social, e: Entity, owner: nat, now: int)
    requires Consistent(s, now) && e in Owned(s.tables, owner) && !Referenced(s.tables, e.name)
    requires e.uid !in s.lists
    ensures Consistent(s.(tables := Erased(s.tables, e.name)), now)
  {
    var s' := s.(tables := Erased(s.tables, e.name));
    assert Sound(s'.tables) && forall u :: u in s'.tables.characters <==> u in s.tables.characters && u != e.uid by {
      ErasedIsSound(s.tables, e, owner);
    }
    CharactersKeepFriends(s, s', now);
  }

  // ---------------------------------------------------------------- Making and ending a friendship

  /** Both are online under their names, and not friends. */
  predicate Acquaintances(s: Social, a: Entity, b: Entity) {
    && a.uid != b.uid && a.uid in s.lists && b.uid in s.lists && a.uid in s.mail && b.uid in s.mail
    && a.name in s.registry.byName && s.registry.byName[a.name] == a
    && b.name in s.registry.byName && s.registry.byName[b.name] == b
    && b.uid !in s.lists[a.uid] && a.uid !in s.lists[b.uid]
  }

  /** The first request: the other one is asked, and nothing else changes but the buffer. */
  lemma FirstRequest(s: Social, a: Entity, b: Entity, now: int)
    requires Acquaintances(s, a, b) && AnswerTo(s.buffers, Request(a.uid, b.uid), now) == SuccesfullyAdded
    ensures var s' := RequestAdd(s, a, b.name, now);
            && s'.lists == s.lists && s'.tables == s.tables && s'.registry == s.registry && s'.mail.Keys == s.mail.Keys
            && s'.buffers.front == s.buffers.front[Request(a.uid, b.uid) := now]
            && s'.mail[a.uid] == s.mail[a.uid] + [FriendAddResult(SentSuccesfully, b.name)]
            && s'.mail[b.uid] == s.mail[b.uid] + [FriendshipRequest(a.name)]
  {
  }

  lemma Answering(s: Social, a: Entity, b: Entity, now: int)
    requires Acquaintances(s, a, b) && Live(s.buffers, Request(a.uid, b.uid), now)
    ensures var s' := RequestAdd(s, b, a.name, now);
            && s'.lists == s.lists[a.uid := s.lists[a.uid] + {b.uid}][b.uid := s.lists[b.uid] + {a.uid}]
            && s'.tables.friends == RowsWith(s.tables.friends, a.uid, b.uid)
            && s'.mail.Keys == s.mail.Keys
            && s'.mail[a.uid] == s.mail[a.uid] + [NewFriendship(b.name)]
            && s'.mail[b.uid] == s.mail[b.uid] + [NewFriendship(a.name)]
  {
    assert Reverse(Request(b.uid, a.uid)) == Request(a.uid, b.uid);
  }

  /** If one asks, and the other asks back within 20 seconds, they become friends on both sides and in the database,
      and each is told so: whatever happens in between, as long as the two stay online and leave their request alone.
      `run` is what reaches the buffer in between, cleanups at any permitted times included. */
  lemma {:induction false} MutualRequestsMakeFriends(
    s: Social, a: Entity, b: Entity, first: int, run: seq<Event>, lastTick: int, gap: int, s2: Social, second: int)
    requires Acquaintances(s, a, b) && AnswerTo(s.buffers, Request(a.uid, b.uid), first) == SuccesfullyAdded
    requires lastTick <= first && WellTimed(run, lastTick, first, gap) && Untouched(run, Request(a.uid, b.uid))
    requires CanRequest(s, a, b.name) && Acquaintances(s2, a, b)
    requires s2.buffers == BuffersAfter(RequestAdd(s, a, b.name, first).buffers, run)
    requires ClockAfter(run, lastTick, first).1 <= second < first + LIFETIME * SECOND
    ensures CanRequest(s2, b, a.name)
    ensures var s3 := RequestAdd(s2, b, a.name, second);
            && s3.lists == s2.lists[a.uid := s2.lists[a.uid] + {b.uid}][b.uid := s2.lists[b.uid] + {a.uid}]
            && s3.tables.friends == RowsWith(s2.tables.friends, a.uid, b.uid)
            && s3.mail.Keys == s2.mail.Keys
            && s3.mail[a.uid] == s2.mail[a.uid] + [NewFriendship(b.name)]
            && s3.mail[b.uid] == s2.mail[b.uid] + [NewFriendship(a.name)]
  {
    var request := Request(a.uid, b.uid);
    var s1 := RequestAdd(s, a, b.name, first);
    FirstRequest(s, a, b, first);
    assert Waits(s1.buffers, request, first, lastTick);
    StaysLive(s1.buffers, request, first, run, lastTick, first, gap, second);
    Answering(s2, a, b, second);
  }

  /** Ending a friendship undoes making it: caches, database and buffers are as before. */
  lemma BreakUndoesBefriend(s: Social, me: Entity, target: Entity)
    requires me.uid in s.lists && target.uid in s.lists && me.uid != target.uid
    requires target.uid !in s.lists[me.uid] && me.uid !in s.lists[target.uid]
    requires RowOf(me.uid, target.uid) !in s.tables.friends
    ensures var s' := Break(Befriend(s, me, target), me, target);
            s'.lists == s.lists && s'.tables == s.tables && s'.buffers == s.buffers && s'.registry == s.registry
  {
    var rows := RowsWith(s.tables.friends, target.uid, me.uid);
    assert RowsWithout(rows, target.uid, me.uid) == s.tables.friends;
    var s1 := Befriend(s, me, target);
    assert s1.lists[me.uid] - {target.uid} == s.lists[me.uid];
    assert s1.lists[target.uid] - {me.uid} == s.lists[target.uid];
    assert Break(s1, me, target).lists == s.lists;
  }
}
