/** The objects of the world over whole runs: every sequence of logins, requests, timers and logouts. */
module WorldRuns {
  import opened Basics
  import opened Database
  import opened PendingRequests
  import opened WorldRegistrar
  import opened Friends
  import opened Worlds
  import opened Sessions
  import opened PacketSafety
  import opened GameWorlds
  import opened IngameStates
  import Chats
  import ChatSystem

  datatype Play =
      Login(me: Entity)
    | Logout(me: Entity)
    | Serve(me: Entity, request: IngameRequest)
    | Broadcast
    | Clean

  datatype TimedPlay = TimedPlay(at: int, play: Play)

  /** A character of the database that is offline can log in; a user can log out and ask for anything. */
  predicate Allowed(characters: Characters, users: set<Entity>, p: Play) {
    match p
    case Login(me) =>
      && me.uid in characters && characters[me.uid].nickname == me.name
      && forall e <- users :: e.uid != me.uid
    case Logout(me) => me in users
    case Serve(me, _) => me in users
    case _ => true
  }

  function UsersAfter(users: set<Entity>, p: Play): set<Entity> {
    match p
    case Login(me) => users + {me}
    case Logout(me) => users - {me}
    case _ => users
  }

  predicate Legal(characters: Characters, users: set<Entity>, plays: seq<TimedPlay>, now: int)
    decreases |plays|
  {
    |plays| == 0 ||
    (&& now <= plays[0].at
     && Allowed(characters, users, plays[0].play)
     && Legal(characters, UsersAfter(users, plays[0].play), plays[1..], plays[0].at))
  }

  function UsersAtEnd(users: set<Entity>, plays: seq<TimedPlay>): set<Entity>
    decreases |plays|
  {
    if |plays| == 0 then users else UsersAtEnd(UsersAfter(users, plays[0].play), plays[1..])
  }

  function EndTime(plays: seq<TimedPlay>, now: int): int {
    if |plays| == 0 then now else plays[|plays| - 1].at
  }

  /** Objects that are intact and in agreement. */
  ghost predicate Sane(universe: GameWorld, now: int)
    reads universe, universe.onlinePlayerRegistry, universe.chat, universe.chat.activeChatrooms.Values,
          universe.friends, universe.friends.db, universe.friends.pendingRequests, universe.friends.playerRegistry,
          universe.friends.outboxes
  {
    universe.Valid() && Agrees(universe.State(), now)
  }

  lemma OfflineCharacter(w: World, me: Entity)
    requires SameUsers(w) && forall e <- w.entities :: e.uid != me.uid
    ensures me.uid !in w.social.lists
  {
    SameUsersAreNested(w);
  }

  method PlayLogin(universe: GameWorld, me: Entity, now: int)
    requires Sane(universe, now) && Allowed(universe.friends.db.characters, universe.chat.entities.Keys, Login(me))
    modifies universe.onlinePlayerRegistry, universe.chat`entities, universe.friends, universe.outboxes
    ensures Sane(universe, now) && universe.chat.entities.Keys == old(universe.chat.entities.Keys) + {me}
    ensures ChatSystem.OldOrNew(universe.chat)
  {
    ghost var w := universe.State();
    OfflineCharacter(w, me);
    CanEnterExactlyWhenOffline(w, me, now);
    ghost var order := universe.ConstructIngameState(me);
    EnterAgrees(w, me, order, now);
    EnterFrame(w, me, order);
  }

  lemma CanLeaveNow(w: World, me: Entity, now: int)
    requires Agrees(w, now) && me in w.entities
    ensures CanLeave(w, me) && ChatSystem.Connected(w.social.mail.Keys, w.entities)
    ensures w.social.lists.Keys <= w.social.mail.Keys
  {
    KnownUser(w, me);
  }

  method PlayLogout(universe: GameWorld, me: Entity, now: int)
    requires Sane(universe, now) && me in universe.chat.entities
    modifies universe.onlinePlayerRegistry, universe.chat, universe.chat.activeChatrooms.Values, universe.friends,
             universe.outboxes
    ensures Sane(universe, now) && universe.chat.entities.Keys == old(universe.chat.entities.Keys) - {me}
    ensures ChatSystem.OldOrNew(universe.chat)
  {
    ghost var w := universe.State();
    CanLeaveNow(w, me, now);
    ghost var order := universe.DestroyIngameState(me);
    LeaveAgrees(w, me, order, now);
    LeaveFrame(w, me, order);
  }

  method PlayRequest(universe: GameWorld, me: Entity, r: IngameRequest, now: int)
    requires Sane(universe, now) && me in universe.chat.entities
    modifies universe.chat, universe.chat.activeChatrooms.Values, universe.friends, universe.outboxes,
             universe.friends.pendingRequests, universe.friends.db`friends
    ensures Sane(universe, now) && universe.chat.entities.Keys == old(universe.chat.entities.Keys)
    ensures ChatSystem.OldOrNew(universe.chat)
  {
    ghost var w := universe.State();
    AgreeingIsReady(universe, me, r, now);
    ServedAgrees(w, me, r, now);
    var chatController := new ChatController(universe, me);
    var friendsController := new FriendController(universe, me);
    ExecuteAssociatedAction(chatController, friendsController, r, now);
  }

  lemma CanBroadcast(w: World, now: int)
    requires Agrees(w, now)
    ensures Chats.RoomsAgree(ChatOf(w)) && ChatSystem.Connected(w.social.mail.Keys, w.entities)
  {
  }

  method PlayBroadcast(universe: GameWorld, now: int)
    requires Sane(universe, now)
    modifies universe.outboxes
    ensures Sane(universe, now) && universe.chat.entities.Keys == old(universe.chat.entities.Keys)
    ensures ChatSystem.OldOrNew(universe.chat)
  {
    ghost var w := universe.State();
    CanBroadcast(w, now);
    ghost var order := universe.RunBroadcast();
    assert ChatSystem.OldOrNew(universe.chat);
    PeriodicBroadcastAgrees(w, order, now);
  }

  method PlayClean(universe: GameWorld, now: int)
    requires Sane(universe, now)
    modifies universe.friends.pendingRequests
    ensures Sane(universe, now) && universe.chat.entities.Keys == old(universe.chat.entities.Keys)
    ensures ChatSystem.OldOrNew(universe.chat)
  {
    ghost var w := universe.State();
    universe.RunCleanup();
    TimeAgrees(w, now, now);
  }

  method PlayTimer(universe: GameWorld, p: Play, now: int)
    requires Sane(universe, now) && (p.Broadcast? || p.Clean?)
    modifies universe.outboxes, universe.friends.pendingRequests
    ensures Sane(universe, now) && universe.chat.entities.Keys == old(universe.chat.entities.Keys)
    ensures ChatSystem.OldOrNew(universe.chat)
  {
    if p.Broadcast? {
      PlayBroadcast(universe, now);
    } else {
      PlayClean(universe, now);
    }
  }

  /** What changes nothing about who is in the world. */
  method PlayInside(universe: GameWorld, p: Play, now: int)
    requires Sane(universe, now) && !p.Login? && !p.Logout? && (p.Serve? ==> p.me in universe.chat.entities)
    modifies universe.chat, universe.chat.activeChatrooms.Values, universe.friends,
             universe.outboxes, universe.friends.pendingRequests, universe.friends.db`friends
    ensures Sane(universe, now) && universe.chat.entities.Keys == old(universe.chat.entities.Keys)
    ensures ChatSystem.OldOrNew(universe.chat)
  {
    if p.Serve? {
      PlayRequest(universe, p.me, p.request, now);
    } else {
      PlayTimer(universe, p, now);
    }
  }

  method PlayOne(universe: GameWorld, p: Play, now: int)
    requires Sane(universe, now) && Allowed(universe.friends.db.characters, universe.chat.entities.Keys, p)
    modifies universe.onlinePlayerRegistry, universe.chat, universe.chat.activeChatrooms.Values, universe.friends,
             universe.outboxes, universe.friends.pendingRequests, universe.friends.db`friends
    ensures Sane(universe, now) && universe.chat.entities.Keys == UsersAfter(old(universe.chat.entities.Keys), p)
    ensures ChatSystem.OldOrNew(universe.chat)
  {
    match p {
      case Login(me) => PlayLogin(universe, me, now);
      case Logout(me) => PlayLogout(universe, me, now);
      case _ => PlayInside(universe, p, now);
    }
  }

  lemma SaneLater(universe: GameWorld, now: int, later: int)
    requires Sane(universe, now) && now <= later
    ensures Sane(universe, later)
  {
    TimeAgrees(universe.State(), now, later);
  }

  method PlayNext(universe: GameWorld, p: TimedPlay, now: int)
    requires Sane(universe, now) && now <= p.at
    requires Allowed(universe.friends.db.characters, universe.chat.entities.Keys, p.play)
    modifies universe.onlinePlayerRegistry, universe.chat, universe.chat.activeChatrooms.Values, universe.friends,
             universe.outboxes, universe.friends.pendingRequests, universe.friends.db`friends
    ensures Sane(universe, p.at) && universe.chat.entities.Keys == UsersAfter(old(universe.chat.entities.Keys), p.play)
    ensures universe.friends.db.characters == old(universe.friends.db.characters)
    ensures ChatSystem.OldOrNew(universe.chat)
  {
    SaneLater(universe, now, p.at);
    PlayOne(universe, p.play, p.at);
  }

  lemma {:induction false} FirstPlay(characters: Characters, users: set<Entity>, plays: seq<TimedPlay>, now: int)
    requires |plays| > 0 && Legal(characters, users, plays, now)
    ensures now <= plays[0].at && Allowed(characters, users, plays[0].play)
    ensures Legal(characters, UsersAfter(users, plays[0].play), plays[1..], plays[0].at)
    ensures UsersAtEnd(users, plays) == UsersAtEnd(UsersAfter(users, plays[0].play), plays[1..])
    ensures EndTime(plays, now) == EndTime(plays[1..], plays[0].at)
  {
  }

  method PlayRest(universe: GameWorld, plays: seq<TimedPlay>, now: int)
    requires Sane(universe, now) && Legal(universe.friends.db.characters, universe.chat.entities.Keys, plays, now)
    modifies universe.onlinePlayerRegistry, universe.chat, universe.chat.activeChatrooms.Values, universe.friends,
             universe.outboxes, universe.friends.pendingRequests, universe.friends.db`friends
    ensures Sane(universe, EndTime(plays, now))
    ensures universe.chat.entities.Keys == UsersAtEnd(old(universe.chat.entities.Keys), plays)
    decreases |plays|
  {
    if |plays| > 0 {
      FirstPlay(universe.friends.db.characters, universe.chat.entities.Keys, plays, now);
      PlayNext(universe, plays[0], now);
      PlayRest(universe, plays[1..], plays[0].at);
    }
  }

  lemma SaneIsTwoWay(universe: GameWorld, now: int)
    requires Sane(universe, now)
    ensures ChatSystem.TwoWay(universe.chat)
  {
    ChatSystem.ValidIsTwoWay(universe.chat);
  }

  /** In every run of the world no assert of the three systems fails, and at its end the chat relation is two-way:
      a user is in a room exactly when that live room is in his own set, every room is filed under its name, no room
      is empty, and no user's set holds a destroyed room. */
  method PlayAll(universe: GameWorld, plays: seq<TimedPlay>, now: int)
    requires Sane(universe, now) && Legal(universe.friends.db.characters, universe.chat.entities.Keys, plays, now)
    modifies universe.onlinePlayerRegistry, universe.chat, universe.chat.activeChatrooms.Values, universe.friends,
             universe.outboxes, universe.friends.pendingRequests, universe.friends.db`friends
    ensures Sane(universe, EndTime(plays, now)) && ChatSystem.TwoWay(universe.chat)
    ensures universe.chat.entities.Keys == UsersAtEnd(old(universe.chat.entities.Keys), plays)
  {
    PlayRest(universe, plays, now);
    SaneIsTwoWay(universe, EndTime(plays, now));
  }

  lemma EmptyWorldAgrees(tables: Tables, now: int)
    requires Sound(tables)
    ensures Agrees(World(Social(Registry(map[], map[]), tables, map[], EMPTY, map[]), {}, map[]), now)
  {
  }

  /** Every run from an empty world on any sound tables. */
  method PlayFromStart(db: PsqlFacade, plays: seq<TimedPlay>, start: int) returns (universe: GameWorld)
    requires Sound(db.State()) && Legal(db.characters, {}, plays, start)
    modifies db`friends
    ensures Sane(universe, EndTime(plays, start)) && ChatSystem.TwoWay(universe.chat)
    ensures universe.chat.entities.Keys == UsersAtEnd({}, plays)
  {
    universe := new GameWorld(db);
    EmptyWorldAgrees(db.State(), start);
    PlayAll(universe, plays, start);
  }
}
