/** The friend system as the object the server runs, proved against its state functions. */
module FriendSystem {
  import opened Basics
  import opened Protocol
  import opened Database
  import opened PendingRequests
  import opened WorldRegistrar
  import opened Friends

  /** One more recipient of the same packet. */
  lemma DeliverOneMore(mail: Mail, to: set<Uid>, u: Uid, p: Packet)
    requires u !in to
    ensures Tell(Deliver(mail, to, p), u, p) == Deliver(mail, to + {u}, p)
  {
  }

  /** Mail in the middle of register_me: `order` are the online friends visited so far. */
  function Greeted(mail: Mail, r: Registry, me: Entity, order: seq<Uid>): Mail
    requires me.uid in mail && forall f <- order :: f in r.byId
  {
    Deliver(mail, Elements(order), FriendLogin(me.name))[me.uid := mail[me.uid] + Greetings(r, order)]
  }

  lemma GreetedOneMore(mail: Mail, r: Registry, me: Entity, order: seq<Uid>, f: Uid)
    requires me.uid in mail && me.uid !in order && f != me.uid && f !in order
    requires f in r.byId && forall g <- order :: g in r.byId
    ensures Tell(Tell(Greeted(mail, r, me, order), me.uid, FriendOnlineWhileYouLogin(r.byId[f].name)), f,
                 FriendLogin(me.name))
         == Greeted(mail, r, me, order + [f])
  {
    var p := FriendOnlineWhileYouLogin(r.byId[f].name);
    assert Elements(order + [f]) == Elements(order) + {f};
    assert Greetings(r, order + [f]) == Greetings(r, order) + [p];
    GreetedBoth(mail, me.uid, Elements(order), Greetings(r, order), p, f, FriendLogin(me.name));
  }

  lemma GreetedBoth(mail: Mail, me: Uid, friends: set<Uid>, greetings: seq<Packet>, p: Packet, f: Uid, q: Packet)
    requires me in mail && f != me && f !in friends
    ensures Tell(Tell(Deliver(mail, friends, q)[me := mail[me] + greetings], me, p), f, q)
         == Deliver(mail, friends + {f}, q)[me := mail[me] + (greetings + [p])]
  {
    assert mail[me] + greetings + [p] == mail[me] + (greetings + [p]);
  }

  lemma GreetedNobody(mail: Mail, r: Registry, me: Entity)
    requires me.uid in mail
    ensures Greeted(mail, r, me, []) == mail
  {
    assert Greetings(r, []) == [] && mail[me.uid] + [] == mail[me.uid];
  }

  class FriendSystem {
    const playerRegistry: Registrar
    const db: PsqlFacade
    const pendingRequests: PendingFriendRequests
    const outboxes: Outboxes
    var friendlistOfId: map<Uid, set<Uid>>

    ghost function State(): Social
      reads this, playerRegistry, db, pendingRequests, outboxes
    {
      Social(playerRegistry.State(), db.State(), friendlistOfId, pendingRequests.State(), outboxes.mail)
    }

    constructor (playerRegistry: Registrar, db: PsqlFacade, outboxes: Outboxes)
      ensures this.playerRegistry == playerRegistry && this.db == db && this.outboxes == outboxes
      ensures fresh(pendingRequests)
      ensures State() == Social(playerRegistry.State(), db.State(), map[], EMPTY, outboxes.mail)
    {
      this.playerRegistry, this.db, this.outboxes := playerRegistry, db, outboxes;
      friendlistOfId := map[];
      pendingRequests := new PendingFriendRequests();
    }

    method RegisterMe(me: Entity) returns (ghost order: seq<Uid>)
      requires Sound(db.State()) && CanRegister(State(), me)
      modifies this, outboxes
      ensures Enumerates(order, NewcomersFriends(old(State()), me.uid))
      ensures State() == Register(old(State()), me, order)
    {
      var ids := db.GetFriendsOf(me.uid);
      assert me.uid !in ids by {
        SoundIsCanonical(db.State());
      }
      ghost var s := State();
      friendlistOfId := friendlistOfId[me.uid := ids];
      order := [];
      ghost var online := NewcomersFriends(s, me.uid);
      var rest := ids;
      GreetedNobody(s.mail, s.registry, me);
      while rest != {}
        invariant rest <= ids && Visiting(order, rest, online)
        invariant friendlistOfId == s.lists[me.uid := ids]
        invariant outboxes.mail == Greeted(s.mail, s.registry, me, order)
        decreases rest
      {
        var friendId :| friendId in rest;
        if friendId in friendlistOfId {
          VisitStep(order, rest, online, friendId);
          Greet(me, friendId, s.mail, order);
          order := order + [friendId];
        } else {
          VisitSkip(order, rest, online, friendId);
        }
        rest := rest - {friendId};
      }
      VisitDone(order, online);
      assert Elements(order) == online;
    }

    /** The body of the loop in register_me, for a friend who is registered. */
    method Greet(me: Entity, friendId: Uid, ghost mail: Mail, ghost order: seq<Uid>)
      requires me.uid in mail && friendId in mail && friendId != me.uid && friendId !in order && me.uid !in order
      requires friendId in playerRegistry.idToCharacter && forall f <- order :: f in playerRegistry.idToCharacter
      requires outboxes.mail == Greeted(mail, playerRegistry.State(), me, order)
      modifies outboxes
      ensures outboxes.mail == Greeted(mail, playerRegistry.State(), me, order + [friendId])
    {
      GreetedOneMore(mail, playerRegistry.State(), me, order, friendId);
      var friendEntity := playerRegistry.FindOnlinePlayerById(friendId);
      assert friendEntity.Some?;
      // I hear of him before he hears of me
      outboxes.Send(me.uid, FriendOnlineWhileYouLogin(friendEntity.value.name));
      outboxes.Send(friendId, FriendLogin(me.name));
    }

    method UnregisterMe(me: Entity)
      requires me.uid in friendlistOfId
      requires friendlistOfId.Keys <= outboxes.mail.Keys
      modifies this, outboxes
      ensures State() == Unregister(old(State()), me)
    {
      ghost var s := State();
      ghost var online := OnlineFriends(s, me.uid);
      ghost var seen: set<Uid> := {};
      var rest := friendlistOfId[me.uid];
      while rest != {}
        invariant seen !! rest && seen <= online <= seen + rest && rest <= s.lists[me.uid]
        invariant friendlistOfId == s.lists
        invariant outboxes.mail == Deliver(s.mail, seen, FriendLeave(me.name))
        decreases rest
      {
        var friendId :| friendId in rest;
        rest := rest - {friendId};
        if friendId in friendlistOfId {
          DeliverOneMore(s.mail, seen, friendId, FriendLeave(me.name));
          outboxes.Send(friendId, FriendLeave(me.name));
          seen := seen + {friendId};
        }
      }
      assert seen == online;
      friendlistOfId := friendlistOfId - {me.uid};
    }

    method ProcessReqFriendAdd(me: Entity, name: Text, now: int)
      requires CanRequest(State(), me, name) && friendlistOfId.Keys <= outboxes.mail.Keys
      requires Indexed(playerRegistry.State())
      modifies this, outboxes, pendingRequests, db`friends
      ensures State() == RequestAdd(old(State()), me, name, now)
    {
      var player := playerRegistry.FindOnlinePlayerByName(name);
      if player.None? {
        outboxes.Send(me.uid, FriendAddFail(PlayerNotOnline, name));
        return;
      }
      var toAdd := player.value.uid;
      if toAdd == me.uid {
        outboxes.Send(me.uid, FriendAddFail(CannotInviteSelf, name));
        return;
      }
      assert toAdd in friendlistOfId;
      if toAdd in friendlistOfId[me.uid] {
        outboxes.Send(me.uid, FriendAddFail(AlreadyFriends, name));
        return;
      }
      var requestState := pendingRequests.ProcessAddFriendRequest(me.uid, toAdd, now);
      match requestState {
        case AlreadyInBuffer =>
          outboxes.Send(me.uid, FriendAddResult(PreviousStillWaiting, name));
        case SuccesfullyAdded =>
          outboxes.Send(toAdd, FriendshipRequest(me.name));
          outboxes.Send(me.uid, FriendAddResult(SentSuccesfully, name));
        case ThatWasAMatch =>
          outboxes.Send(me.uid, NewFriendship(name));
          friendlistOfId := friendlistOfId[me.uid := friendlistOfId[me.uid] + {toAdd}];
          outboxes.Send(toAdd, NewFriendship(me.name));
          friendlistOfId := friendlistOfId[toAdd := friendlistOfId[toAdd] + {me.uid}];
          db.MakeFriends(toAdd, me.uid);
      }
    }

    method ProcessReqFriendRemove(me: Entity, name: Text)
      requires Sound(db.State()) && me.uid in friendlistOfId && friendlistOfId.Keys <= outboxes.mail.Keys
      modifies this, outboxes, db`friends
      ensures State() == RequestRemove(old(State()), me, name)
    {
      var toRemove := db.CharNameToUid(name);
      if toRemove == INVALID_ID {
        outboxes.Send(me.uid, FriendRemovalFail(name));
        return;
      }
      if toRemove !in friendlistOfId[me.uid] {
        outboxes.Send(me.uid, FriendRemovalFail(name));
        return;
      }
      outboxes.Send(me.uid, BrokenFriendship(name));
      friendlistOfId := friendlistOfId[me.uid := friendlistOfId[me.uid] - {toRemove}];
      if toRemove in friendlistOfId {
        outboxes.Send(toRemove, BrokenFriendship(me.name));
        friendlistOfId := friendlistOfId[toRemove := friendlistOfId[toRemove] - {me.uid}];
      }
      db.RemoveFriends(toRemove, me.uid);
    }
  }
}
