/** What the server sends: packets, the phases a client goes through, and mail to online users. */
module Protocol {
  import opened Basics

  /** An account has at most this many characters, and a nickname at most this many bytes. */
  const CHARACTER_LIMIT: nat := 5
  const NAME_LIMIT: nat := 20

  datatype CreationFailure =
    NameTooLong | NameContainsIncorrectDigits | NameAlreadyUsed | CharacterLimitExceeded

  datatype FriendAddFailure = PlayerNotOnline | CannotInviteSelf | AlreadyFriends

  datatype FriendAddOutcome = SentSuccesfully | PreviousStillWaiting

  datatype Packet =
      // preauth
    | GoodKeys
    | BadKeys
      // lobby
    | CharacterList(chars: seq<Entity>)
    | CharacterSelected(selected: Text)
    | CharacterCreated(created: Entity)
    | CharacterCreationFail(failure: CreationFailure)
      // ingame
    | MovedToLobby
    | UserJoinedChat(room: Text, who: Text)
    | UserLeftChat(room: Text, who: Text)
    | ChatMsg(room: Text, who: Text, message: Text)
    | WhisperMessage(who: Text, message: Text)
    | FriendOnlineWhileYouLogin(nick: Text)
    | FriendLogin(nick: Text)
    | FriendLeave(nick: Text)
    | NewFriendship(nick: Text)
    | BrokenFriendship(nick: Text)
    | FriendshipRequest(nick: Text)
    | FriendAddFail(reason: FriendAddFailure, nick: Text)
    | FriendRemovalFail(nick: Text)
    | FriendAddResult(outcome: FriendAddOutcome, nick: Text)

  // ---------------------------------------------------------------- Phases

  predicate IsLobbyPacket(p: Packet) {
    p.CharacterList? || p.CharacterCreated? || p.CharacterCreationFail?
  }

  /** Who sends a packet: the session itself, or one of the systems of the world. */
  datatype Sender = FromSession | FromChat | FromFriends

  function SenderOf(p: Packet): Sender {
    if p.UserJoinedChat? || p.UserLeftChat? || p.ChatMsg? || p.WhisperMessage? then FromChat
    else if || p.FriendOnlineWhileYouLogin? || p.FriendLogin? || p.FriendLeave? || p.NewFriendship?
            || p.BrokenFriendship? || p.FriendshipRequest? || p.FriendAddFail? || p.FriendRemovalFail?
            || p.FriendAddResult? then FromFriends
    else FromSession
  }

  /** The packets of the chat and friend systems, sent to a user who is in the world. */
  predicate IsWorldPacket(p: Packet) {
    SenderOf(p) != FromSession
  }

  /** Where a client is; the same opcode byte means different packets in different phases. */
  datatype Phase = PreauthPhase | LobbyPhase | IngamePhase | Exited | Confused

  /** The phase after a packet; `Confused` if the packet belongs to another phase. */
  function Advance(phase: Phase, p: Packet): Phase {
    match phase
    case PreauthPhase => if p.GoodKeys? then LobbyPhase else if p.BadKeys? then Exited else Confused
    case LobbyPhase => if IsLobbyPacket(p) then LobbyPhase else if p.CharacterSelected? then IngamePhase else Confused
    case IngamePhase => if IsWorldPacket(p) then IngamePhase else if p.MovedToLobby? then LobbyPhase else Confused
    case Exited => Confused
    case Confused => Confused
  }

  function PhaseAfter(sent: seq<Packet>): Phase {
    if |sent| == 0 then PreauthPhase
    else Advance(PhaseAfter(sent[..|sent| - 1]), sent[|sent| - 1])
  }

  lemma PhaseAfterOne(sent: seq<Packet>, p: Packet)
    ensures PhaseAfter(sent + [p]) == Advance(PhaseAfter(sent), p)
  {
    assert (sent + [p])[..|sent|] == sent;
  }

  lemma {:induction false} PhaseAfterWorldPackets(sent: seq<Packet>, more: seq<Packet>)
    requires PhaseAfter(sent) == IngamePhase && forall p <- more :: IsWorldPacket(p)
    ensures PhaseAfter(sent + more) == IngamePhase
    decreases |more|
  {
    if more == [] {
      assert sent + more == sent;
    } else {
      var init := more[..|more| - 1];
      PhaseAfterWorldPackets(sent, init);
      PhaseAfterOne(sent + init, more[|more| - 1]);
      assert sent + more == sent + init + [more[|more| - 1]];
    }
  }

  // ---------------------------------------------------------------- Mail

  /** For each user in the world, what the systems have sent to him since he entered. */
  type Mail = map<Uid, seq<Packet>>

  /** One packet to every member of `to`; the order between users is not observable. */
  function Deliver(mail: Mail, to: set<Uid>, p: Packet): Mail {
    map u <- mail :: if u in to then mail[u] + [p] else mail[u]
  }

  function Tell(mail: Mail, u: Uid, p: Packet): Mail {
    Deliver(mail, {u}, p)
  }

  /** `u` was sent exactly these packets. */
  predicate Gets(before: Mail, after: Mail, u: Uid, ps: seq<Packet>) {
    u in before && u in after && after[u] == before[u] + ps
  }

  /** Nobody else was sent anything. */
  predicate NobodyElseGets(before: Mail, after: Mail, told: set<Uid>) {
    after.Keys == before.Keys && forall u <- before | u !in told :: u in after && after[u] == before[u]
  }

  predicate AllFrom(ps: seq<Packet>, senders: set<Sender>) {
    forall p <- ps :: SenderOf(p) in senders
  }

  /** Between the two moments the mail of `u` has only grown, by packets of these senders. */
  predicate GrowsAt(before: Mail, after: Mail, u: Uid, senders: set<Sender>)
    requires u in before && u in after
  {
    before[u] <= after[u] && AllFrom(after[u][|before[u]|..], senders)
  }

  predicate Grows(before: Mail, after: Mail, senders: set<Sender>) {
    after.Keys == before.Keys && forall u <- before :: u in after && GrowsAt(before, after, u, senders)
  }

  lemma DeliverGrows(mail: Mail, to: set<Uid>, p: Packet, senders: set<Sender>)
    requires SenderOf(p) in senders
    ensures Grows(mail, Deliver(mail, to, p), senders)
  {
    var after := Deliver(mail, to, p);
    forall u <- mail
      ensures GrowsAt(mail, after, u, senders)
    {
      assert after[u][|mail[u]|..] == if u in to then [p] else [];
    }
  }

  lemma GrowsTransitive(a: Mail, b: Mail, c: Mail, senders: set<Sender>)
    requires Grows(a, b, senders) && Grows(b, c, senders)
    ensures Grows(a, c, senders)
  {
    forall u <- a
      ensures GrowsAt(a, c, u, senders)
    {
      var n, m := |a[u]|, |b[u]|;
      assert u in b && u in c && GrowsAt(a, b, u, senders) && GrowsAt(b, c, u, senders);
      assert c[u][n..] == b[u][n..] + c[u][m..];
    }
  }

  /** The open connections of the users in the world, as the backends use them. */
  class Outboxes {
    var mail: Mail

    constructor ()
      ensures mail == map[]
    {
      mail := map[];
    }

    method Open(u: Uid)
      modifies this
      ensures mail == old(mail)[u := []]
    {
      mail := mail[u := []];
    }

    method Close(u: Uid)
      modifies this
      ensures mail == old(mail) - {u}
    {
      mail := mail - {u};
    }

    method Send(u: Uid, p: Packet)
      requires u in mail
      modifies this
      ensures mail == Tell(old(mail), u, p)
    {
      mail := mail[u := mail[u] + [p]];
    }
  }
}
