/** One connection: the states that it goes through and the tasks that carry it on. */
module Sessions {
  import opened Basics
  import opened Protocol
  import opened Codec

  /** `id` tells one lobby state object from the next: a database callback refers to the object. */
  datatype ClientState =
      Null
    | Preauth
    | Lobby(id: nat, account: nat, chars: seq<Entity>)
    | Ingame(account: nat, me: Entity)

  /** The status is not initialized before the first transition. */
  datatype AsyncStatus = Unset | PacketPoll | StateTransition

  /** What is under way for a session and will call it back. */
  datatype Task =
      Recv
    | RunTransition
    | Query(lobby: nat, account: nat)
    | Completion(lobby: nat, rows: seq<Entity>)
    | RunFinalize

  /** `open` until the socket is replaced by the null socket; `closes` counts the calls of force_close. */
  datatype Session = Session(
    open: bool, closes: nat, current: ClientState, awaiting: Option<ClientState>, async: AsyncStatus,
    tasks: seq<Task>, sent: seq<Packet>)

  // ---------------------------------------------------------------- Steps

  function Posted(s: Session, t: Task): Session {
    s.(tasks := s.tasks + [t])
  }

  function Taken(s: Session, k: nat): Session
    requires k < |s.tasks|
  {
    s.(tasks := s.tasks[..k] + s.tasks[k + 1..])
  }

  /** do_recv: the null socket never calls back. */
  function Arm(s: Session): Session {
    if s.open then Posted(s, Recv) else s
  }

  function SendAll(s: Session, ps: seq<Packet>): Session {
    if s.open then s.(sent := s.sent + ps) else s
  }

  function Send(s: Session, p: Packet): Session {
    SendAll(s, [p])
  }

  function ForceClose(s: Session): Session {
    Posted(s.(open := false, closes := s.closes + 1), RunFinalize)
  }

  function ScheduleTransition(s: Session, next: ClientState): Session {
    Posted(s.(async := StateTransition, awaiting := Some(next)), RunTransition)
  }

  /** What start() of a state does. */
  function Start(s: Session): Session {
    match s.current
    case Null => s
    case Preauth => Arm(s)
    case Lobby(id, account, _) => Posted(s, Query(id, account))
    case Ingame(_, _) => Arm(s)
  }

  /** The posted transition, once the old state is destroyed. */
  function MoveOn(s: Session): Session
    requires s.awaiting.Some?
  {
    Start(s.(current := s.awaiting.value, awaiting := None, async := PacketPoll))
  }

  /** The end of a packet handler that no exception has left. */
  function PollAgain(s: Session): Session {
    if s.async == PacketPoll then Arm(s) else s
  }

  const ACCEPTED: Session := Start(Session(true, 0, Preauth, None, Unset, [], []))

  // ---------------------------------------------------------------- What a session stands for

  /** The character that the session has in the world, from the construction of its ingame state to its destruction. */
  function UserOf(s: Session): Option<Entity> {
    match s.awaiting
    case Some(Ingame(_, me)) => Some(me)
    case _ => if s.current.Ingame? then Some(s.current.me) else None
  }

  function StateAccount(c: ClientState): Option<nat> {
    match c
    case Lobby(_, account, _) => Some(account)
    case Ingame(account, _) => Some(account)
    case _ => None
  }

  function AccountOf(s: Session): Option<nat> {
    if s.awaiting.Some? then StateAccount(s.awaiting.value) else StateAccount(s.current)
  }

  /** Exactly one continuation of an open session is under way, and it is the one that its state waits for;
      force_close runs once, never while a state awaits its transition, and leaves the finalization only. */
  predicate Single(s: Session) {
    if s.open then
      && s.closes == 0
      && |s.tasks| == 1
      && match s.current
         case Null => false
         case Preauth =>
           if s.awaiting.None? then s.tasks == [Recv]
           else s.tasks == [RunTransition] && s.awaiting.value.Lobby? && s.awaiting.value.chars == []
         case Lobby(id, account, chars) =>
           if s.awaiting.None? then
             && s.async == PacketPoll
             && (|| s.tasks[0] == Recv
                 || (s.tasks[0] == Query(id, account) && chars == [])
                 || (s.tasks[0].Completion? && s.tasks[0].lobby == id))
           else s.tasks == [RunTransition] && s.awaiting.value.Ingame? && s.awaiting.value.account == account
         case Ingame(account, _) =>
           if s.awaiting.None? then s.tasks == [Recv] && s.async == PacketPoll
           else && s.tasks == [RunTransition] && s.awaiting.value.Lobby?
                && s.awaiting.value.account == account && s.awaiting.value.chars == []
    else
      && s.closes == 1
      && s.awaiting.None?
      && s.tasks == if s.current.Null? then [] else [RunFinalize]
  }

  /** The phase that the state of an open session talks to. */
  function ServerPhase(s: Session): Phase {
    if UserOf(s).Some? then IngamePhase
    else if s.current.Preauth? && s.awaiting.None? then PreauthPhase
    else LobbyPhase
  }

  /** What was sent follows the phases of the client, and has led it to the phase of the server. */
  predicate InStep(s: Session) {
    && PhaseAfter(s.sent) != Confused
    && (s.open ==> PhaseAfter(s.sent) == ServerPhase(s))
  }

  /** The packets since the character was selected. */
  function SinceSelected(sent: seq<Packet>): seq<Packet> {
    if |sent| == 0 then [] else
    var init, p := sent[..|sent| - 1], sent[|sent| - 1];
    if p.CharacterSelected? then [] else SinceSelected(init) + [p]
  }

  lemma SinceOne(sent: seq<Packet>, p: Packet)
    ensures SinceSelected(sent + [p]) == if p.CharacterSelected? then [] else SinceSelected(sent) + [p]
  {
    assert (sent + [p])[..|sent|] == sent;
  }

  lemma Snoc<T>(a: seq<T>, init: seq<T>, p: T)
    ensures a + init + [p] == a + (init + [p])
  {
  }

  lemma {:induction false} SinceMore(sent: seq<Packet>, more: seq<Packet>)
    requires forall i :: 0 <= i < |more| ==> IsWorldPacket(more[i])
    ensures SinceSelected(sent + more) == SinceSelected(sent) + more
    decreases |more|
  {
    if |more| > 0 {
      var init, p := more[..|more| - 1], more[|more| - 1];
      assert more == init + [p] && IsWorldPacket(p);
      SinceMore(sent, init);
      SinceOne(sent + init, p);
      Snoc(sent, init, p);
      Snoc(SinceSelected(sent), init, p);
    } else {
      assert sent + more == sent;
    }
  }

  // ---------------------------------------------------------------- Requests

  datatype Hello = Keys(key: Text, login: Text) | BadHello | UnknownHello

  const KEY_LENGTH: nat := 64

  /** What a packet to the preauth state says; the opcode is read outside of the try block. */
  function ReadHello(data: Text): Hello
    requires ReadPlain(data, 0, OPCODE).Got?
  {
    var Got(opcode, pos) := ReadPlain(data, 0, OPCODE);
    if opcode != 0 then UnknownHello else
    match ReadString(data, pos)
    case Underflow => BadHello
    case Got(key, at) =>
      match ReadString(data, at)
      case Underflow => BadHello
      case Got(login, _) => if |key| != KEY_LENGTH then BadHello else Keys(key, login)
  }

  datatype LobbyRequest =
    Select(name: Text) | Create(name: Text) | Delete(name: Text) | LogOff | NoLobbyRequest | BadLobbyRequest

  function ReadLobbyRequest(data: Text): LobbyRequest {
    match ReadPlain(data, 0, OPCODE)
    case Underflow => BadLobbyRequest
    case Got(opcode, pos) =>
      if opcode == 3 then LogOff
      else if opcode > 3 then NoLobbyRequest
      else match ReadString(data, pos)
           case Underflow => BadLobbyRequest
           case Got(name, _) => if opcode == 0 then Select(name) else if opcode == 1 then Create(name) else Delete(name)
  }

  datatype IngameRequest =
      LogOffToLobby
    | JoinChat(room: Text)
    | LeaveChat(room: Text)
    | SendChatMsg(room: Text, message: Text)
    | SendWhisper(recipient: Text, message: Text)
    | FriendAdd(nick: Text)
    | FriendRemove(nick: Text)
    | NoIngameRequest
    | BadIngameRequest

  function ReadIngameRequest(data: Text): IngameRequest {
    match ReadPlain(data, 0, OPCODE)
    case Underflow => BadIngameRequest
    case Got(opcode, pos) =>
      if opcode == 0 then LogOffToLobby
      else if opcode > 6 then NoIngameRequest
      else match ReadString(data, pos)
           case Underflow => BadIngameRequest
           case Got(first, at) =>
             if opcode == 1 then JoinChat(first)
             else if opcode == 2 then LeaveChat(first)
             else if opcode == 5 then FriendAdd(first)
             else if opcode == 6 then FriendRemove(first)
             else match ReadString(data, at)
                  case Underflow => BadIngameRequest
                  case Got(second, _) => if opcode == 3 then SendChatMsg(first, second) else SendWhisper(first, second)
  }
}
