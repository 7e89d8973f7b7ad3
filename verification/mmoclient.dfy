/** The session as the object the server runs, and the handlers of its preauth and lobby states. */
module Mmoclients {
  import opened Basics
  import opened Protocol
  import opened Codec
  import opened Database
  import opened Sessions
  import opened ServerSteps

  /** A packet of the session itself, with what the world had mailed when it was sent. */
  datatype Told = Told(packet: Packet, mail: Mail)

  class Mmoclient {
    /** The world's connections to its users; only looked at to say what came first. */
    const outboxes: Outboxes
    /** The socket is still the real one, not the null socket. */
    var hasSocket: bool
    var currentState: ClientState
    var stateAwaitingTransition: Option<ClientState>
    var asyncState: AsyncStatus
    /** What was posted for this session and has not run. */
    var tasks: seq<Task>
    /** What went out through the real socket. */
    var sent: seq<Packet>
    ghost var closes: nat
    /** Every packet of the session itself, through either socket. */
    ghost var told: seq<Told>

    ghost function State(): Session
      reads this
    {
      Session(hasSocket, closes, currentState, stateAwaitingTransition, asyncState, tasks, sent)
    }

    constructor (outboxes: Outboxes)
      ensures State() == ACCEPTED && this.outboxes == outboxes && told == []
    {
      this.outboxes, told := outboxes, [];
      hasSocket, closes, asyncState := true, 0, Unset;
      currentState, stateAwaitingTransition := Preauth, None;
      tasks, sent := [Recv], [];
    }

    method SendToClient(p: Packet)
      modifies this`sent, this`told
      ensures State() == Send(old(State()), p)
      ensures told == old(told) + [Told(p, outboxes.mail)]
    {
      told := told + [Told(p, outboxes.mail)];
      if hasSocket {
        sent := sent + [p];
      }
    }

    method DoRecv()
      modifies this`tasks
      ensures State() == Arm(old(State()))
    {
      if hasSocket {
        tasks := tasks + [Recv];
      }
    }

    method ForceClose()
      modifies this`hasSocket, this`closes, this`tasks
      ensures State() == Sessions.ForceClose(old(State()))
    {
      hasSocket := false;
      closes := closes + 1;
      tasks := tasks + [RunFinalize];
    }

    method ScheduleTransition(newState: ClientState)
      modifies this`asyncState, this`stateAwaitingTransition, this`tasks
      ensures State() == Sessions.ScheduleTransition(old(State()), newState)
    {
      asyncState := StateTransition;
      stateAwaitingTransition := Some(newState);
      tasks := tasks + [RunTransition];
    }

    /** The posted transition; the caller has destroyed the old state. */
    method RunScheduledTransition()
      requires stateAwaitingTransition.Some?
      modifies this`currentState, this`stateAwaitingTransition, this`asyncState, this`tasks
      ensures State() == MoveOn(old(State()))
    {
      currentState := stateAwaitingTransition.value;
      stateAwaitingTransition := None;
      asyncState := PacketPoll;
      StartState();
    }

    method StartState()
      modifies this`tasks
      ensures State() == Start(old(State()))
    {
      match currentState {
        case Null =>
        case Preauth => DoRecv();
        case Lobby(id, account, _) => tasks := tasks + [Query(id, account)];
        case Ingame(_, _) => DoRecv();
      }
    }

    /** The end of a packet handler that no exception has left. */
    method PollUnlessInTransition()
      modifies this`tasks
      ensures State() == PollAgain(old(State()))
    {
      if asyncState == PacketPoll {
        DoRecv();
      }
    }
  }

  // ---------------------------------------------------------------- Preauth

  class PreauthState {
    const session: Mmoclient

    constructor (session: Mmoclient)
      ensures this.session == session
    {
      this.session := session;
    }

    /** `verdict` is the validator's, with the account's id.  `thrown` when an exception leaves the handler: the
        opcode is read outside of its try block. */
    method HandleNetworkPacket(data: array<Byte>, len: nat, verdict: Option<nat>, lobbyId: nat) returns (thrown: bool)
      requires data.Length == BUFFER_SIZE && len <= BUFFER_SIZE
      modifies session
      ensures thrown <==> len == 0
      ensures thrown ==> session.State() == old(session.State())
      ensures !thrown ==> session.State() == AfterHello(old(session.State()), old(data[..len]), verdict, lobbyId)
    {
      var bd := new BinaryDeserializer(data, len);
      var ok, opcode := bd.Plain(OPCODE);
      if !ok {
        return true;
      }
      thrown := false;
      if opcode == 0 {
        var loginserverKey: Text, accountLogin: Text;
        CursorHasRoom(bd.Input(), bd.currentPos);
        ok, loginserverKey := bd.String();
        if !ok {
          session.ForceClose();
          return;
        }
        CursorHasRoom(bd.Input(), bd.currentPos);
        ok, accountLogin := bd.String();
        if !ok || |loginserverKey| != KEY_LENGTH {
          session.ForceClose();
          return;
        }
        if verdict.Some? {
          session.SendToClient(GoodKeys);
          session.ScheduleTransition(Lobby(lobbyId, verdict.value, []));
        } else {
          session.SendToClient(BadKeys);
          session.ForceClose();
        }
      } else {
        session.SendToClient(BadKeys);
        session.ForceClose();
      }
    }
  }

  // ---------------------------------------------------------------- Lobby

  /** The first position with the name is the one that std::find_if returns. */
  lemma FindIsFirst(chars: seq<Entity>, name: Text, i: nat)
    requires i <= |chars| && (forall j :: 0 <= j < i ==> chars[j].name != name)
    requires i < |chars| ==> chars[i].name == name
    ensures Find(chars, name) == i
  {
    var k := Find(chars, name);
  }

  /** std::find_if over the names. */
  method FindIf(chars: seq<Entity>, name: Text) returns (i: nat)
    ensures i == Find(chars, name)
  {
    i := 0;
    while i < |chars| && chars[i].name != name
      invariant i <= |chars| && forall j :: 0 <= j < i ==> chars[j].name != name
    {
      i := i + 1;
    }
    FindIsFirst(chars, name, i);
  }

  class LobbyState {
    const session: Mmoclient
    const db: PsqlFacade

    constructor (session: Mmoclient, db: PsqlFacade)
      ensures this.session == session && this.db == db
    {
      this.session, this.db := session, db;
    }

    /** std::any_of over the bytes of a name. */
    method HasOtherThanAlnum(name: Text) returns (found: bool)
      ensures found <==> !AllAlnum(name)
    {
      var i := 0;
      while i < |name|
        invariant i <= |name| && forall j :: 0 <= j < i ==> IsAlnum(name[j])
      {
        if !IsAlnum(name[i]) {
          return true;
        }
        i := i + 1;
      }
      return false;
    }

    method RequestCharacterCreate(name: Text)
      requires session.currentState.Lobby? && Sound(db.State())
      modifies session, db
      ensures (db.State(), session.State()) == AfterCreate(old(db.State()), old(session.State()), name)
    {
      var chars := session.currentState.chars;
      if |chars| >= CHARACTER_LIMIT {
        session.SendToClient(CharacterCreationFail(CharacterLimitExceeded));
        return;
      }
      if |name| > NAME_LIMIT || name == [] {
        session.SendToClient(CharacterCreationFail(NameTooLong));
        return;
      }
      var otherDigits := HasOtherThanAlnum(name);
      if otherDigits {
        session.SendToClient(CharacterCreationFail(NameContainsIncorrectDigits));
        return;
      }
      var taken := db.IsNicknameAlreadyTaken(name);
      TakenHasUid(db.State(), name);
      if taken {
        session.SendToClient(CharacterCreationFail(NameAlreadyUsed));
        return;
      }
      var ok, created := db.CreateCharacter(name, session.currentState.account);
      session.currentState := session.currentState.(chars := chars + [created]);
      session.SendToClient(CharacterCreated(created));
    }

    /** The exception of the query goes to the handler, which closes the session. */
    method RequestCharacterDelete(name: Text)
      requires session.currentState.Lobby?
      modifies session, db
      ensures (db.State(), session.State()) == AfterDelete(old(db.State()), old(session.State()), name)
    {
      var chars := session.currentState.chars;
      var i := FindIf(chars, name);
      if i == |chars| {
        session.ForceClose();
        return;
      }
      var ok := db.EraseCharacter(chars[i]);
      if !ok {
        session.ForceClose();
        return;
      }
      var rest := chars[..i] + chars[i + 1..];
      session.currentState := session.currentState.(chars := rest);
      session.SendToClient(CharacterList(rest));
    }

    /** The completion of the asynchronous query. */
    method OnLobbyChars(rows: seq<Entity>)
      requires session.currentState.Lobby?
      modifies session
      ensures session.State() == Arm(Send(Relisted(old(session.State()), rows), CharacterList(rows)))
    {
      session.currentState := session.currentState.(chars := rows);
      session.SendToClient(CharacterList(rows));
      session.DoRecv();
    }

    /** A request other than a selection: every exception closes the session, and what has not started a
        transition polls again. */
    method ServeOther(r: LobbyRequest)
      requires session.currentState.Lobby? && Sound(db.State()) && !r.Select?
      modifies session, db
      ensures (db.State(), session.State()) == AfterOther(old(db.State()), old(session.State()), r)
    {
      if r.BadLobbyRequest? {
        session.ForceClose();
        return;
      }
      if r.Create? {
        RequestCharacterCreate(r.name);
      } else if r.Delete? {
        RequestCharacterDelete(r.name);
      } else if r.LogOff? {
        session.ForceClose();
      }
      session.PollUnlessInTransition();
    }
  }

  /** Database and session when a request other than a selection has been served. */
  ghost function AfterOther(t: Tables, s: Session, r: LobbyRequest): (Tables, Session)
    requires s.current.Lobby?
  {
    match r
    case Create(name) => (AfterCreate(t, s, name).0, PollAgain(AfterCreate(t, s, name).1))
    case Delete(name) => (AfterDelete(t, s, name).0, PollAgain(AfterDelete(t, s, name).1))
    case LogOff => (t, PollAgain(Sessions.ForceClose(s)))
    case BadLobbyRequest => (t, Sessions.ForceClose(s))
    case _ => (t, PollAgain(s))
  }

  // ---------------------------------------------------------------- Asynchronous queries

  class AsynchronousDatabaseAdapter {
    const synchronousDb: PsqlFacade

    constructor (db: PsqlFacade)
      ensures synchronousDb == db
    {
      synchronousDb := db;
    }

    /** The first of the two queued steps: it queries, and queues the callback with the rows. */
    method RunGetLobbyChars(session: Mmoclient, lobby: nat, account: nat) returns (rows: seq<Entity>)
      modifies session`tasks
      ensures Enumerates(rows, Owned(synchronousDb.State(), account))
      ensures session.State() == Posted(old(session.State()), Completion(lobby, rows))
    {
      rows := synchronousDb.GetLobbyChars(account);
      session.tasks := session.tasks + [Completion(lobby, rows)];
    }
  }
}
