/** The factories that turn a received packet into a request. */
module RecvPacketFactories {
  import opened Basics
  import opened Codec
  import opened Sessions

  method ConstructLobbyRequest(data: array<Byte>, len: nat) returns (r: LobbyRequest)
    requires data.Length == BUFFER_SIZE && len <= BUFFER_SIZE
    ensures r == ReadLobbyRequest(data[..len])
  {
    var bd := new BinaryDeserializer(data, len);
    var ok, opcode := bd.Plain(OPCODE);
    if !ok {
      return BadLobbyRequest;
    }
    if opcode == 3 {
      return LogOff;
    }
    if opcode > 3 {
      return NoLobbyRequest;
    }
    var name: Text;
    CursorHasRoom(bd.Input(), bd.currentPos);
    ok, name := bd.String();
    if !ok {
      return BadLobbyRequest;
    }
    r := if opcode == 0 then Select(name) else if opcode == 1 then Create(name) else Delete(name);
  }

  method ConstructIngameRequest(data: array<Byte>, len: nat) returns (r: IngameRequest)
    requires data.Length == BUFFER_SIZE && len <= BUFFER_SIZE
    ensures r == ReadIngameRequest(data[..len])
  {
    var bd := new BinaryDeserializer(data, len);
    var ok, opcode := bd.Plain(OPCODE);
    if !ok {
      return BadIngameRequest;
    }
    if opcode == 0 {
      return LogOffToLobby;
    }
    if opcode > 6 {
      return NoIngameRequest;
    }
    var first: Text, second: Text;
    CursorHasRoom(bd.Input(), bd.currentPos);
    ok, first := bd.String();
    if !ok {
      return BadIngameRequest;
    }
    if opcode == 1 {
      return JoinChat(first);
    }
    if opcode == 2 {
      return LeaveChat(first);
    }
    if opcode == 5 {
      return FriendAdd(first);
    }
    if opcode == 6 {
      return FriendRemove(first);
    }
    CursorHasRoom(bd.Input(), bd.currentPos);
    ok, second := bd.String();
    if !ok {
      return BadIngameRequest;
    }
    r := if opcode == 3 then SendChatMsg(first, second) else SendWhisper(first, second);
  }
}
