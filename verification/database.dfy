/** The tables behind the database facade: characters, and friendships as one canonical row per pair. */
module Database {
  import opened Basics

  datatype CharacterRow = CharacterRow(owner: nat, nickname: Text)

  datatype FriendRow = FriendRow(characterId: Uid, hisFriendId: Uid)

  /** The schema puts no unique constraint on friendships, so the table is a bag of rows. */
  type FriendRows = multiset<FriendRow>

  /** `characters` is keyed by its primary key; `nextId` is the next value of its serial. */
  datatype Tables = Tables(characters: map<Uid, CharacterRow>, friends: FriendRows, nextId: Uid)

  // ---------------------------------------------------------------- Friendships

  /** The row that stands for a pair: the smaller id comes first. */
  function RowOf(one: Uid, other: Uid): FriendRow {
    if one > other then FriendRow(other, one) else FriendRow(one, other)
  }

  /** The two-column lookup: a union, so without duplicates. */
  function FriendsOf(rows: FriendRows, id: Uid): set<Uid> {
    (set row <- rows | row.hisFriendId == id :: row.characterId) +
    (set row <- rows | row.characterId == id :: row.hisFriendId)
  }

  predicate Canonical(rows: FriendRows) {
    forall row <- rows :: row.characterId <= row.hisFriendId
  }

  function RowsWith(rows: FriendRows, one: Uid, other: Uid): FriendRows {
    rows + multiset{RowOf(one, other)}
  }

  function RowsWithout(rows: FriendRows, one: Uid, other: Uid): FriendRows {
    rows[RowOf(one, other) := 0]
  }

  /** In a canonical table the lookup finds a friend exactly when the canonical row is there;
      so it is symmetric. */
  lemma LookupFindsRow(rows: FriendRows, id: Uid, other: Uid)
    requires Canonical(rows)
    ensures other in FriendsOf(rows, id) <==> RowOf(id, other) in rows
  {
    if other in FriendsOf(rows, id) {
      if FriendRow(other, id) !in rows {
        assert FriendRow(id, other) in rows;
      }
    } else {
      assert FriendRow(other, id) !in rows && FriendRow(id, other) !in rows;
    }
  }

  lemma LookupAfterMake(rows: FriendRows, one: Uid, other: Uid, id: Uid)
    requires Canonical(rows)
    ensures Canonical(RowsWith(rows, one, other))
    ensures FriendsOf(RowsWith(rows, one, other), id)
         == FriendsOf(rows, id) + (if id == one then {other} else {}) + (if id == other then {one} else {})
  {
    var rows' := RowsWith(rows, one, other);
    assert forall row :: row in rows' <==> row in rows || row == RowOf(one, other);
    forall x {:trigger x in FriendsOf(rows', id)}
      ensures x in FriendsOf(rows', id)
         <==> x in FriendsOf(rows, id) || (id == one && x == other) || (id == other && x == one)
    {
      LookupFindsRow(rows, id, x);
      LookupFindsRow(rows', id, x);
    }
  }

  lemma LookupAfterRemove(rows: FriendRows, one: Uid, other: Uid, id: Uid)
    requires Canonical(rows)
    ensures Canonical(RowsWithout(rows, one, other))
    ensures FriendsOf(RowsWithout(rows, one, other), id)
         == FriendsOf(rows, id) - (if id == one then {other} else {}) - (if id == other then {one} else {})
  {
    var rows' := RowsWithout(rows, one, other);
    assert forall row :: row in rows' <==> row in rows && row != RowOf(one, other);
    forall x {:trigger x in FriendsOf(rows', id)}
      ensures x in FriendsOf(rows', id)
         <==> x in FriendsOf(rows, id) && !(id == one && x == other) && !(id == other && x == one)
    {
      LookupFindsRow(rows, id, x);
      LookupFindsRow(rows', id, x);
    }
  }

  /** "The first is always smaller" is what removal needs: it ends every friendship exactly when the
      table is canonical. */
  lemma RemovalNeedsCanonicalRows(rows: FriendRows)
    ensures Canonical(rows)
       <==> forall one, other :: FriendsOf(RowsWithout(rows, one, other), one) == FriendsOf(rows, one) - {other}
  {
    if Canonical(rows) {
      forall one, other
        ensures FriendsOf(RowsWithout(rows, one, other), one) == FriendsOf(rows, one) - {other}
      {
        LookupAfterRemove(rows, one, other, one);
      }
    } else {
      var row :| row in rows && row.characterId > row.hisFriendId;
      var one, other := row.characterId, row.hisFriendId;
      assert row in RowsWithout(rows, one, other);
      assert other in FriendsOf(RowsWithout(rows, one, other), one);
      assert FriendsOf(RowsWithout(rows, one, other), one) != FriendsOf(rows, one) - {other};
    }
  }

  // ------------------------------------------------ The simple form: every id with its own set of friends

  type Adjacency = map<Uid, set<Uid>>

  function Neighbours(adjacency: Adjacency, id: Uid): set<Uid> {
    if id in adjacency then adjacency[id] else {}
  }

  datatype FriendCall = Make(one: Uid, other: Uid) | Remove(one: Uid, other: Uid)

  function RowsAfter(rows: FriendRows, call: FriendCall): FriendRows {
    match call
    case Make(one, other) => RowsWith(rows, one, other)
    case Remove(one, other) => RowsWithout(rows, one, other)
  }

  function AdjacencyAfter(adjacency: Adjacency, call: FriendCall): Adjacency {
    match call
    case Make(one, other) =>
      var step := adjacency[one := Neighbours(adjacency, one) + {other}];
      step[other := Neighbours(step, other) + {one}]
    case Remove(one, other) =>
      var step := adjacency[one := Neighbours(adjacency, one) - {other}];
      step[other := Neighbours(step, other) - {one}]
  }

  /** Every lookup in the course of the calls: who are the friends of `asked[i]` after the first i calls. */
  function TableReplies(rows: FriendRows, calls: seq<FriendCall>, asked: seq<Uid>): seq<set<Uid>>
    requires |asked| == |calls| + 1
    decreases |calls|
  {
    [FriendsOf(rows, asked[0])] +
    if |calls| == 0 then [] else TableReplies(RowsAfter(rows, calls[0]), calls[1..], asked[1..])
  }

  function AdjacencyReplies(adjacency: Adjacency, calls: seq<FriendCall>, asked: seq<Uid>): seq<set<Uid>>
    requires |asked| == |calls| + 1
    decreases |calls|
  {
    [Neighbours(adjacency, asked[0])] +
    if |calls| == 0 then [] else AdjacencyReplies(AdjacencyAfter(adjacency, calls[0]), calls[1..], asked[1..])
  }

  ghost predicate SameFriends(rows: FriendRows, adjacency: Adjacency) {
    Canonical(rows) && forall id :: FriendsOf(rows, id) == Neighbours(adjacency, id)
  }

  lemma MakeKeepsSameFriends(rows: FriendRows, adjacency: Adjacency, one: Uid, other: Uid, id: Uid)
    requires SameFriends(rows, adjacency)
    ensures Canonical(RowsWith(rows, one, other))
    ensures FriendsOf(RowsWith(rows, one, other), id) == Neighbours(AdjacencyAfter(adjacency, Make(one, other)), id)
  {
    LookupAfterMake(rows, one, other, id);
    assert FriendsOf(rows, id) == Neighbours(adjacency, id);
  }

  lemma RemoveKeepsSameFriends(rows: FriendRows, adjacency: Adjacency, one: Uid, other: Uid, id: Uid)
    requires SameFriends(rows, adjacency)
    ensures Canonical(RowsWithout(rows, one, other))
    ensures FriendsOf(RowsWithout(rows, one, other), id)
            == Neighbours(AdjacencyAfter(adjacency, Remove(one, other)), id)
  {
    LookupAfterRemove(rows, one, other, id);
    assert FriendsOf(rows, id) == Neighbours(adjacency, id);
  }

  lemma CallKeepsSameFriends(rows: FriendRows, adjacency: Adjacency, call: FriendCall)
    requires SameFriends(rows, adjacency)
    ensures SameFriends(RowsAfter(rows, call), AdjacencyAfter(adjacency, call))
  {
    match call
    case Make(one, other) =>
      MakeKeepsSameFriends(rows, adjacency, one, other, one);
      forall id
        ensures FriendsOf(RowsAfter(rows, call), id) == Neighbours(AdjacencyAfter(adjacency, call), id)
      {
        MakeKeepsSameFriends(rows, adjacency, one, other, id);
      }
    case Remove(one, other) =>
      RemoveKeepsSameFriends(rows, adjacency, one, other, one);
      forall id
        ensures FriendsOf(RowsAfter(rows, call), id) == Neighbours(AdjacencyAfter(adjacency, call), id)
      {
        RemoveKeepsSameFriends(rows, adjacency, one, other, id);
      }
  }

  /** One canonical row per pair refines a symmetric relation: in every sequence of calls, every
      lookup answers like a map that holds both directions. */
  lemma {:induction false} CanonicalTableRefinesAdjacency(
    rows: FriendRows, adjacency: Adjacency, calls: seq<FriendCall>, asked: seq<Uid>)
    requires |asked| == |calls| + 1
    requires SameFriends(rows, adjacency)
    ensures TableReplies(rows, calls, asked) == AdjacencyReplies(adjacency, calls, asked)
    decreases |calls|
  {
    if calls != [] {
      CallKeepsSameFriends(rows, adjacency, calls[0]);
      CanonicalTableRefinesAdjacency(
        RowsAfter(rows, calls[0]), AdjacencyAfter(adjacency, calls[0]), calls[1..], asked[1..]);
    }
  }

  // ---------------------------------------------------------------- Characters

  predicate UniqueNicknames(characters: map<Uid, CharacterRow>) {
    forall u <- characters, v <- characters :: characters[u].nickname == characters[v].nickname ==> u == v
  }

  /** What the schema, the serial and the callers keep true of the tables. */
  ghost predicate Sound(t: Tables) {
    && UniqueNicknames(t.characters)
    && t.nextId > 0
    && (forall u <- t.characters :: 0 < u < t.nextId)
    && (forall row <- t.friends :: row.characterId < row.hisFriendId && t.friends[row] == 1)
    && (forall row <- t.friends :: row.characterId in t.characters && row.hisFriendId in t.characters)
  }

  ghost predicate HasNickname(t: Tables, u: Uid, name: Text) {
    u in t.characters && t.characters[u].nickname == name
  }

  /** SELECT id ... WHERE nickname: the id, or the invalid id when there is no row. */
  ghost function UidOf(t: Tables, name: Text): (id: Uid)
    ensures id != INVALID_ID ==> HasNickname(t, id, name)
  {
    if exists u: Uid :: HasNickname(t, u, name) then
      var u: Uid :| HasNickname(t, u, name);
      u
    else INVALID_ID
  }

  /** The lookup is exact: it answers `u` for the nickname of `u` and nothing else. */
  lemma UidOfIsExact(t: Tables, u: Uid, name: Text)
    requires Sound(t) && u != INVALID_ID
    ensures UidOf(t, name) == u <==> HasNickname(t, u, name)
  {
    if HasNickname(t, u, name) {
      var id := UidOf(t, name);
      assert HasNickname(t, id, name);
      assert t.characters[id].nickname == t.characters[u].nickname;
    }
  }

  lemma TakenHasUid(t: Tables, name: Text)
    requires Sound(t)
    ensures UidOf(t, name) != INVALID_ID <==> exists u :: HasNickname(t, u, name)
  {
    forall u | HasNickname(t, u, name)
      ensures UidOf(t, name) == u
    {
      UidOfIsExact(t, u, name);
    }
  }

  function Owned(t: Tables, account: nat): set<Entity> {
    set u <- t.characters | t.characters[u].owner == account :: Entity(u, t.characters[u].nickname)
  }

  /** A character is referenced by friendships, so the schema refuses to delete it. */
  predicate Referenced(t: Tables, name: Text) {
    exists row <- t.friends ::
      || (row.characterId in t.characters && t.characters[row.characterId].nickname == name)
      || (row.hisFriendId in t.characters && t.characters[row.hisFriendId].nickname == name)
  }

  function Created(t: Tables, name: Text, owner: nat): Tables {
    t.(characters := t.characters[t.nextId := CharacterRow(owner, name)], nextId := t.nextId + 1)
  }

  function Erased(t: Tables, name: Text): Tables {
    t.(characters := map u <- t.characters | t.characters[u].nickname != name :: t.characters[u])
  }

  lemma CreatedIsSound(t: Tables, name: Text, owner: nat)
    requires Sound(t) && UidOf(t, name) == INVALID_ID
    ensures Sound(Created(t, name, owner))
    ensures Owned(Created(t, name, owner), owner) == Owned(t, owner) + {Entity(t.nextId, name)}
    ensures forall a: nat | a != owner :: Owned(Created(t, name, owner), a) == Owned(t, a)
  {
    var t' := Created(t, name, owner);
    forall u <- t.characters
      ensures t.characters[u].nickname != name
    {
      UidOfIsExact(t, u, name);
    }
    forall e {:trigger e in Owned(t', owner)}
      ensures e in Owned(t', owner) <==> e in Owned(t, owner) + {Entity(t.nextId, name)}
    {
      if e in Owned(t, owner) {
        assert e.uid in t'.characters;
      }
      if e == Entity(t.nextId, name) {
        assert t.nextId in t'.characters;
      }
    }
    forall a: nat | a != owner
      ensures Owned(t', a) == Owned(t, a)
    {
      forall e ensures e in Owned(t', a) <==> e in Owned(t, a) {
        if e in Owned(t, a) {
          assert e.uid in t'.characters;
        }
      }
    }
  }

  lemma ErasedIsSound(t: Tables, e: Entity, owner: nat)
    requires Sound(t) && e in Owned(t, owner) && !Referenced(t, e.name)
    ensures Sound(Erased(t, e.name))
    ensures forall u :: u in Erased(t, e.name).characters <==> u in t.characters && u != e.uid
    ensures Owned(Erased(t, e.name), owner) == Owned(t, owner) - {e}
    ensures forall a: nat | a != owner :: Owned(Erased(t, e.name), a) == Owned(t, a)
  {
    var t' := Erased(t, e.name);
    assert forall u :: u in t'.characters <==> u in t.characters && u != e.uid;
    assert forall u <- t'.characters :: t'.characters[u] == t.characters[u];
    forall a: nat
      ensures Owned(t', a) == if a == owner then Owned(t, a) - {e} else Owned(t, a)
    {
      forall x {:trigger x in Owned(t', a)}
        ensures x in Owned(t', a) <==> x in Owned(t, a) && x != e
      {
        if x in Owned(t, a) && x != e {
          assert x.uid in t'.characters;
        }
      }
    }
  }

  // ---------------------------------------------------------------- The facade

  class PsqlFacade {
    var characters: map<Uid, CharacterRow>
    var friends: FriendRows
    var nextId: Uid

    ghost function State(): Tables
      reads this
    {
      Tables(characters, friends, nextId)
    }

    constructor (tables: Tables)
      ensures State() == tables
    {
      characters, friends, nextId := tables.characters, tables.friends, tables.nextId;
    }

    method GetFriendsOf(id: Uid) returns (ids: set<Uid>)
      ensures ids == FriendsOf(friends, id)
    {
      var left := set row <- friends | row.hisFriendId == id :: row.characterId;
      var right := set row <- friends | row.characterId == id :: row.hisFriendId;
      ids := left + right;
    }

    method MakeFriends(one: Uid, other: Uid)
      modifies this`friends
      ensures friends == RowsWith(old(friends), one, other)
    {
      var low, high := one, other;
      if low > high {
        low, high := high, low;
      }
      friends := friends + multiset{FriendRow(low, high)};
    }

    method RemoveFriends(one: Uid, other: Uid)
      modifies this`friends
      ensures friends == RowsWithout(old(friends), one, other)
    {
      var low, high := one, other;
      if low > high {
        low, high := high, low;
      }
      friends := friends[FriendRow(low, high) := 0];
    }

    method CharNameToUid(nickname: Text) returns (id: Uid)
      requires Sound(State())
      ensures id == UidOf(State(), nickname)
    {
      var hits := set u <- characters | characters[u].nickname == nickname;
      if hits == {} {
        assert forall u <- characters :: u !in hits;
        return INVALID_ID;
      }
      id :| id in hits;
      UidOfIsExact(State(), id, nickname);
    }

    method IsNicknameAlreadyTaken(nickname: Text) returns (taken: bool)
      requires Sound(State())
      ensures taken <==> exists u :: HasNickname(State(), u, nickname)
    {
      var id := CharNameToUid(nickname);
      taken := id != INVALID_ID;
      if !taken {
        forall u ensures !HasNickname(State(), u, nickname) {
          if HasNickname(State(), u, nickname) {
            UidOfIsExact(State(), u, nickname);
          }
        }
      }
    }

    /** `ok` is false when the query throws because the nickname is taken; its serial is used up all the same. */
    method CreateCharacter(nickname: Text, owner: nat) returns (ok: bool, created: Entity)
      modifies this
      ensures ok <==> forall u :: !HasNickname(old(State()), u, nickname)
      ensures State() == if ok then Created(old(State()), nickname, owner) else old(State()).(nextId := old(nextId) + 1)
      ensures ok ==> created == Entity(old(nextId), nickname)
    {
      ok := forall u <- characters :: characters[u].nickname != nickname;
      assert !ok ==> exists u <- characters :: HasNickname(State(), u, nickname);
      created := Entity(nextId, nickname);
      if ok {
        characters := characters[nextId := CharacterRow(owner, nickname)];
      }
      nextId := nextId + 1;
    }

    /** `ok` is false when the query throws because friendships still reference the character. */
    method EraseCharacter(character: Entity) returns (ok: bool)
      modifies this
      ensures ok <==> !Referenced(old(State()), character.name)
      ensures State() == if ok then Erased(old(State()), character.name) else old(State())
    {
      var victims := set u <- characters | characters[u].nickname == character.name;
      ok := forall row <- friends :: row.characterId !in victims && row.hisFriendId !in victims;
      if ok {
        characters := map u <- characters | characters[u].nickname != character.name :: characters[u];
      }
    }

    /** The rows of an account, in whatever order the database returns them. */
    method GetLobbyChars(account: nat) returns (chars: seq<Entity>)
      ensures Enumerates(chars, Owned(State(), account))
    {
      chars := [];
      var rest := Owned(Tables(characters, friends, nextId), account);
      while rest != {}
        invariant rest <= Owned(State(), account) && Visiting(chars, rest, Owned(State(), account))
        decreases rest
      {
        var e :| e in rest;
        VisitStep(chars, rest, Owned(State(), account), e);
        chars, rest := chars + [e], rest - {e};
      }
      VisitDone(chars, Owned(State(), account));
    }
  }
}
