/** The double index of the characters that are in the world. */
module WorldRegistrar {
  import opened Basics

  datatype Registry = Registry(byId: map<Uid, Entity>, byName: map<Text, Entity>)

  /** Both indexes hold the same characters, each under its own key. */
  ghost predicate Indexed(r: Registry) {
    && (forall u <- r.byId :: r.byId[u].uid == u && r.byId[u].name in r.byName && r.byName[r.byId[u].name] == r.byId[u])
    && (forall n <- r.byName ::
          r.byName[n].name == n && r.byName[n].uid in r.byId && r.byId[r.byName[n].uid] == r.byName[n])
  }

  function Added(r: Registry, e: Entity): Registry {
    Registry(r.byId[e.uid := e], r.byName[e.name := e])
  }

  function Dropped(r: Registry, e: Entity): Registry {
    Registry(r.byId - {e.uid}, r.byName - {e.name})
  }

  /** Both indexes answer for the same character: found by name if and only if found by id. */
  lemma IndexesAgree(r: Registry, e: Entity)
    requires Indexed(r)
    ensures (e.uid in r.byId && r.byId[e.uid] == e) <==> (e.name in r.byName && r.byName[e.name] == e)
  {
  }

  lemma AddedIsIndexed(r: Registry, e: Entity)
    requires Indexed(r) && e.uid !in r.byId && e.name !in r.byName
    ensures Indexed(Added(r, e)) && Dropped(Added(r, e), e) == r
  {
  }

  lemma DroppedIsIndexed(r: Registry, e: Entity)
    requires Indexed(r) && e.uid in r.byId && r.byId[e.uid] == e
    ensures Indexed(Dropped(r, e))
  {
    var d := Dropped(r, e);
    forall u <- d.byId
      ensures d.byId[u].name in d.byName
    {
      if r.byId[u].name == e.name {
        assert r.byName[e.name] == r.byId[u];
        assert r.byName[e.name] == e;
      }
    }
  }

  class Registrar {
    var idToCharacter: map<Uid, Entity>
    var nameToCharacter: map<Text, Entity>

    ghost function State(): Registry
      reads this
    {
      Registry(idToCharacter, nameToCharacter)
    }

    constructor ()
      ensures State() == Registry(map[], map[])
    {
      idToCharacter, nameToCharacter := map[], map[];
    }

    method RegisterMe(character: Entity)
      requires character.uid !in idToCharacter && character.name !in nameToCharacter
      modifies this
      ensures State() == Added(old(State()), character)
    {
      idToCharacter := idToCharacter[character.uid := character];
      nameToCharacter := nameToCharacter[character.name := character];
    }

    method UnregisterMe(character: Entity)
      requires character.uid in idToCharacter && character.name in nameToCharacter
      modifies this
      ensures State() == Dropped(old(State()), character)
    {
      idToCharacter := idToCharacter - {character.uid};
      nameToCharacter := nameToCharacter - {character.name};
    }

    method FindOnlinePlayerByName(name: Text) returns (found: Option<Entity>)
      ensures found == if name in nameToCharacter then Some(nameToCharacter[name]) else None
    {
      if name !in nameToCharacter {
        return None;
      }
      found := Some(nameToCharacter[name]);
    }

    method FindOnlinePlayerById(id: Uid) returns (found: Option<Entity>)
      ensures found == if id in idToCharacter then Some(idToCharacter[id]) else None
    {
      if id !in idToCharacter {
        return None;
      }
      found := Some(idToCharacter[id]);
    }
  }
}
