/** Per-player lookups kept by the match (HeroManager.cs): spawn locations,
    the hero object of a player, the player transforms and player colours. */
module HeroManagement {
  import opened Common
  import opened Hero

  /** The spawn locations `Start` lists: player 1's first, then player 2's. */
  const SpawnLocations: seq<Vec3> := [Vec3(-55.0, 0.65, 20.0), Vec3(-55.0, 0.65, 100.0)]

  /** The player whose colour `c` is, if any: the inverse of
      `HeroManager.GetPlayerColour` on the five coloured ids. */
  function PlayerOfColour(c: Color): Option<int> {
    if c == White then Some(0)
    else if c == Blue then Some(1)
    else if c == Red then Some(2)
    else if c == Green then Some(3)
    else if c == Magenta then Some(4)
    else None
  }

  class HeroManager {
    var spawnLocations: seq<Vec3>

    /** The list exists once `Start` has run. */
    predicate Valid()
      reads this
    {
      spawnLocations == SpawnLocations
    }

    /** Before `Start` the list is unset; the model holds it empty. */
    constructor ()
      ensures spawnLocations == []
    {
      spawnLocations := [];
    }

    method Start()
      modifies this
      ensures Valid()
    {
      spawnLocations := [Vec3(-55.0, 0.65, 20.0), Vec3(-55.0, 0.65, 100.0)];
    }

    /** A player's spawn location: the id counts from 1 into the list; id 0 gets
        the entry `roll`, the value of `Random.Range(0, 2)`, whose upper bound is
        exclusive. Any other id indexes outside the list. */
    function GetSpawnLocationOfPlayer(playerId: int, roll: int): (p: Vec3)
      reads this
      requires Valid()
      requires 0 <= playerId <= 2
      requires 0 <= roll < 2
      ensures playerId == 1 ==> p == Vec3(-55.0, 0.65, 20.0)
      ensures playerId == 2 ==> p == Vec3(-55.0, 0.65, 100.0)
      ensures playerId == 0 ==> p == spawnLocations[roll] && p in SpawnLocations
      ensures playerId == 0 ==> (p == SpawnLocations[0] <==> roll == 0)
    {
      if playerId != 0 then spawnLocations[playerId - 1] else spawnLocations[roll]
    }

    /** The first hero, in scan order, controlled by player `id`; null when no
        hero is. */
    method GetHeroObject(heroObjects: seq<HeroModel>, id: int) returns (heroObject: HeroModel?)
      ensures heroObject == null <==> forall k :: 0 <= k < |heroObjects| ==> heroObjects[k].playerId != id
      ensures heroObject != null ==>
                exists k :: 0 <= k < |heroObjects| && heroObjects[k] == heroObject && heroObject.playerId == id &&
                            forall j :: 0 <= j < k ==> heroObjects[j].playerId != id
    {
      heroObject := null;
      var i := 0;
      while i < |heroObjects|
        invariant 0 <= i <= |heroObjects|
        invariant forall j :: 0 <= j < i ==> heroObjects[j].playerId != id
      {
        var pid := heroObjects[i].playerId;
        if id == pid {
          heroObject := heroObjects[i];
          break;
        }
        i := i + 1;
      }
    }

    /** A new array of the first `numPlayers` player objects found, in the
        order found. The source indexes the found objects without a bound
        check, so there must be at least `numPlayers` of them. */
    method GetAllPlayerTransforms<T(0)>(playerObjects: seq<T>, numPlayers: int) returns (targets: array<T>)
      requires 0 <= numPlayers <= |playerObjects|
      ensures fresh(targets)
      ensures targets.Length == numPlayers
      ensures targets[..] == playerObjects[..numPlayers]
    {
      targets := new T[numPlayers];
      for i := 0 to numPlayers
        invariant forall k :: 0 <= k < i ==> targets[k] == playerObjects[k]
      {
        targets[i] := playerObjects[i];
      }
    }

    /** Five player ids have a colour of their own (0 white, 1 blue, 2 red,
        3 green, 4 magenta); every other id is black. */
    function GetPlayerColour(playerId: int): (c: Color)
      ensures c.a == 1.0
      ensures 0 <= playerId <= 4 <==> c != Black
      ensures 0 <= playerId <= 4 ==> PlayerOfColour(c) == Some(playerId)
      ensures !(0 <= playerId <= 4) ==> PlayerOfColour(c) == None
    {
      match playerId
      case 0 => White
      case 1 => Blue
      case 2 => Red
      case 3 => Green
      case 4 => Magenta
      case _ => Black
    }

    /** No two of the five coloured ids share a colour. */
    lemma PlayerColoursDistinct(id1: int, id2: int)
      requires 0 <= id1 <= 4 && 0 <= id2 <= 4 && id1 != id2
      ensures GetPlayerColour(id1) != GetPlayerColour(id2)
    {
    }
  }
}
