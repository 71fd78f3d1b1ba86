/** The scored objective (ArtifactController.cs): who carries the artifact,
    where its carrier must bring it, and what scoring it is worth. */
module Artifact {
  import opened Common
  import opened Hero
  import opened HeroManagement

  datatype RarityType = Common | Rare | Epic | Legendary

  /** The points an artifact of each rarity is worth. Rare is worth the most,
      as the source has it. */
  function GetScore(rarity: RarityType): (points: int)
    ensures points >= 100
    ensures RarityOfScore(points) == Some(rarity)
  {
    match rarity
    case Common => 100
    case Epic => 250
    case Legendary => 500
    case Rare => 1000
  }

  /** The rarity worth `points`, if any: the inverse of `GetScore`. */
  function RarityOfScore(points: int): Option<RarityType> {
    if points == 100 then Some(Common)
    else if points == 250 then Some(Epic)
    else if points == 500 then Some(Legendary)
    else if points == 1000 then Some(Rare)
    else None
  }

  /** How near its owner's spawn location a carried artifact must be to score. */
  const ScoringRadius: real := 10.0

  /** Height above the carrier at which a carried artifact floats, and at which
      a dropped one comes to rest. */
  const CarryHeight: real := 3.5
  const DropHeight: real := 1.0

  /** What the artifact's trigger touched: a hero, a spawn room, or anything
      else. */
  datatype Collider = PlayerCollider(hero: HeroModel) | SpawnRoomCollider | OtherCollider

  /** Calls the artifact makes into the rest of the match: the announcements,
      and the request for the next artifact. */
  datatype ArtifactEvent =
    | AnnounceAcquired(playerId: int)
    | AnnounceScored(playerId: int)
    | AnnounceDropped(playerId: int)
    | SpawnNextArtifact

  /** One artifact. It is free (`!isCarried`, `ownerID == -1`), carried by
      `playerThatOwns`, or, once scored, destroyed; the engine delivers no
      callbacks to a destroyed artifact. */
  class ArtifactController {
    var isCarried: bool
    var playerThatOwns: HeroModel?
    var ownerID: int
    var ownerSpawn: Vec3
    var rarity: RarityType
    var position: Vec3
    var destroyed: bool
    var events: seq<ArtifactEvent>

    /** Carried exactly when there is a carrier; a free artifact has no owner id. */
    ghost predicate Valid()
      reads this
    {
      && (isCarried <==> playerThatOwns != null)
      && (!isCarried ==> ownerID == -1)
    }

    /** Would a touch by `hero` pick the artifact up? */
    predicate PicksUp(hero: HeroModel)
      reads this, hero
    {
      !isCarried && !hero.isKnockedOut
    }

    /** Would entering a spawn room score? Only within the scoring radius of
        the owner's own spawn location. */
    predicate ScoresAtSpawn()
      reads this
    {
      isCarried && SqDistance(position, ownerSpawn) <= ScoringRadius * ScoringRadius
    }

    /** A fresh component, every field at its C# default: not carried, no
        carrier, owner id 0, spawn at the origin, rarity Common. */
    constructor (position: Vec3)
      ensures !isCarried && playerThatOwns == null && ownerID == 0 && rarity == Common
      ensures ownerSpawn == Vec3(0.0, 0.0, 0.0)
      ensures this.position == position && !destroyed && events == []
    {
      isCarried, playerThatOwns, ownerID := false, null, 0;
      ownerSpawn, rarity := Vec3(0.0, 0.0, 0.0), Common;
      this.position, destroyed, events := position, false, [];
    }

    method Start()
      requires !destroyed
      modifies this
      ensures ownerID == -1 && rarity == Common
      ensures isCarried == old(isCarried) && playerThatOwns == old(playerThatOwns)
      ensures ownerSpawn == old(ownerSpawn) && position == old(position)
      ensures !destroyed && events == old(events)
      ensures old(!isCarried && playerThatOwns == null) ==> Valid()
    {
      ownerID := -1;
      rarity := Common;
    }

    /** Each frame: a carried artifact follows its carrier, and is dropped
        where the carrier stands once the carrier is knocked out.
        `carrierPosition` is where the carrier stands this frame. */
    method Update(carrierPosition: Vec3)
      requires Valid() && !destroyed
      modifies this
      ensures Valid() && !destroyed && rarity == old(rarity) && ownerSpawn == old(ownerSpawn)
      ensures !old(isCarried) ==> unchanged(this)
      ensures old(isCarried) && !old(playerThatOwns.isKnockedOut) ==>
                isCarried && playerThatOwns == old(playerThatOwns) && ownerID == old(ownerID) &&
                position == carrierPosition.Raised(CarryHeight) && events == old(events)
      ensures old(isCarried) && old(playerThatOwns.isKnockedOut) ==>
                !isCarried && playerThatOwns == null && ownerID == -1 &&
                position == carrierPosition.Raised(DropHeight) &&
                events == old(events) + [AnnounceDropped(old(ownerID))]
    {
      if isCarried {
        position := carrierPosition.Raised(CarryHeight);
        if playerThatOwns.isKnockedOut {
          DroppedArtifact(carrierPosition);
        }
      }
    }

    /** The trigger: a hero picks up a free artifact unless knocked out, and
        the carrier scores by entering a spawn room near the owner's spawn
        location. Every other touch changes nothing. `roll` is the value
        `Random.Range(0, 2)` would give the spawn lookup. */
    method OnTriggerEnter(col: Collider, heroManager: HeroManager, roll: int)
      requires Valid() && !destroyed
      requires heroManager.Valid() && 0 <= roll < 2
      requires col.PlayerCollider? && PicksUp(col.hero) ==> 0 <= col.hero.playerId <= 2
      modifies this, playerThatOwns
      ensures Valid() && rarity == old(rarity)
      ensures col.PlayerCollider? && old(PicksUp(col.hero)) ==>
                && isCarried && playerThatOwns == col.hero
                && ownerID == col.hero.playerId
                && ownerSpawn == heroManager.GetSpawnLocationOfPlayer(ownerID, roll)
                && position == old(position) && !destroyed
                && events == old(events) + [AnnounceAcquired(ownerID)]
                && unchanged(col.hero)
      ensures col.SpawnRoomCollider? && old(ScoresAtSpawn()) ==>
                && destroyed
                && isCarried && playerThatOwns == old(playerThatOwns) && ownerID == old(ownerID)
                && ownerSpawn == old(ownerSpawn) && position == old(position)
                && events == old(events) + [AnnounceScored(ownerID), SpawnNextArtifact]
                && playerThatOwns.State() == old(playerThatOwns.State()).(score := old(playerThatOwns.score) + GetScore(rarity))
                && playerThatOwns.outbox == old(playerThatOwns.outbox)
                && playerThatOwns.movementSpeed == old(playerThatOwns.movementSpeed)
      ensures !(col.PlayerCollider? && old(PicksUp(col.hero))) && !(col.SpawnRoomCollider? && old(ScoresAtSpawn())) ==>
                unchanged(this) && (old(playerThatOwns) != null ==> unchanged(old(playerThatOwns)))
    {
      match col
      case PlayerCollider(hero) =>
        if !isCarried && !hero.isKnockedOut {
          playerThatOwns := hero;
          ownerID := playerThatOwns.playerId;
          ownerSpawn := heroManager.GetSpawnLocationOfPlayer(ownerID, roll);
          isCarried := true;
          events := events + [AnnounceAcquired(ownerID)];
        }
      case SpawnRoomCollider =>
        if isCarried {
          if SqDistance(position, ownerSpawn) <= ScoringRadius * ScoringRadius {
            events := events + [AnnounceScored(ownerID)];
            playerThatOwns.IncreaseScore(GetScore(rarity));
            events := events + [SpawnNextArtifact];
            destroyed := true;
          }
        }
      case OtherCollider =>
    }

    /** The carrier lets go: the artifact rests just above where the carrier
        stands and is free again. */
    method DroppedArtifact(carrierPosition: Vec3)
      requires playerThatOwns != null && !destroyed
      modifies this
      ensures Valid() && !destroyed
      ensures !isCarried && playerThatOwns == null && ownerID == -1
      ensures position == carrierPosition.Raised(DropHeight)
      ensures events == old(events) + [AnnounceDropped(old(ownerID))]
      ensures rarity == old(rarity) && ownerSpawn == old(ownerSpawn)
    {
      events := events + [AnnounceDropped(ownerID)];
      position := carrierPosition.Raised(DropHeight);
      playerThatOwns := null;
      ownerID := -1;
      isCarried := false;
    }

    /** The id of the carrying player, -1 when the artifact is free. */
    function GetOwnerID(): (id: int)
      reads this
      ensures id == ownerID
      ensures Valid() && !isCarried ==> id == -1
    {
      ownerID
    }
  }

  /** A knocked-out hero touching a free artifact leaves it free. */
  method KnockedOutScenario() returns (carried: bool, ownerID: int)
    ensures !carried && ownerID == -1
  {
    var spawns := new HeroManager();
    spawns.Start();
    var artifact := new ArtifactController(Vec3(0.0, 0.0, 0.0));
    artifact.Start();
    var fallen := new HeroModel(true, true, true);
    fallen.SetPlayerId(2);
    fallen.SetKnockedOut(true);
    artifact.OnTriggerEnter(PlayerCollider(fallen), spawns, 0);
    carried, ownerID := artifact.isCarried, artifact.GetOwnerID();
  }

  /** Player 1 picks up a Common artifact, carries it into their own spawn
      room and scores 100 points; the artifact is destroyed. */
  method ScoringScenario() returns (scoreAfter: int, destroyed: bool)
    ensures scoreAfter == 100 && destroyed
  {
    var spawns := new HeroManager();
    spawns.Start();
    var artifact := new ArtifactController(Vec3(0.0, 0.0, 0.0));
    artifact.Start();
    var hero := new HeroModel(true, true, true);
    hero.SetPlayerId(1);
    artifact.OnTriggerEnter(PlayerCollider(hero), spawns, 0);
    assert artifact.playerThatOwns == hero && artifact.ownerSpawn == Vec3(-55.0, 0.65, 20.0);
    artifact.Update(Vec3(-55.0, 0.65, 20.0));
    assert artifact.position == Vec3(-55.0, 4.15, 20.0) && artifact.ScoresAtSpawn();
    artifact.OnTriggerEnter(SpawnRoomCollider, spawns, 0);
    scoreAfter, destroyed := hero.score, artifact.destroyed;
  }
}
