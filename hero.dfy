/** The replicated stat record of one hero (HeroModel.cs): the stats
    themselves, the damage and healing rules, the authority-guarded setters
    and the commands a client sends to the server for each of them. */
module Hero {

  /** The largest C# `int`: the upper bound of the damage clamp. */
  const IntMax: int := 0x7fff_ffff

  /** The defense at which damage is fully absorbed (`1 - defense / 50`). */
  const DefenseScale: int := 50

  /** The hero type enumeration is declared outside the modelled files; only
      its ordinal matters here. */
  datatype HeroType = HeroType(ordinal: int)

  /** Every synchronised field of a hero, as the server holds it. */
  datatype Stats = Stats(
    maxHealth: int,
    baseMoveSpeed: int,
    baseDefense: int,
    baseAttack: int,
    currentHealth: int,
    currentDefense: int,
    currentAttack: int,
    currentMoveSpeed: int,
    playerId: int,
    heroType: HeroType,
    isKnockedOut: bool,
    score: int,
    heroIndex: int)
  {
    /** Current health lies in [0, maxHealth]. */
    predicate HealthInRange() {
      0 <= currentHealth <= maxHealth
    }

    /** A buffed stat differs from its base value, but only a current value
        strictly above the base counts: a stat lowered below its base is not
        buffed. */
    predicate IsAttackBuffed()
      ensures IsAttackBuffed() ==> currentAttack != baseAttack
      ensures currentAttack < baseAttack ==> !IsAttackBuffed()
      ensures currentAttack > baseAttack ==> IsAttackBuffed()
    {
      currentAttack > baseAttack
    }

    predicate IsDefBuffed()
      ensures IsDefBuffed() ==> currentDefense != baseDefense
      ensures currentDefense < baseDefense ==> !IsDefBuffed()
      ensures currentDefense > baseDefense ==> IsDefBuffed()
    {
      currentDefense > baseDefense
    }

    predicate IsSpeedBuffed()
      ensures IsSpeedBuffed() ==> currentMoveSpeed != baseMoveSpeed
      ensures currentMoveSpeed < baseMoveSpeed ==> !IsSpeedBuffed()
      ensures currentMoveSpeed > baseMoveSpeed ==> IsSpeedBuffed()
    {
      currentMoveSpeed > baseMoveSpeed
    }
  }

  /** The `[Command]` methods of a hero: a client invokes them, the server
      executes them. */
  datatype Command =
    | CmdSetPlayerId(id: int)
    | CmdSetHeroType(heroType: HeroType)
    | CmdSetBaseSpeed(val: int)
    | CmdSetCurrentMoveSpeed(val: int)
    | CmdSetBaseDefense(val: int)
    | CmdSetCurrentDefense(val: int)
    | CmdSetBaseAttack(val: int)
    | CmdSetCurrentAttack(val: int)
    | CmdSetMaxHealth(val: int)
    | CmdSetFullHealth
    | CmdSetKnockedOut(knockedOut: bool)
    | CmdHeal(amount: int)
    | CmdTakeDamage(amount: int)
    | CmdSetModel(childIndex: int, heroType: HeroType, oldHeroIndex: int)

  /** What leaves a hero object for the network: a command for the server or
      a `[ClientRpc]` for the clients. */
  datatype Message =
    | Cmd(cmd: Command)
    | RpcSetcurr(val: int)
    | RpcSetModel(childIndex: int, heroType: HeroType, oldHeroIndex: int)

  /** `Mathf.Clamp` on integers: a value below `min` becomes `min`, otherwise
      a value above `max` becomes `max`. When `max < min` the result can be
      below `min`. */
  function Clamp(value: int, min: int, max: int): (r: int)
    ensures min <= max ==> min <= r <= max
    ensures min <= value <= max ==> r == value
    ensures value < min ==> r == min
    ensures min <= value && max < value ==> r == max
  {
    if value < min then min else if value > max then max else value
  }

  lemma ClampMonotone(v1: int, v2: int, min: int, max: int)
    requires v1 <= v2
    ensures Clamp(v1, min, max) <= Clamp(v2, min, max) || (max < min && v1 < min <= v2)
  {
  }

  function Abs(x: int): int {
    if x < 0 then -x else x
  }

  /** `num / den` rounded to the nearest integer, ties to the even one: how
      `Mathf.Round` rounds. */
  function RoundHalfEven(num: int, den: int): (r: int)
    requires den > 0
    ensures 2 * Abs(num - r * den) <= den
    ensures 2 * Abs(num - r * den) == den ==> r % 2 == 0
  {
    var q, rem := num / den, num % den;
    assert num == q * den + rem;
    assert (q + 1) * den == q * den + den;
    if 2 * rem < den then q
    else if 2 * rem > den then q + 1
    else if q % 2 == 0 then q
    else q + 1
  }

  /** The two properties in `RoundHalfEven`'s contract pick out one integer. */
  lemma {:induction false} RoundHalfEvenUnique(num: int, den: int, r: int)
    requires den > 0
    requires 2 * Abs(num - r * den) <= den
    requires 2 * Abs(num - r * den) == den ==> r % 2 == 0
    ensures r == RoundHalfEven(num, den)
  {
    var s := RoundHalfEven(num, den);
    if r < s {
      NearestApart(num, den, r, s);
    } else if s < r {
      NearestApart(num, den, s, r);
    }
  }

  /** Two integers below and above that are both within half a step of
      `num / den` are neighbours, and both lie exactly half a step away. */
  lemma NearestApart(num: int, den: int, lo: int, hi: int)
    requires den > 0 && lo < hi
    requires 2 * Abs(num - lo * den) <= den && 2 * Abs(num - hi * den) <= den
    ensures hi == lo + 1
    ensures 2 * Abs(num - lo * den) == den && 2 * Abs(num - hi * den) == den
  {
    assert (num - lo * den) - (num - hi * den) == (hi - lo) * den;
    if hi - lo >= 2 {
      MulMonotone(2, hi - lo, den);
    }
    assert hi - lo == 1;
    assert hi * den == lo * den + den;
  }

  lemma MulMonotone(a: int, b: int, c: int)
    requires a <= b && c >= 0
    ensures a * c <= b * c
  {
    assert b * c - a * c == (b - a) * c;
  }

  /** Rounding never reverses the order of two quotients with the same
      denominator. */
  lemma {:induction false} RoundHalfEvenMonotone(n1: int, n2: int, den: int)
    requires den > 0 && n1 <= n2
    ensures RoundHalfEven(n1, den) <= RoundHalfEven(n2, den)
  {
    var r1, r2 := RoundHalfEven(n1, den), RoundHalfEven(n2, den);
    if r1 > r2 {
      assert (r2 + 1) * den == r2 * den + den;
      MulMonotone(r2 + 1, r1, den);
    }
  }

  /** Fifty times the unclamped damage `amount * (1 - defense / 50)`. */
  function ScaledDamage(amount: int, defense: int): int {
    amount * (DefenseScale - defense)
  }

  /** The damage `CmdTakeDamage` subtracts: `amount * (1 - defense / 50)`
      computed exactly, clamped to [0, IntMax], rounded half to even. */
  function FinalDamage(amount: int, defense: int): (d: int)
    ensures 0 <= d <= IntMax
    ensures d > 0 <==> ScaledDamage(amount, defense) > 25
    ensures 0 <= ScaledDamage(amount, defense) <= DefenseScale * IntMax ==>
              2 * Abs(ScaledDamage(amount, defense) - d * DefenseScale) <= DefenseScale
    ensures 0 <= ScaledDamage(amount, defense) <= DefenseScale * IntMax &&
            ScaledDamage(amount, defense) % DefenseScale == 0 ==>
              d == ScaledDamage(amount, defense) / DefenseScale
  {
    var scaled := ScaledDamage(amount, defense);
    if scaled < 0 then 0
    else if scaled > DefenseScale * IntMax then IntMax
    else
      var d := RoundHalfEven(scaled, DefenseScale);
      assert d <= IntMax by {
        RoundHalfEvenMonotone(scaled, DefenseScale * IntMax, DefenseScale);
        RoundHalfEvenUnique(DefenseScale * IntMax, DefenseScale, IntMax);
      }
      assert scaled % DefenseScale == 0 ==> d == scaled / DefenseScale by {
        if scaled % DefenseScale == 0 {
          RoundHalfEvenUnique(scaled, DefenseScale, scaled / DefenseScale);
        }
      }
      d
  }

  /** Against an attack of non-negative strength, more defense never means
      more damage. */
  lemma DefenseReducesDamage(amount: int, def1: int, def2: int)
    requires amount >= 0 && def1 <= def2
    ensures FinalDamage(amount, def2) <= FinalDamage(amount, def1)
  {
    var s1, s2 := ScaledDamage(amount, def1), ScaledDamage(amount, def2);
    assert s1 - s2 == amount * (def2 - def1);
    MulMonotone(0, amount, def2 - def1);
    if 0 <= s2 && s1 <= DefenseScale * IntMax {
      RoundHalfEvenMonotone(s2, s1, DefenseScale);
    }
  }

  /** The defense cases of the damage rule. */
  lemma DefenseCases(amount: int, defense: int)
    ensures defense == DefenseScale ==> FinalDamage(amount, defense) == 0
    ensures amount >= 0 && defense >= DefenseScale ==> FinalDamage(amount, defense) == 0
    ensures defense == 0 && 0 <= amount <= IntMax ==> FinalDamage(amount, defense) == amount
    ensures amount < 0 && defense > DefenseScale ==>
              ScaledDamage(amount, defense) > 0 &&
              (FinalDamage(amount, defense) > 0 <==> (-amount) * (defense - DefenseScale) > 25)
  {
    if amount >= 0 && defense >= DefenseScale {
      MulMonotone(0, amount, defense - DefenseScale);
    }
    if amount < 0 && defense > DefenseScale {
      MulMonotone(1, -amount, defense - DefenseScale);
    }
  }

  /** Exact ties: 5 * (1 - 45/50) and -5 * (1 - 55/50) are exactly one half,
      which rounds to the even 0. In single precision both products come out
      just above one half and round to 1. */
  lemma ExactTiesRoundToZero()
    ensures FinalDamage(5, 45) == 0 && FinalDamage(-5, 55) == 0
  {
  }

  /** The server's execution of `CmdTakeDamage(amount)`. */
  function TakeDamage(s: Stats, amount: int): (r: Stats)
    ensures s.isKnockedOut ==> r == s
    ensures r == s.(currentHealth := r.currentHealth)
    ensures !s.isKnockedOut && s.maxHealth >= 0 ==> r.HealthInRange()
    ensures s.HealthInRange() ==> r.currentHealth <= s.currentHealth
    ensures !s.isKnockedOut && s.HealthInRange() ==>
              r.currentHealth == if s.currentHealth >= FinalDamage(amount, s.currentDefense)
                                 then s.currentHealth - FinalDamage(amount, s.currentDefense)
                                 else 0
    ensures !s.isKnockedOut && s.maxHealth >= 0 &&
            0 <= s.currentHealth - FinalDamage(amount, s.currentDefense) <= s.maxHealth ==>
              r.currentHealth == s.currentHealth - FinalDamage(amount, s.currentDefense)
    ensures !s.isKnockedOut && s.maxHealth >= 0 &&
            s.currentHealth - FinalDamage(amount, s.currentDefense) > s.maxHealth ==>
              r.currentHealth == s.maxHealth
    ensures !s.isKnockedOut && s.currentHealth - FinalDamage(amount, s.currentDefense) < 0 ==>
              r.currentHealth == 0
  {
    if s.isKnockedOut then s
    else
      var health := s.currentHealth - FinalDamage(amount, s.currentDefense);
      s.(currentHealth := Clamp(health, 0, s.maxHealth))
  }

  /** With health in range, a hero with more defense ends at least as healthy. */
  lemma DefenseNeverHurts(s: Stats, amount: int, def1: int, def2: int)
    requires amount >= 0 && def1 <= def2
    requires s.HealthInRange()
    ensures TakeDamage(s.(currentDefense := def1), amount).currentHealth
            <= TakeDamage(s.(currentDefense := def2), amount).currentHealth
  {
    DefenseReducesDamage(amount, def1, def2);
  }

  /** The server's execution of `CmdHeal(amount)`, and the local part of `Heal`. */
  function Heal(s: Stats, amount: int): (r: Stats)
    ensures r == s.(currentHealth := r.currentHealth)
    ensures s.maxHealth >= 0 ==> r.HealthInRange()
    ensures s.HealthInRange() && amount >= 0 ==> r.currentHealth >= s.currentHealth
    ensures s.maxHealth >= 0 && 0 <= s.currentHealth + amount <= s.maxHealth ==>
              r.currentHealth == s.currentHealth + amount
    ensures s.maxHealth >= 0 && s.currentHealth + amount > s.maxHealth ==> r.currentHealth == s.maxHealth
    ensures s.currentHealth + amount < 0 ==> r.currentHealth == 0
  {
    s.(currentHealth := Clamp(s.currentHealth + amount, 0, s.maxHealth))
  }

  /** The stats after the server executes a command. A setter establishes the
      value it assigns; no command touches the score, and only `CmdSetModel`
      touches the model index. */
  function Apply(s: Stats, c: Command): (r: Stats)
    ensures IsSetter(c) ==> Holds(r, c)
    ensures r.score == s.score
    ensures !c.CmdSetModel? ==> r.heroIndex == s.heroIndex
  {
    match c
    case CmdSetPlayerId(id) => s.(playerId := id)
    case CmdSetHeroType(t) => s.(heroType := t)
    case CmdSetBaseSpeed(v) => s.(baseMoveSpeed := v, currentMoveSpeed := v)
    case CmdSetCurrentMoveSpeed(v) => s.(currentMoveSpeed := v)
    case CmdSetBaseDefense(v) => s.(baseDefense := v, currentDefense := v)
    case CmdSetCurrentDefense(v) => s.(currentDefense := v)
    case CmdSetBaseAttack(v) => s.(baseAttack := v, currentAttack := v)
    case CmdSetCurrentAttack(v) => s.(currentAttack := v)
    case CmdSetMaxHealth(v) => s.(maxHealth := v)
    case CmdSetFullHealth => s.(currentHealth := s.maxHealth)
    case CmdSetKnockedOut(b) => s.(isKnockedOut := b)
    case CmdHeal(amount) => Heal(s, amount)
    case CmdTakeDamage(amount) => TakeDamage(s, amount)
    case CmdSetModel(childIndex, t, _) => WithModel(s, childIndex, t)
  }

  /** The stat updates of `LocalSetModel`: the active model index and the hero type. */
  function WithModel(s: Stats, childIndex: int, t: HeroType): (r: Stats)
    ensures r.heroIndex == childIndex && r.heroType == t
    ensures r.(heroIndex := s.heroIndex, heroType := s.heroType) == s
  {
    s.(heroIndex := childIndex, heroType := t)
  }

  /** `CmdSetModel` as the source writes it: it hands `LocalSetModel` the
      field `heroType` instead of its parameter, and forwards the same field
      to the clients, so the chosen hero type never reaches the server. The
      result is the server's stats and the `RpcSetModel` it sends. */
  function CmdSetModelAsWritten(s: Stats, childIndex: int, t: HeroType, oldHeroIndex: int): (r: (Stats, Message))
    ensures r.0.heroIndex == childIndex && r.0.heroType == s.heroType
    ensures r.0.(heroIndex := s.heroIndex) == s
    ensures r.1 == Message.RpcSetModel(childIndex, s.heroType, oldHeroIndex)
  {
    (WithModel(s, childIndex, s.heroType), Message.RpcSetModel(childIndex, s.heroType, oldHeroIndex))
  }

  /** `RpcSetModel` as the source writes it, on a copy whose own stats are
      `s`: a copy other than the local player switches model index but keeps
      its own hero type, whatever type the message carries. */
  function RpcSetModelAsWritten(s: Stats, isLocalPlayer: bool, childIndex: int, t: HeroType): (r: Stats)
    ensures r.heroType == s.heroType
    ensures isLocalPlayer ==> r == s
    ensures !isLocalPlayer ==> r.heroIndex == childIndex && r.(heroIndex := s.heroIndex) == s
  {
    if isLocalPlayer then s else WithModel(s, childIndex, s.heroType)
  }

  /** The as-written `CmdSetModel` and `RpcSetModel` leave the hero type
      behind the owner's: an owner of hero type 0 that picks model 2 of type 2
      still has type 0 on the server, and the server's forwarded message
      carries type 0, so another client's copy of that hero keeps type 0 as
      well. The corrected `Apply` reaches the owner's state. */
  lemma CmdSetModelAsWrittenLosesType()
    ensures var s := Stats(100, 5, 10, 10, 100, 10, 10, 5, 1, HeroType(0), false, 0, 0);
            var local := WithModel(s, 2, HeroType(2));
            var (server, rpc) := CmdSetModelAsWritten(s, 2, HeroType(2), 0);
            && server != local && server.heroType == HeroType(0)
            && rpc == Message.RpcSetModel(2, HeroType(0), 0)
            && RpcSetModelAsWritten(s, false, 2, HeroType(2)).heroType == HeroType(0)
            && RpcSetModelAsWritten(s, false, 2, HeroType(2)) != local
            && Apply(s, CmdSetModel(2, HeroType(2), 0)) == local
  {
  }

  /** The server, executing the `CmdSetModel` its owner sent, arrives at the
      owner's own stats after `SetModel`. */
  lemma SetModelReplicates(s: Stats, childIndex: int, t: HeroType, oldHeroIndex: int)
    ensures Apply(s, CmdSetModel(childIndex, t, oldHeroIndex)) == WithModel(s, childIndex, t)
    ensures Apply(s, CmdSetModel(childIndex, t, oldHeroIndex)).heroType == t
  {
  }

  /** The commands that assign a value, as opposed to `CmdHeal` and
      `CmdTakeDamage`, which change health relative to its old value. */
  predicate IsSetter(c: Command) {
    !c.CmdHeal? && !c.CmdTakeDamage?
  }

  /** The stats already hold what setter `c` assigns. */
  predicate Holds(s: Stats, c: Command)
    requires IsSetter(c)
  {
    match c
    case CmdSetPlayerId(id) => s.playerId == id
    case CmdSetHeroType(t) => s.heroType == t
    case CmdSetBaseSpeed(v) => s.baseMoveSpeed == v && s.currentMoveSpeed == v
    case CmdSetCurrentMoveSpeed(v) => s.currentMoveSpeed == v
    case CmdSetBaseDefense(v) => s.baseDefense == v && s.currentDefense == v
    case CmdSetCurrentDefense(v) => s.currentDefense == v
    case CmdSetBaseAttack(v) => s.baseAttack == v && s.currentAttack == v
    case CmdSetCurrentAttack(v) => s.currentAttack == v
    case CmdSetMaxHealth(v) => s.maxHealth == v
    case CmdSetFullHealth => s.currentHealth == s.maxHealth
    case CmdSetKnockedOut(b) => s.isKnockedOut == b
    case CmdSetModel(childIndex, t, _) => s.heroIndex == childIndex && s.heroType == t
  }

  /** A setter command establishes what it assigns, and re-executing it on
      stats that already hold the value changes nothing; so a duplicated
      setter command is harmless. */
  lemma SetterIdempotent(s: Stats, c: Command)
    requires IsSetter(c)
    ensures Holds(Apply(s, c), c)
    ensures Holds(s, c) <==> Apply(s, c) == s
    ensures Apply(Apply(s, c), c) == Apply(s, c)
  {
  }

  /** `CmdHeal` is not a setter: delivering it twice heals twice. */
  lemma HealTwiceHealsTwice()
    ensures var s := Stats(100, 5, 10, 10, 50, 10, 10, 5, 1, HeroType(0), false, 0, 0);
            Apply(Apply(s, CmdHeal(10)), CmdHeal(10)) != Apply(s, CmdHeal(10))
  {
  }

  /** Setting a base stat sets the current stat with it, so the matching
      buff test is false afterwards. */
  lemma BaseSettersClearBuff(s: Stats, v: int)
    ensures !Apply(s, CmdSetBaseAttack(v)).IsAttackBuffed()
    ensures !Apply(s, CmdSetBaseDefense(v)).IsDefBuffed()
    ensures !Apply(s, CmdSetBaseSpeed(v)).IsSpeedBuffed()
  {
  }

  /** The network object of one hero. `hasAuthority` and `isServer` are the
      roles of this copy; `outbox` records, in order, every command and
      client RPC this copy has sent; `movementSpeed` is the speed last handed
      to the hero's CharacterMovement. */
  class HeroModel {
    const hasAuthority: bool
    const isServer: bool
    const isLocalPlayer: bool

    var maxHealth: int
    var baseMoveSpeed: int
    var baseDefense: int
    var baseAttack: int
    var currentHealth: int
    var currentDefense: int
    var currentAttack: int
    var currentMoveSpeed: int
    var playerId: int
    var heroType: HeroType
    var isKnockedOut: bool
    var score: int
    var heroIndex: int

    var movementSpeed: int
    var outbox: seq<Message>

    /** The synchronised fields as one value. */
    function State(): Stats
      reads this
    {
      Stats(maxHealth, baseMoveSpeed, baseDefense, baseAttack,
            currentHealth, currentDefense, currentAttack, currentMoveSpeed,
            playerId, heroType, isKnockedOut, score, heroIndex)
    }

    /** A fresh component: every field at its C# default. */
    constructor (hasAuthority: bool, isServer: bool, isLocalPlayer: bool)
      ensures this.hasAuthority == hasAuthority && this.isServer == isServer
      ensures this.isLocalPlayer == isLocalPlayer
      ensures State() == Stats(0, 0, 0, 0, 0, 0, 0, 0, 0, HeroType(0), false, 0, 0)
      ensures movementSpeed == 0 && outbox == []
    {
      this.hasAuthority, this.isServer, this.isLocalPlayer := hasAuthority, isServer, isLocalPlayer;
      maxHealth, baseMoveSpeed, baseDefense, baseAttack := 0, 0, 0, 0;
      currentHealth, currentDefense, currentAttack, currentMoveSpeed := 0, 0, 0, 0;
      playerId, heroType, isKnockedOut, score, heroIndex := 0, HeroType(0), false, 0, 0;
      movementSpeed, outbox := 0, [];
    }

    /** An authority-guarded setter whose server-side command is `c`: without
        authority nothing changes; with authority the stats become what the
        server makes of them when it executes `c`, and a copy that is not the
        server sends `c`. */
    twostate predicate GuardedSet(c: Command)
      reads this
    {
      && State() == (if hasAuthority then Apply(old(State()), c) else old(State()))
      && outbox == old(outbox) + (if hasAuthority && !isServer then [Cmd(c)] else [])
    }

    /** A `[Command]` body running on the server: the stats change as `Apply`
        says and nothing is sent. */
    twostate predicate Executed(c: Command)
      reads this
    {
      && State() == Apply(old(State()), c)
      && outbox == old(outbox)
      && movementSpeed == old(movementSpeed)
    }

    /** `Start`: with authority, reset score, knock-out and model index, create
        the movement component at speed 0 and take the local player's id. */
    method Start(localPlayerId: int)
      modifies this
      ensures !hasAuthority ==> State() == old(State()) && movementSpeed == old(movementSpeed)
      ensures hasAuthority ==> State() == old(State()).(score := 0, isKnockedOut := false,
                                                         heroIndex := 0, playerId := localPlayerId)
      ensures hasAuthority ==> movementSpeed == 0
      ensures outbox == old(outbox) + (if hasAuthority && !isServer then [Cmd(Command.CmdSetPlayerId(localPlayerId))] else [])
    {
      if !hasAuthority {
        return;
      }
      movementSpeed := 0;
      score := 0;
      isKnockedOut := false;
      heroIndex := 0;
      SetPlayerId(localPlayerId);
    }

    method CmdTakeDamage(amount: int)
      modifies this
      ensures Executed(Command.CmdTakeDamage(amount))
    {
      if isKnockedOut {
        return;
      }
      var damage := FinalDamage(amount, currentDefense);
      currentHealth := currentHealth - damage;
      currentHealth := Clamp(currentHealth, 0, maxHealth);
    }

    method Heal(amount: int)
      modifies this
      ensures GuardedSet(Command.CmdHeal(amount)) && movementSpeed == old(movementSpeed)
    {
      if !hasAuthority {
        return;
      }
      currentHealth := currentHealth + amount;
      currentHealth := Clamp(currentHealth, 0, maxHealth);
      if !isServer {
        outbox := outbox + [Cmd(Command.CmdHeal(amount))];
      }
    }

    method CmdHeal(amount: int)
      modifies this
      ensures Executed(Command.CmdHeal(amount))
    {
      currentHealth := currentHealth + amount;
      currentHealth := Clamp(currentHealth, 0, maxHealth);
    }

    predicate IsAttackBuffed()
      reads this
      ensures IsAttackBuffed() ==> currentAttack != baseAttack
      ensures currentAttack < baseAttack ==> !IsAttackBuffed()
      ensures currentAttack > baseAttack ==> IsAttackBuffed()
    {
      State().IsAttackBuffed()
    }

    predicate IsDefBuffed()
      reads this
      ensures IsDefBuffed() ==> currentDefense != baseDefense
      ensures currentDefense < baseDefense ==> !IsDefBuffed()
      ensures currentDefense > baseDefense ==> IsDefBuffed()
    {
      State().IsDefBuffed()
    }

    predicate IsSpeedBuffed()
      reads this
      ensures IsSpeedBuffed() ==> currentMoveSpeed != baseMoveSpeed
      ensures currentMoveSpeed < baseMoveSpeed ==> !IsSpeedBuffed()
      ensures currentMoveSpeed > baseMoveSpeed ==> IsSpeedBuffed()
    {
      State().IsSpeedBuffed()
    }

    method SetPlayerId(id: int)
      modifies this
      ensures GuardedSet(Command.CmdSetPlayerId(id)) && movementSpeed == old(movementSpeed)
    {
      if !hasAuthority {
        return;
      }
      playerId := id;
      if !isServer {
        outbox := outbox + [Cmd(Command.CmdSetPlayerId(id))];
      }
    }

    method CmdSetPlayerId(id: int)
      modifies this
      ensures Executed(Command.CmdSetPlayerId(id))
    {
      playerId := id;
    }

    method SetHeroType(t: HeroType)
      modifies this
      ensures GuardedSet(Command.CmdSetHeroType(t)) && movementSpeed == old(movementSpeed)
    {
      if !hasAuthority {
        return;
      }
      heroType := t;
      if !isServer {
        outbox := outbox + [Cmd(Command.CmdSetHeroType(t))];
      }
    }

    method CmdSetHeroType(t: HeroType)
      modifies this
      ensures Executed(Command.CmdSetHeroType(t))
    {
      heroType := t;
    }

    method SetBaseMoveSpeed(val: int)
      modifies this
      ensures GuardedSet(Command.CmdSetBaseSpeed(val))
      ensures movementSpeed == if hasAuthority then val else old(movementSpeed)
      ensures hasAuthority ==> !IsSpeedBuffed()
    {
      if !hasAuthority {
        return;
      }
      baseMoveSpeed := val;
      currentMoveSpeed := val;
      movementSpeed := val;
      if !isServer {
        outbox := outbox + [Cmd(Command.CmdSetBaseSpeed(val))];
      }
    }

    method CmdSetBaseSpeed(val: int)
      modifies this
      ensures Executed(Command.CmdSetBaseSpeed(val))
    {
      baseMoveSpeed := val;
      currentMoveSpeed := val;
    }

    /** The one setter that writes its field before the authority test: a copy
        without authority keeps the value and forwards it to the clients by
        RPC. */
    method SetCurrentMoveSpeed(val: int)
      modifies this
      ensures State() == Apply(old(State()), Command.CmdSetCurrentMoveSpeed(val))
      ensures movementSpeed == if hasAuthority then val else old(movementSpeed)
      ensures outbox == old(outbox) + if !hasAuthority then [Message.RpcSetcurr(val)]
                                      else if !isServer then [Cmd(Command.CmdSetCurrentMoveSpeed(val))]
                                      else []
    {
      currentMoveSpeed := val;
      if !hasAuthority {
        outbox := outbox + [Message.RpcSetcurr(val)];
        return;
      }
      movementSpeed := val;
      if !isServer {
        outbox := outbox + [Cmd(Command.CmdSetCurrentMoveSpeed(val))];
      }
    }

    /** A client receiving `RpcSetcurr`: only the owner applies the speed to
        its movement component. */
    method RpcSetcurr(val: int)
      modifies this
      ensures State() == old(State()) && outbox == old(outbox)
      ensures movementSpeed == if hasAuthority then val else old(movementSpeed)
    {
      if !hasAuthority {
        return;
      }
      movementSpeed := val;
    }

    method CmdSetCurrentMoveSpeed(val: int)
      modifies this
      ensures Executed(Command.CmdSetCurrentMoveSpeed(val))
    {
      currentMoveSpeed := val;
    }

    method SetBaseDefense(val: int)
      modifies this
      ensures GuardedSet(Command.CmdSetBaseDefense(val)) && movementSpeed == old(movementSpeed)
      ensures hasAuthority ==> !IsDefBuffed()
    {
      if !hasAuthority {
        return;
      }
      baseDefense := val;
      currentDefense := val;
      if !isServer {
        outbox := outbox + [Cmd(Command.CmdSetBaseDefense(val))];
      }
    }

    method CmdSetBaseDefense(val: int)
      modifies this
      ensures Executed(Command.CmdSetBaseDefense(val))
    {
      baseDefense := val;
      currentDefense := val;
    }

    method SetCurrentDefense(val: int)
      modifies this
      ensures GuardedSet(Command.CmdSetCurrentDefense(val)) && movementSpeed == old(movementSpeed)
    {
      if !hasAuthority {
        return;
      }
      currentDefense := val;
      if !isServer {
        outbox := outbox + [Cmd(Command.CmdSetCurrentDefense(val))];
      }
    }

    method CmdSetCurrentDefense(val: int)
      modifies this
      ensures Executed(Command.CmdSetCurrentDefense(val))
    {
      currentDefense := val;
    }

    method SetBaseAttack(val: int)
      modifies this
      ensures GuardedSet(Command.CmdSetBaseAttack(val)) && movementSpeed == old(movementSpeed)
      ensures hasAuthority ==> !IsAttackBuffed()
    {
      if !hasAuthority {
        return;
      }
      baseAttack := val;
      currentAttack := val;
      if !isServer {
        outbox := outbox + [Cmd(Command.CmdSetBaseAttack(val))];
      }
    }

    method CmdSetBaseAttack(val: int)
      modifies this
      ensures Executed(Command.CmdSetBaseAttack(val))
    {
      baseAttack := val;
      currentAttack := val;
    }

    method SetCurrentAttack(val: int)
      modifies this
      ensures GuardedSet(Command.CmdSetCurrentAttack(val)) && movementSpeed == old(movementSpeed)
    {
      if !hasAuthority {
        return;
      }
      currentAttack := val;
      if !isServer {
        outbox := outbox + [Cmd(Command.CmdSetCurrentAttack(val))];
      }
    }

    method CmdSetCurrentAttack(val: int)
      modifies this
      ensures Executed(Command.CmdSetCurrentAttack(val))
    {
      currentAttack := val;
    }

    /** Note that the current health is not re-clamped to the new maximum. */
    method SetMaxHealth(val: int)
      modifies this
      ensures GuardedSet(Command.CmdSetMaxHealth(val)) && movementSpeed == old(movementSpeed)
    {
      if !hasAuthority {
        return;
      }
      maxHealth := val;
      if !isServer {
        outbox := outbox + [Cmd(Command.CmdSetMaxHealth(val))];
      }
    }

    method CmdSetMaxHealth(val: int)
      modifies this
      ensures Executed(Command.CmdSetMaxHealth(val))
    {
      maxHealth := val;
    }

    method SetFullHealth()
      modifies this
      ensures GuardedSet(Command.CmdSetFullHealth) && movementSpeed == old(movementSpeed)
      ensures hasAuthority ==> currentHealth == maxHealth
    {
      if !hasAuthority {
        return;
      }
      currentHealth := maxHealth;
      if !isServer {
        outbox := outbox + [Cmd(Command.CmdSetFullHealth)];
      }
    }

    method CmdSetFullHealth()
      modifies this
      ensures Executed(Command.CmdSetFullHealth)
    {
      currentHealth := maxHealth;
    }

    method SetKnockedOut(knockedOut: bool)
      modifies this
      ensures GuardedSet(Command.CmdSetKnockedOut(knockedOut)) && movementSpeed == old(movementSpeed)
    {
      if !hasAuthority {
        return;
      }
      isKnockedOut := knockedOut;
      if !isServer {
        outbox := outbox + [Cmd(Command.CmdSetKnockedOut(knockedOut))];
      }
    }

    method CmdSetKnockedOut(knockedOut: bool)
      modifies this
      ensures Executed(Command.CmdSetKnockedOut(knockedOut))
    {
      isKnockedOut := knockedOut;
    }

    /** Not guarded by authority, and nothing is sent: every copy that calls it
        raises its own score. */
    method IncreaseScore(amount: int)
      modifies this
      ensures State() == old(State()).(score := old(score) + amount)
      ensures outbox == old(outbox) && movementSpeed == old(movementSpeed)
    {
      score := score + amount;
    }

    /** `SetModel`: with authority, switch to the chosen model locally, then
        tell the clients (on the server) or the server (on a client). */
    method SetModel(childIndex: int, t: HeroType)
      modifies this
      ensures !hasAuthority ==> State() == old(State()) && outbox == old(outbox)
      ensures hasAuthority ==> State() == WithModel(old(State()), childIndex, t)
      ensures hasAuthority ==> outbox == old(outbox) + if isServer then [Message.RpcSetModel(childIndex, t, old(heroIndex))]
                                                      else [Cmd(Command.CmdSetModel(childIndex, t, old(heroIndex)))]
      ensures movementSpeed == old(movementSpeed)
    {
      if !hasAuthority {
        return;
      }
      var oldHeroIndex := heroIndex;
      LocalSetModel(childIndex, t);
      if isServer {
        outbox := outbox + [Message.RpcSetModel(childIndex, t, oldHeroIndex)];
      } else {
        outbox := outbox + [Cmd(Command.CmdSetModel(childIndex, t, oldHeroIndex))];
      }
    }

    /** The server's `CmdSetModel`, with the hero type it receives passed on
        (see `CmdSetModelAsWritten`): apply locally, then forward to the clients. */
    method CmdSetModel(childIndex: int, t: HeroType, oldHeroIndex: int)
      modifies this
      ensures State() == Apply(old(State()), Command.CmdSetModel(childIndex, t, oldHeroIndex))
      ensures outbox == old(outbox) + [Message.RpcSetModel(childIndex, t, oldHeroIndex)]
      ensures movementSpeed == old(movementSpeed)
    {
      LocalSetModel(childIndex, t);
      outbox := outbox + [Message.RpcSetModel(childIndex, t, oldHeroIndex)];
    }

    /** A client receiving `RpcSetModel`, with the hero type it carries
        applied (see `RpcSetModelAsWritten`); the local player already
        switched. */
    method RpcSetModel(childIndex: int, t: HeroType, oldHeroIndex: int)
      modifies this
      ensures State() == if isLocalPlayer then old(State()) else WithModel(old(State()), childIndex, t)
      ensures outbox == old(outbox) && movementSpeed == old(movementSpeed)
    {
      if isLocalPlayer {
        return;
      }
      LocalSetModel(childIndex, t);
    }

    /** The field updates of `LocalSetModel`; the model objects it switches on
        and off belong to the scene. */
    method LocalSetModel(childIndex: int, t: HeroType)
      modifies this
      ensures State() == WithModel(old(State()), childIndex, t)
      ensures outbox == old(outbox) && movementSpeed == old(movementSpeed)
    {
      heroIndex := childIndex;
      heroType := t;
    }
  }

  /** A server-side hero with 100 health and no defense: a 40-point hit
      leaves 60. */
  method NoDefenseScenario() returns (health: int)
    ensures health == 60
  {
    var h := new HeroModel(true, true, true);
    h.SetMaxHealth(100);
    assert h.maxHealth == 100 && h.currentHealth == 0 && !h.isKnockedOut;
    h.SetFullHealth();
    assert h.currentHealth == 100;
    h.SetBaseDefense(0);
    assert h.State().HealthInRange() && !h.isKnockedOut && h.currentDefense == 0;
    DefenseCases(40, 0);
    h.CmdTakeDamage(40);
    health := h.currentHealth;
  }

  /** A server-side hero with 100 health and defense 50: a 100-point hit
      leaves the health at 100. */
  method FullDefenseScenario() returns (health: int)
    ensures health == 100
  {
    var h := new HeroModel(true, true, true);
    h.SetMaxHealth(100);
    assert h.maxHealth == 100 && h.currentHealth == 0 && !h.isKnockedOut;
    h.SetFullHealth();
    assert h.currentHealth == 100;
    h.SetBaseDefense(50);
    assert h.State().HealthInRange() && !h.isKnockedOut && h.currentDefense == 50;
    DefenseCases(100, 50);
    h.CmdTakeDamage(100);
    health := h.currentHealth;
  }
}
