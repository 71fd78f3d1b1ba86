/** The lobby before a match (PrephaseManager.cs): a phase, a countdown with
    -1 meaning "not counting", and the once-per-second countdown coroutine. */
module Prephase {

  datatype PrephaseState = WaitingForPlayers | RoomFull | NotActive

  /** The countdown value while the pre-phase is not active. */
  const Inactive: int := -1

  /** The countdown the waiting room starts from, in seconds. */
  const CountdownStart: int := 300

  /** The manager of one copy. `countdownRunning` says that a
      `DecreaseCountdownTimer` coroutine is suspended in its one-second wait;
      `Tick` is the engine resuming it. */
  class PrephaseManager {
    const isServer: bool
    var state: PrephaseState
    var countdown: int
    var countdownRunning: bool

    /** Only the server starts the countdown coroutine. */
    ghost predicate Valid()
      reads this
    {
      countdownRunning ==> isServer
    }

    /** A fresh component: the phase at the enumeration's first value, the
        countdown at 0 and no coroutine. */
    constructor (isServer: bool)
      ensures Valid() && this.isServer == isServer
      ensures state == WaitingForPlayers && countdown == 0 && !countdownRunning
    {
      this.isServer := isServer;
      state, countdown, countdownRunning := WaitingForPlayers, 0, false;
    }

    method Start()
      requires Valid()
      modifies this
      ensures Valid() && countdownRunning == old(countdownRunning)
      ensures isServer ==> state == NotActive && countdown == Inactive
      ensures !isServer ==> state == old(state) && countdown == old(countdown)
    {
      if !isServer {
        return;
      }
      state := NotActive;
      countdown := Inactive;
    }

    /** Whether the match is still in its pre-phase. */
    function IsCurrentlyInPrephase(): (inPrephase: bool)
      reads this
      ensures inPrephase <==> state == WaitingForPlayers || state == RoomFull
      ensures !inPrephase <==> state == NotActive
    {
      state != NotActive
    }

    /** On the server, a full room moves the phase to `RoomFull` and starts the
        countdown. A countdown that is not positive ends the pre-phase at once,
        without a decrement. */
    method UpdatePrephase(numPlayers: int, maxPlayers: int)
      requires Valid()
      modifies this
      ensures Valid()
      ensures !(isServer && numPlayers >= maxPlayers) ==>
                state == old(state) && countdown == old(countdown) && countdownRunning == old(countdownRunning)
      ensures isServer && numPlayers >= maxPlayers && old(countdown) > 0 ==>
                state == RoomFull && countdown == old(countdown) && countdownRunning
      ensures isServer && numPlayers >= maxPlayers && old(countdown) <= 0 ==>
                state == NotActive && countdown == Inactive && countdownRunning == old(countdownRunning)
    {
      if !isServer {
        return;
      }
      if numPlayers >= maxPlayers {
        state := RoomFull;
        StartCountdown();
      }
    }

    /** `StartCoroutine(DecreaseCountdownTimer())` up to the coroutine's first
        suspension: with a positive countdown it reaches the wait inside the
        loop; otherwise the loop is skipped and the pre-phase ends. */
    method StartCountdown()
      requires Valid() && isServer
      modifies this
      ensures Valid()
      ensures old(countdown) > 0 ==> countdownRunning && state == old(state) && countdown == old(countdown)
      ensures old(countdown) <= 0 ==>
                countdownRunning == old(countdownRunning) && state == NotActive && countdown == Inactive
    {
      if countdown > 0 {
        countdownRunning := true;
      } else {
        EndPrephase();
      }
    }

    /** The waiting room: whatever the role, the phase becomes
        `WaitingForPlayers` and the countdown 300 (the `yield return null` a
        client meets first does not leave the coroutine). */
    method StartPrephaseWaitingRoom()
      requires Valid()
      modifies this
      ensures Valid() && countdownRunning == old(countdownRunning)
      ensures state == WaitingForPlayers && countdown == CountdownStart
    {
      state := WaitingForPlayers;
      countdown := CountdownStart;
    }

    method EndPrephase()
      requires Valid()
      modifies this
      ensures Valid() && countdownRunning == old(countdownRunning)
      ensures isServer ==> state == NotActive && countdown == Inactive
      ensures !isServer ==> state == old(state) && countdown == old(countdown)
    {
      if !isServer {
        return;
      }
      state := NotActive;
      countdown := Inactive;
    }

    /** One second passes: a suspended countdown decrements by exactly one and
        waits again while it is still positive; otherwise it ends the pre-phase
        and the coroutine finishes. */
    method Tick()
      requires Valid()
      modifies this
      ensures Valid()
      ensures !old(countdownRunning) ==>
                state == old(state) && countdown == old(countdown) && !countdownRunning
      ensures old(countdownRunning) && old(countdown) - 1 > 0 ==>
                countdownRunning && state == old(state) && countdown == old(countdown) - 1
      ensures old(countdownRunning) && old(countdown) - 1 <= 0 ==>
                !countdownRunning && state == NotActive && countdown == Inactive
    {
      if !countdownRunning {
        return;
      }
      countdown := countdown - 1;
      if countdown <= 0 {
        countdownRunning := false;
        EndPrephase();
      }
    }

    /** The rest of `DecreaseCountdownTimer`: tick until the coroutine
        finishes. A countdown from `n > 0` takes exactly `n` ticks; one that is
        no longer positive (reset meanwhile) takes one. */
    method RunCountdown() returns (ticks: nat)
      requires Valid()
      modifies this
      ensures Valid() && !countdownRunning
      ensures !old(countdownRunning) ==> ticks == 0 && state == old(state) && countdown == old(countdown)
      ensures old(countdownRunning) ==>
                ticks == (if old(countdown) > 1 then old(countdown) else 1) &&
                state == NotActive && countdown == Inactive
    {
      ticks := 0;
      while countdownRunning
        invariant Valid()
        invariant !old(countdownRunning) ==>
                    ticks == 0 && state == old(state) && countdown == old(countdown) && !countdownRunning
        invariant old(countdownRunning) && old(countdown) > 0 && countdownRunning ==>
                    countdown > 0 && ticks == old(countdown) - countdown
        invariant old(countdownRunning) && old(countdown) <= 0 && countdownRunning ==>
                    ticks == 0 && countdown == old(countdown)
        invariant old(countdownRunning) && !countdownRunning ==>
                    ticks == (if old(countdown) > 1 then old(countdown) else 1) &&
                    state == NotActive && countdown == Inactive
        decreases countdownRunning, if countdown > 0 then countdown else 0
      {
        Tick();
        ticks := ticks + 1;
      }
    }
  }

  /** A two-player lobby on the server: one player waits, the second fills the
      room, the countdown starts at 300 and, 300 ticks later, the pre-phase is
      over with the countdown back at -1. */
  method LobbyScenario() returns (waiting: PrephaseState, full: PrephaseState, startedAt: int,
                                  ticks: nat, ended: PrephaseState, endedAt: int)
    ensures waiting == WaitingForPlayers && full == RoomFull && startedAt == 300
    ensures ticks == 300 && ended == NotActive && endedAt == -1
  {
    var m := new PrephaseManager(true);
    m.Start();
    m.StartPrephaseWaitingRoom();
    m.UpdatePrephase(1, 2);
    waiting := m.state;
    m.UpdatePrephase(2, 2);
    full, startedAt := m.state, m.countdown;
    ticks := m.RunCountdown();
    ended, endedAt := m.state, m.countdown;
  }

  /** A full room before the waiting room was opened: the countdown is still
      -1, so the pre-phase ends at once and no coroutine is left running. */
  method FullBeforeWaitingScenario() returns (ended: PrephaseState, endedAt: int, running: bool)
    ensures ended == NotActive && endedAt == -1 && !running
  {
    var m := new PrephaseManager(true);
    m.Start();
    m.UpdatePrephase(2, 2);
    ended, endedAt, running := m.state, m.countdown, m.countdownRunning;
  }
}
