/**
 * The round lifecycle of one game: a finite machine over five states whose
 * context holds the team name, the resolved deviation and score, the time the
 * round was started and the latency compensation. An event is first handled
 * by the current state (or by the two handlers every state shares), and then
 * the guard-only transitions between the two name states are settled.
 */
module GameMachine {
  import opened Wrappers
  import opened Scoring

  /** The instant, in milliseconds after the song starts, a team aims to hit. */
  const IdealHitTimestampAfterStart: int := 19000

  /** The compensation a machine starts with when none is supplied, and the one a reset installs. */
  const DefaultLatencyCompensation: int := 20

  datatype State =
    | LoadingGame
    | WaitingForTeamName
    | WaitingForStart
    | RoundPlaying
    | RoundFinished

  /** A resolved deviation: finite milliseconds, or the timeout sentinel `Infinity`. */
  datatype Deviation = Finite(ms: nat) | Infinite

  datatype Context = Context(
    teamName: string,
    score: Option<nat>,
    gamePlayedAt: Option<int>,
    msOff: Option<Deviation>,
    latencyCompensation: int)

  /**
   * The events the machine understands. `RoundCompleted` carries the time of
   * the hit in whole milliseconds after the start of the song.
   */
  datatype Event =
    | GameLoaded
    | RoundStart
    | RoundTimeout
    | RoundCompleted(msAfterStart: int)
    | GameReset
    | UpdateTeamName(name: string)
    | UpdateLatency(latency: int)

  datatype Machine = Machine(state: State, context: Context)

  /** `initialcontext`: no name, nothing resolved, nothing started. */
  function InitialContext(latencyCompensation: int): (c: Context)
    ensures c.teamName == "" && !TeamNameLongEnough(c)
    ensures c.score.None? && c.msOff.None? && c.gamePlayedAt.None?
    ensures c.latencyCompensation == latencyCompensation
    ensures Inv(Machine(LoadingGame, c)) && Inv(Machine(WaitingForTeamName, c))
  {
    Context("", None, None, None, latencyCompensation)
  }

  /** A fresh machine, in `LoadingGame`, with the given compensation. */
  function CreateGameMachine(latencyCompensation: int): (m: Machine)
    ensures m.state == LoadingGame && m.context.latencyCompensation == latencyCompensation
    ensures Inv(m)
  {
    Machine(LoadingGame, InitialContext(latencyCompensation))
  }

  /** The guard of the two automatic transitions. */
  predicate TeamNameLongEnough(c: Context)
  {
    |c.teamName| > 3
  }

  function Abs(x: int): nat
  {
    if x < 0 then -x else x
  }

  /** The absolute deviation of a hit from the latency-compensated ideal instant. */
  function DeviationOf(msAfterStart: int, latencyCompensation: int): (d: nat)
    ensures var off := msAfterStart - IdealHitTimestampAfterStart - latencyCompensation;
      d == off || d == -off
    ensures d == 0 <==> msAfterStart == IdealHitTimestampAfterStart + latencyCompensation
  {
    Abs(msAfterStart - IdealHitTimestampAfterStart - latencyCompensation)
  }

  /** The score a resolved deviation carries: the table rule, and 0 for a timeout. */
  function DeviationScore(d: Deviation): nat
  {
    match d
    case Finite(ms) => ScoreFor(ms)
    case Infinite => 0
  }

  /** Whether the current state, or the machine-wide handlers, react to `e`. */
  predicate Handles(s: State, e: Event)
  {
    match e
    case UpdateTeamName(_) => true
    case UpdateLatency(_) => true
    case GameLoaded => s == LoadingGame
    case RoundStart => s == WaitingForStart
    case RoundTimeout => s == RoundPlaying
    case RoundCompleted(_) => s == RoundPlaying
    case GameReset => s == RoundFinished
  }

  /** One event, handled by the transition it selects, before the automatic transitions run. */
  function Transition(m: Machine, e: Event, now: int): (r: Machine)
    ensures !Handles(m.state, e) ==> r == m
    ensures m.state == LoadingGame && e == GameLoaded ==> r.state == WaitingForTeamName
    ensures m.state == WaitingForStart && e == RoundStart ==> r.state == RoundPlaying
    ensures m.state == RoundPlaying && (e == RoundTimeout || e.RoundCompleted?) ==> r.state == RoundFinished
    ensures m.state == RoundFinished && e == GameReset ==> r.state == WaitingForTeamName
    ensures e.UpdateTeamName? || e.UpdateLatency? ==> r.state == m.state
  {
    var c := m.context;
    match e
    case UpdateTeamName(v) => m.(context := c.(teamName := v))
    case UpdateLatency(v) => m.(context := c.(latencyCompensation := v))
    case GameLoaded =>
      if m.state == LoadingGame then Machine(WaitingForTeamName, c) else m
    case RoundStart =>
      // entering roundPlaying stamps the start time
      if m.state == WaitingForStart then Machine(RoundPlaying, c.(gamePlayedAt := Some(now))) else m
    case RoundTimeout =>
      if m.state == RoundPlaying then Machine(RoundFinished, c.(msOff := Some(Infinite), score := Some(0))) else m
    case RoundCompleted(ms) =>
      if m.state == RoundPlaying then
        var d := DeviationOf(ms, c.latencyCompensation);
        Machine(RoundFinished, c.(msOff := Some(Finite(d)), score := Some(ScoreFor(d))))
      else m
    case GameReset =>
      if m.state == RoundFinished then Machine(WaitingForTeamName, InitialContext(DefaultLatencyCompensation)) else m
  }

  /** The two name states are the ones the automatic transitions move between. */
  predicate IsNameState(s: State)
  {
    s == WaitingForTeamName || s == WaitingForStart
  }

  /**
   * Run the guard-only transitions. Their guards are complementary, so after
   * one of them is taken the other is disabled and the machine is stable.
   */
  function Settle(m: Machine): (r: Machine)
    ensures r.context == m.context
    ensures IsNameState(r.state) <==> IsNameState(m.state)
    ensures !IsNameState(m.state) ==> r.state == m.state
    ensures r.state == WaitingForStart <==> IsNameState(m.state) && TeamNameLongEnough(m.context)
  {
    if m.state == WaitingForTeamName && TeamNameLongEnough(m.context) then m.(state := WaitingForStart)
    else if m.state == WaitingForStart && !TeamNameLongEnough(m.context) then m.(state := WaitingForTeamName)
    else m
  }

  /** A machine whose automatic transitions have nothing left to do. */
  predicate Settled(m: Machine)
  {
    (m.state == WaitingForTeamName ==> !TeamNameLongEnough(m.context))
    && (m.state == WaitingForStart ==> TeamNameLongEnough(m.context))
  }

  /** The complete reaction of the machine to one event at wall-clock time `now`. */
  function Step(m: Machine, e: Event, now: int): (r: Machine)
    ensures Settled(r)
    ensures r.context == Transition(m, e, now).context
  {
    Settle(Transition(m, e, now))
  }

  /** The machine after a sequence of timestamped events. */
  function Run(m: Machine, trace: seq<(Event, int)>): (r: Machine)
    ensures trace == [] ==> r == m
    ensures trace != [] ==> Settled(r)
    decreases |trace|
  {
    if trace == [] then m else Run(Step(m, trace[0].0, trace[0].1), trace[1..])
  }

  /**
   * What holds in every reachable configuration: `msOff` and `score` are null
   * together, both are set exactly in `RoundFinished` and agree with the
   * scoring rule there, `gamePlayedAt` is set exactly from the start of the
   * round on, and the name states are settled.
   */
  predicate Inv(m: Machine)
  {
    var c := m.context;
    (c.msOff.None? <==> c.score.None?)
    && (c.msOff.Some? <==> m.state == RoundFinished)
    && (c.msOff.Some? ==> c.score == Some(DeviationScore(c.msOff.value)))
    && (c.gamePlayedAt.Some? <==> m.state == RoundPlaying || m.state == RoundFinished)
    && Settled(m)
  }

  lemma InitialInv(latencyCompensation: int)
    ensures Inv(CreateGameMachine(latencyCompensation))
    ensures CreateGameMachine(latencyCompensation)
      == Machine(LoadingGame, Context("", None, None, None, latencyCompensation))
  {
  }

  lemma StepPreservesInv(m: Machine, e: Event, now: int)
    requires Inv(m)
    ensures Inv(Step(m, e, now))
  {
  }

  /** A sequence of events, started from any configuration satisfying the invariant, keeps it. */
  lemma {:induction false} RunPreservesInv(m: Machine, trace: seq<(Event, int)>)
    requires Inv(m)
    ensures Inv(Run(m, trace))
    decreases |trace|
  {
    if trace != [] {
      StepPreservesInv(m, trace[0].0, trace[0].1);
      RunPreservesInv(Step(m, trace[0].0, trace[0].1), trace[1..]);
    }
  }

  /** Every configuration reached from a fresh machine satisfies the invariant. */
  lemma ReachableInv(latencyCompensation: int, trace: seq<(Event, int)>)
    ensures Inv(Run(CreateGameMachine(latencyCompensation), trace))
  {
    InitialInv(latencyCompensation);
    RunPreservesInv(CreateGameMachine(latencyCompensation), trace);
  }

  /** After every event the machine waits for the start exactly when a name state holds a name longer than 3. */
  lemma NameGate(m: Machine, e: Event, now: int)
    ensures var r := Step(m, e, now);
      IsNameState(r.state) ==> (r.state == WaitingForStart <==> |r.context.teamName| > 3)
  {
  }

  /** A name of 3 characters keeps the team waiting for its name; 4 characters let it start. */
  lemma NameLengthBoundary(m: Machine, now: int)
    requires IsNameState(m.state)
    ensures Step(m, UpdateTeamName("Ali"), now).state == WaitingForTeamName
    ensures Step(m, UpdateTeamName("Alic"), now).state == WaitingForStart
  {
  }

  /** `game.loaded` leaves `LoadingGame` for the name states, settled on the name already held. */
  lemma LoadedLeavesLoading(m: Machine, now: int)
    requires m.state == LoadingGame
    ensures Step(m, GameLoaded, now)
      == Machine(if |m.context.teamName| > 3 then WaitingForStart else WaitingForTeamName, m.context)
  {
  }

  /** An event no handler takes leaves a settled machine exactly as it was. */
  lemma UnhandledIgnored(m: Machine, e: Event, now: int)
    requires Settled(m)
    requires !Handles(m.state, e)
    ensures Step(m, e, now) == m
  {
  }

  /** `round.start` is the only way into `RoundPlaying`, and it is taken only from `WaitingForStart`. */
  lemma StartOnlyFromWaitingForStart(m: Machine, e: Event, now: int)
    requires m.state != RoundPlaying
    ensures Step(m, e, now).state == RoundPlaying <==> e == RoundStart && m.state == WaitingForStart
  {
  }

  /** Starting a round stamps `gamePlayedAt` with the current time and changes nothing else. */
  lemma StartStampsTime(m: Machine, now: int)
    requires m.state == WaitingForStart
    ensures Step(m, RoundStart, now) == Machine(RoundPlaying, m.context.(gamePlayedAt := Some(now)))
  {
  }

  /** A timeout finishes the round with the `Infinity` sentinel and 0 points, whatever the context holds. */
  lemma TimeoutScoresZero(m: Machine, now: int)
    requires m.state == RoundPlaying
    ensures Step(m, RoundTimeout, now) == Machine(RoundFinished, m.context.(msOff := Some(Infinite), score := Some(0)))
    ensures DeviationScore(Infinite) == 0
  {
  }

  /**
   * A completed round finishes with the absolute deviation from the ideal
   * instant shifted by the compensation held at that moment, and with the
   * score the table gives for it.
   */
  lemma CompletedScores(m: Machine, ms: int, now: int)
    requires m.state == RoundPlaying
    ensures var r := Step(m, RoundCompleted(ms), now);
      var d := ms - IdealHitTimestampAfterStart - m.context.latencyCompensation;
      && r.state == RoundFinished
      && r.context.msOff.Some? && r.context.msOff.value.Finite?
      && var off := r.context.msOff.value.ms;
      && (off == d || off == -d)
      && r.context.score == Some(ScoreFor(off))
      && r.context.score.value in PossibleScores
      && r.context.(msOff := m.context.msOff, score := m.context.score) == m.context
  {
  }

  /** A compensation changed during the round is the one the completion uses. */
  lemma LatencyUpdateTakesEffect(m: Machine, latency: int, ms: int, now: int, now': int)
    requires m.state == RoundPlaying
    ensures Step(Step(m, UpdateLatency(latency), now), RoundCompleted(ms), now').context.msOff
      == Some(Finite(DeviationOf(ms, latency)))
  {
  }

  /** A hit at 19.05 s and one at 21 s, with a compensation of 250 ms. */
  lemma CompletedExamples(m: Machine, now: int)
    requires m.state == RoundPlaying && m.context.latencyCompensation == 250
    ensures Step(m, RoundCompleted(19050), now).context.msOff == Some(Finite(200))
    ensures Step(m, RoundCompleted(19050), now).context.score == Some(10)
    ensures Step(m, RoundCompleted(21000), now).context.msOff == Some(Finite(1750))
    ensures Step(m, RoundCompleted(21000), now).context.score == Some(2)
  {
  }

  /**
   * A reset clears the round and the name and installs the default
   * compensation, not the one the machine held.
   */
  lemma ResetClears(m: Machine, now: int)
    requires m.state == RoundFinished
    ensures var r := Step(m, GameReset, now);
      && r.state == WaitingForTeamName
      && r.context.teamName == ""
      && r.context.score.None? && r.context.msOff.None? && r.context.gamePlayedAt.None?
      && r.context.latencyCompensation == DefaultLatencyCompensation
  {
  }

  /** The name handler overwrites the name and nothing else of the context, in every state. */
  lemma UpdateNameOnlyName(m: Machine, v: string, now: int)
    ensures var r := Step(m, UpdateTeamName(v), now);
      r.context == m.context.(teamName := v)
      && (!IsNameState(m.state) ==> r.state == m.state)
  {
  }

  /** The latency handler overwrites the compensation and nothing else, and a settled machine keeps its state. */
  lemma UpdateLatencyOnlyLatency(m: Machine, v: int, now: int)
    requires Settled(m)
    ensures Step(m, UpdateLatency(v), now) == m.(context := m.context.(latencyCompensation := v))
  {
  }

  /**
   * A host-side object holding the current configuration, as the running
   * actor does, and reacting to events sent to it.
   */
  class GameActor {
    var state: State
    var context: Context

    function Snapshot(): Machine
      reads this
    {
      Machine(state, context)
    }

    constructor (latencyCompensation: int)
      ensures Snapshot() == CreateGameMachine(latencyCompensation)
      ensures Inv(Snapshot())
    {
      state := LoadingGame;
      context := InitialContext(latencyCompensation);
    }

    method Send(e: Event, now: int)
      modifies this
      ensures Snapshot() == Step(old(Snapshot()), e, now)
      ensures old(Inv(Snapshot())) ==> Inv(Snapshot())
    {
      ghost var before := Snapshot();
      match e {
        case UpdateTeamName(v) =>
          context := context.(teamName := v);
        case UpdateLatency(v) =>
          context := context.(latencyCompensation := v);
        case GameLoaded =>
          if state == LoadingGame {
            state := WaitingForTeamName;
          }
        case RoundStart =>
          if state == WaitingForStart {
            state := RoundPlaying;
            context := context.(gamePlayedAt := Some(now));
          }
        case RoundTimeout =>
          if state == RoundPlaying {
            state := RoundFinished;
            context := context.(msOff := Some(Infinite), score := Some(0));
          }
        case RoundCompleted(ms) =>
          if state == RoundPlaying {
            var d := DeviationOf(ms, context.latencyCompensation);
            state := RoundFinished;
            context := context.(msOff := Some(Finite(d)), score := Some(ScoreFor(d)));
          }
        case GameReset =>
          if state == RoundFinished {
            state := WaitingForTeamName;
            context := InitialContext(DefaultLatencyCompensation);
          }
      }
      assert Snapshot() == Transition(before, e, now);
      if state == WaitingForTeamName && |context.teamName| > 3 {
        state := WaitingForStart;
      } else if state == WaitingForStart && |context.teamName| <= 3 {
        state := WaitingForTeamName;
      }
      if Inv(before) {
        StepPreservesInv(before, e, now);
      }
    }
  }

  /** The machine the application creates with the default compensation. */
  function DefaultGameMachine(): (m: Machine)
    ensures m.state == LoadingGame && m.context.latencyCompensation == DefaultLatencyCompensation
  {
    CreateGameMachine(DefaultLatencyCompensation)
  }
}
