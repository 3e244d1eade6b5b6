# Whitney Houston Challenge: round state machine, scoring rule and settings

A model of the core of a party-game timer. A team starts a song and tries to
hit the instant 19 seconds in. The round state machine
(`src/state-machines/gameMachine.js`) walks each game through loading, naming
the team, waiting for the start, playing and finished. When the round
completes, it turns the hit time into a deviation from the ideal instant
(after the latency compensation) and into points from a static threshold
table. A timeout finishes the round with the `Infinity` sentinel and 0 points.
The settings holder (`src/composables/useSettings.js`) keeps the chat webhook
URL, the latency compensation and a suspend flag, and writes the first two
through to local storage.

Files:

- `wrappers.dfy`: `Option`, which stands for the source's `null`.
- `scoring.dfy`: the threshold table and the first-match rule. It proves that
  the score is always one of {0,1,2,3,5,7,10}, gives the explicit bands with
  their inclusive bounds, and proves that a larger deviation never earns more.
- `game_machine.dfy`:
  - the states, events and context as datatypes;
  - `Transition`, which handles one event;
  - `Settle`, which runs the guard-only transitions between the two name states;
  - `Step`, which is `Settle` after `Transition`;
  - `Run`, which applies a sequence of timestamped events;
  - a reachability invariant;
  - one lemma per event;
  - the class `GameActor`, which holds the current state and context and
    implements `Send` imperatively against `Step`.
- `strings.dfy`: JavaScript's `String.prototype.trim` over ECMAScript white
  space and line terminators, and its characterisation.
- `settings.dfy`: `SettingsHolder`, a class whose methods update its three
  fields and a `Storage` object with two slots (webhook, compensation). It
  also has three client methods for idempotence, double toggling and what
  survives a reload.

Behaviour of the code worth knowing:

- `game.reset` assigns `initialcontext()` with no argument. So a reset
  installs the default compensation of 20 ms and does not keep the current
  value (`GameMachine.ResetClears`).
- The settings holder starts at 250 ms, but the machine's default is 20 ms.
- A round cannot be started from `LoadingGame`. Only `game.loaded` leaves it.
- The timeout sentinel is `Infinity` (`Deviation.Infinite`), not a fixed
  number. The deviation is the absolute, latency-compensated difference.

## Model

| member | source | states |
|---|---|---|
| `Scoring.FirstQualifying` | src/state-machines/gameMachine.js:97 | the index found is that of the first threshold, in table order, whose `below` is at least `msOff`; nothing is found exactly when every `below` is smaller |
| `Scoring.PointsFor` | src/state-machines/gameMachine.js:97 | the general first-match rule: the result is the points of the first threshold, in table order, whose `below` is at least the deviation, and 0 when no threshold qualifies |
| `Scoring.ScoreFor` | src/state-machines/gameMachine.js:5-30 | the score of any deviation is one of 0, 1, 2, 3, 5, 7, 10 |
| `Scoring.ThresholdsWellShaped` | src/state-machines/gameMachine.js:5-30 | the table is ascending in `below` and descending (and non-negative) in `points` |
| `Scoring.PointsMonotone` | src/state-machines/gameMachine.js:97 | on any table descending in non-negative points, first-match scoring is non-increasing in the deviation |
| `Scoring.ScoreMonotone` | src/state-machines/gameMachine.js:97 | the game's score never grows as the deviation grows |
| `Scoring.ScoreBands` | src/state-machines/gameMachine.js:5-30 | the score equals the band table ≤300→10, ≤600→7, ≤1000→5, ≤1500→3, ≤2000→2, ≤3000→1, else 0 |
| `Scoring.ScoreBoundaries` | src/state-machines/gameMachine.js:97 | bounds are inclusive: 300 gives 10, 301 gives 7, 3000 gives 1, 3001 gives 0 |
| `Scoring.ScoreZeroBeyondTable` | src/state-machines/gameMachine.js:97 | the score is 0 exactly when the deviation exceeds the largest bound, 3000 |
| `GameMachine.InitialContext` | src/state-machines/gameMachine.js:32-40 | the initial context has an empty name (so the guard is off), null score, msOff and gamePlayedAt, the given compensation, and satisfies the invariant in `loadingGame` and in `waitingForTeamName` |
| `GameMachine.CreateGameMachine` | src/state-machines/gameMachine.js:46-50 | a new machine starts in `loadingGame` with the given compensation and satisfies the invariant |
| `GameMachine.DeviationOf` | src/state-machines/gameMachine.js:93-96 | the deviation is the absolute value of hit time minus 19000 minus the compensation, and is 0 exactly on the compensated ideal instant |
| `GameMachine.Transition` | src/state-machines/gameMachine.js:51-123 | an event no handler takes changes nothing; `game.loaded` and `game.reset` target `waitingForTeamName`, `round.start` targets `roundPlaying`, timeout and completion target `roundFinished`; the two global handlers never change the state |
| `GameMachine.Step` | src/state-machines/gameMachine.js:59-76 | after every event the automatic transitions have settled, and the context is the one the handler produced |
| `GameMachine.Run` | src/state-machines/gameMachine.js:51-123 | an empty trace changes nothing, and after a non-empty trace the machine is settled |
| `GameMachine.Settle` | src/state-machines/gameMachine.js:59-76 | the automatic transitions keep the context, move only between the two name states, and end in `waitingForStart` exactly when they started in a name state with a name longer than 3 |
| `GameMachine.NameGate` | src/state-machines/gameMachine.js:42-44 | after any event, a machine in a name state waits for the start exactly when the name is longer than 3 |
| `GameMachine.NameLengthBoundary` | src/state-machines/gameMachine.js:42-44 | from either name state, a 3-character name leads to `waitingForTeamName` and a 4-character name to `waitingForStart` |
| `GameMachine.InitialInv` | src/state-machines/gameMachine.js:46-50 | a new machine is in `loadingGame` with the given compensation and satisfies the invariant |
| `GameMachine.DefaultGameMachine` | src/state-machines/gameMachine.js:127 | the exported machine starts in `loadingGame` with the default compensation of 20 |
| `GameMachine.StepPreservesInv` | src/state-machines/gameMachine.js:51-123 | every event preserves the invariant: `msOff` and `score` null together, set exactly in `roundFinished` where the score matches the deviation, `gamePlayedAt` set exactly in `roundPlaying`/`roundFinished`, name states settled |
| `GameMachine.RunPreservesInv` | src/state-machines/gameMachine.js:51-123 | any sequence of events preserves the invariant |
| `GameMachine.ReachableInv` | src/state-machines/gameMachine.js:46-124 | every configuration reachable from a new machine satisfies the invariant |
| `GameMachine.LoadedLeavesLoading` | src/state-machines/gameMachine.js:52-58 | `game.loaded` in `loadingGame` keeps the context and ends in `waitingForStart` when the name is already longer than 3, otherwise in `waitingForTeamName` |
| `GameMachine.UnhandledIgnored` | src/state-machines/gameMachine.js:51-111 | an event that neither the current state nor the global handlers take leaves state and context unchanged |
| `GameMachine.StartOnlyFromWaitingForStart` | src/state-machines/gameMachine.js:66-81 | from any other state, an event leads into `roundPlaying` exactly when it is `round.start` sent in `waitingForStart` |
| `GameMachine.StartStampsTime` | src/state-machines/gameMachine.js:72-81 | `round.start` in `waitingForStart` enters `roundPlaying` with `gamePlayedAt = now` and the rest of the context kept |
| `GameMachine.TimeoutScoresZero` | src/state-machines/gameMachine.js:82-88 | `round.timeout` in `roundPlaying` finishes with `msOff = Infinity`, `score = 0`, rest of the context kept |
| `GameMachine.CompletedScores` | src/state-machines/gameMachine.js:89-100 | `round.completed` in `roundPlaying` finishes with `msOff = abs(ms − 19000 − latency)`, using the compensation held at that moment, and `score = ScoreFor(msOff)`, one of the possible scores; the rest of the context is kept |
| `GameMachine.LatencyUpdateTakesEffect` | src/state-machines/gameMachine.js:118-122 | a compensation changed during play is the one the completion uses |
| `GameMachine.CompletedExamples` | src/state-machines/gameMachine.js:93-97 | with compensation 250, a hit at 19050 ms is 200 off and scores 10; one at 21000 ms is 1750 off and scores 2 |
| `GameMachine.ResetClears` | src/state-machines/gameMachine.js:105-108 | `game.reset` in `roundFinished` goes to `waitingForTeamName` with an empty name, null score, msOff and gamePlayedAt, and compensation 20 |
| `GameMachine.UpdateNameOnlyName` | src/state-machines/gameMachine.js:113-117 | `team.update_name` overwrites only the name, in every state, and outside the name states leaves the state alone |
| `GameMachine.UpdateLatencyOnlyLatency` | src/state-machines/gameMachine.js:118-122 | `latency.update` overwrites only the compensation and keeps a settled machine's state |
| `GameMachine.GameActor.constructor` | src/state-machines/gameMachine.js:46-50 | a new actor holds the initial configuration for the given compensation |
| `GameMachine.GameActor.Send` | src/state-machines/gameMachine.js:51-123 | the imperative handler leaves the actor in the configuration `Step` gives, and keeps the invariant |
| `Strings.LeadingBlanks` | src/composables/useSettings.js:51 | the count of leading characters `trim` removes: all of them are white space, and the next character, if any, is not |
| `Strings.TrailingStart` | src/composables/useSettings.js:51 | where the trailing characters `trim` removes begin: all after it are white space, and the one before it, if any, is not |
| `Strings.Trim` | src/composables/useSettings.js:51 | `trim` never lengthens its input and its result neither starts nor ends with white space |
| `Strings.TrimCutsOnlyBlanks` | src/composables/useSettings.js:51 | the input is exactly its leading white space, then the trimmed result, then its trailing white space: `trim` removes white space at the ends and nothing else |
| `Strings.TrimEmptyIff` | src/composables/useSettings.js:51-52 | trimming gives the empty (falsy) string exactly when the input is all white space |
| `Strings.TrimmedIff` | src/composables/useSettings.js:51 | a trimmed result starts and ends with a non-blank, and trimming is the identity exactly on such strings |
| `Strings.TrimIdempotent` | src/composables/useSettings.js:51 | trimming twice equals trimming once |
| `Settings.Max` | src/composables/useSettings.js:68 | `Math.max` returns one of its arguments and is at least both |
| `Settings.Storage.constructor` | src/composables/useSettings.js:3-7 | the two storage slots (webhook, compensation) the settings read and write start with the given items |
| `Settings.SettingsHolder.constructor` | src/composables/useSettings.js:29-35 | a new holder has an empty URL, compensation 250 and posting not suspended |
| `Settings.SettingsHolder.LoadPersistedSettings` | src/composables/useSettings.js:38-47 | the URL is replaced only by a stored non-empty URL and the compensation only by a stored value; otherwise each is kept, and storage is not written |
| `Settings.SettingsHolder.SaveWebhook` | src/composables/useSettings.js:50-58 | it returns true exactly when the URL is not all white space; then the trimmed URL is stored and held, otherwise nothing changes |
| `Settings.SettingsHolder.ClearWebhook` | src/composables/useSettings.js:61-64 | the held URL becomes empty and the stored one is removed |
| `Settings.SettingsHolder.SaveLatencyCompensation` | src/composables/useSettings.js:67-72 | the held and stored compensation become `max(0, value)`, and the answer is always true |
| `Settings.SettingsHolder.ToggleSuspendSlackPosting` | src/composables/useSettings.js:75-77 | the suspend flag is negated and nothing else changes |
| `Settings.SettingsHolder.SetSuspendSlackPosting` | src/composables/useSettings.js:80-82 | the suspend flag is set to the argument and nothing else changes |
| `Settings.ClearWebhookTwice` | src/composables/useSettings.js:61-64 | clearing twice leaves the state clearing once leaves |
| `Settings.ToggleTwice` | src/composables/useSettings.js:75-77 | two toggles restore the flag and leave the persisted fields alone |
| `Settings.SaveAndReload` | src/composables/useSettings.js:38-47 | a holder created afresh over the same storage and loaded holds the saved trimmed URL and clamped compensation, with posting not suspended |

## Left out

- Storage I/O (`src/helpers/localStorage.js`, `src/state-machines/roundsStorage.js`): `localStorage`, JSON encoding and the try/catch-and-log around each call are not modelled. Storage is two slots that always accept writes and return what was written. The rounds log is not part of this model.
- The latency getter and saver that `useSettings.js` imports are not defined in `src/helpers/localStorage.js`. The model assumes they store the number and read it back unchanged, and read `null` when nothing is stored.
- `src/helpers/postToSlack.js` (the webhook POST, message formatting, `toLocaleString`, `Math.round`) is network I/O and is not part of this model.
- `src/router/index.js`, the Vue `ref` reactivity and provide/inject wiring are UI glue and are not part of this model.
- The xstate runtime is not modelled, only the transitions it expresses. Root-level handlers are targetless, so they never re-run the `entry` action of `roundPlaying`. Eventless transitions are settled after each event.
- The `console.log` in the completion handler is left out.
- Floating point: `RoundCompleted` carries the hit time as whole milliseconds. It stands for `secondsIn * 1000`. Non-integer and NaN times are not modelled.
- `saveLatencyCompensation` takes an integer, so `Number(value)` coercion of strings and NaN is not modelled.
- Event payloads are typed: the name is a string and the compensation an integer. Malformed payloads are not modelled.
- Wall-clock time: `Date.now()` is the `now` parameter of each step.
- GameMachine.NameGate: `teamName.length` counts UTF-16 code units, but the model counts Unicode scalar values. Names with characters outside the Basic Multilingual Plane are measured differently.
- Settings.SettingsHolder.Valid: the invariant (trimmed URL, non-negative compensation) holds only while nothing but these methods writes the two storage slots. The constructor establishes it only for well-formed storage.
