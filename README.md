# Rock-Paper-Scissors opponent: per-round decision core

This project models, in Dafny, the decision core of an adaptive Rock-Paper-Scissors
opponent (the `RpsApiPredictor` React component). The core keeps a newest-first history
of rounds and reads signals from it: the context window sent to a remote predictor,
prompt adherence, the dominant streak, and win/loss/draw statistics. Before each round
a planner decides whether to issue a psychological prompt ("I will choose X" / "You will
choose X") under a cooldown. It then commits a bot move: a hard counter to a streak, the
predictor's suggestion, or a heuristic fallback. Play is blocked until the prompt is
answered. A submitted move is resolved against the effective bot move, which an answered
prompt may override. The result is stored as a record and the round advances. Reset
clears the history.

Layout:

- `options.dfy`: `Options`, the optional value (`undefined`, `null`, a failed fetch).
- `moves.dfy`: `Moves`, the move algebra (`beats`, `beatenBy`, `decide`) and how a
  `Math.random()` draw picks a move (uniformly, or from the 2:1:1 claim bag).
- `ledger.dfy`: `Ledger`, the round record and the history signals. Each loop of the
  component (`context`, `adherence`, `streakMove`) is a method proved equal to a
  specification function. Lemmas state what those functions mean.
- `rounds.dfy`: `Rounds`, the session snapshot (`State`) and one step function per
  handler: the planner (`PlanStep`), the prompt gate (`PromptSatisfied`), submission
  (`PlayStep`) and reset (`ResetStep`). The lemmas are the component's promises.
- `session.dfy`: `Session.Predictor`, a class holding the component's state fields.
  Its methods follow the handlers statement by statement. Each ensures the new
  `Snapshot()` equals the matching step function applied to the old one.

Inputs the component gets from outside are parameters:

- Every role a `Math.random()` value plays gets one real draw in [0, 1) (`Rounds.Draws`):
  the prompt kind, the claimed move, explore-or-exploit, and the random commitment. The
  commitment draw feeds each `randMove` that picks a commitment; the claim draw feeds the
  `randMove` that picks a claim about the player.
- The `/predict` response is an `Option<Reply>`. `None` is the `catch` path (network or
  JSON failure). A `Reply` may lack `probs` or `bot_move`; a missing `bot_move` falls
  back to the commitment draw.
- The `/update` and `/reset` notifications change no local state, so they are not
  modelled.

Behaviours of the code worth knowing, which the model keeps:

- `handleReset` advances the round counter; it does not return it to 1. It keeps the
  cooldown, the commitment, the claims and the probabilities.
- A believed bot claim makes the bot play `beatenBy(beatenBy(botClaim))`, which is
  `beats(botClaim)`: the counter of the player's counter, not the claimed move itself
  (`Moves.BeatenByTwice`, `Rounds.EffectiveBot`).
- The streak counter's commitment can still be overridden at play time by the answer
  to a prompt raised in the same planner run (`Rounds.StreakCounterOverridden`).
- The planner reads `promptType`, `youClaim` and `intent` from the state its run started
  from. Its own `setPromptType`/`setYouClaim` and the clearing of the answers do not
  affect those reads. So the `prompt_type` sent to `/predict` and the heuristic fallback
  use the prompt of the round just played, not the one the planner issues.
- Switching the mode does not clear a prompt by itself. The planner run the switch
  triggers clears it.

## Model

| member | source | states |
|---|---|---|
| Moves.Beats | web/components/RpsApiPredictor.tsx:22-23 | no move defeats itself |
| Moves.BeatenBy | web/components/RpsApiPredictor.tsx:24-25 | no move is its own counter |
| Moves.Decide | web/components/RpsApiPredictor.tsx:167-170 | Draw iff the moves are equal, Win iff the player's move beats the bot's, Lose iff the bot's move beats the player's |
| Moves.RandMove | web/components/RpsApiPredictor.tsx:26 | `MOVES[floor(r*3)]` gives Rock, Paper, Scissors on the three thirds of [0, 1) |
| Moves.BagMove | web/components/RpsApiPredictor.tsx:116-117 | the claim bag gives Rock on [0, 0.5), Paper on [0.5, 0.75), Scissors on [0.75, 1): weights 2:1:1 |
| Moves.InverseLaws | web/components/RpsApiPredictor.tsx:22-25 | `beatenBy(beats(a)) == a` and `beats(beatenBy(a)) == a` |
| Moves.BeatenByTwice | web/components/RpsApiPredictor.tsx:184 | `beatenBy(beatenBy(a)) == beats(a)` |
| Moves.DecideSwap | web/components/RpsApiPredictor.tsx:167-170 | `decide(p,b)` is Win iff `decide(b,p)` is Lose, and Draw iff it is Draw |
| Moves.CanonicalRule | web/components/RpsApiPredictor.tsx:167-170 | Rock beats Scissors, Scissors beats Paper, Paper beats Rock, equal moves draw |
| Ledger.ContextOf | web/components/RpsApiPredictor.tsx:65-73 | the context of `n` rounds has length `2*min(n, history.length)` |
| Ledger.ContextOfAt | web/components/RpsApiPredictor.tsx:65-73 | position `2i` is `history[i].player`, position `2i+1` the W/L/D code of `history[i].result` |
| Ledger.Context | web/components/RpsApiPredictor.tsx:65-73 | the push loop builds exactly `ContextOf(history, n)` |
| Ledger.Adherent | web/components/RpsApiPredictor.tsx:80-81 | only an answered record (one with an intent) can be adherent |
| Ledger.YouRecords | web/components/RpsApiPredictor.tsx:76 | the filter keeps no more records than the history has |
| Ledger.YouRecordsExact | web/components/RpsApiPredictor.tsx:76 | a record is kept iff it is in the history with prompt type "you" |
| Ledger.YouRecordsAppend | web/components/RpsApiPredictor.tsx:76 | the filter splits over concatenation: "you" records kept in history order, repeats included |
| Ledger.YouRecordsOne | web/components/RpsApiPredictor.tsx:76 | a single record passes iff its prompt type is "you" |
| Ledger.Recent | web/components/RpsApiPredictor.tsx:76 | filter before slice: `min(10, number of "you" records)` records, none iff there is no "you" record |
| Ledger.RecentSplit | web/components/RpsApiPredictor.tsx:76 | the kept records are the newest ones: older records matter only while the newer part has fewer than 10 "you" records, and then fill up to 10 in order |
| Ledger.CountAdherent | web/components/RpsApiPredictor.tsx:78-82 | the adherent count is between 0 and the number of records |
| Ledger.AdherenceOf | web/components/RpsApiPredictor.tsx:75-84 | adherence is in [0, 1], and exactly 0.5 without "you" records |
| Ledger.Adherence | web/components/RpsApiPredictor.tsx:75-84 | the counting loop returns exactly `AdherenceOf(history)` |
| Ledger.AdherenceRange | web/components/RpsApiPredictor.tsx:75-84 | 0.5 when no record has prompt type "you"; otherwise `ok/k` over `k = min(10, count)` records, `k = 0` iff there is no "you" record; the value lies in [0, 1] |
| Ledger.Players | web/components/RpsApiPredictor.tsx:87 | the mapped sequence holds each record's player move, in order |
| Ledger.StreakOf | web/components/RpsApiPredictor.tsx:86-95 | a reported streak move is the move of each of the five most recent rounds |
| Ledger.StreakMove | web/components/RpsApiPredictor.tsx:86-95 | the breaking loop over the last 10 moves returns the streak move exactly when the five most recent moves agree |
| Ledger.StreakIff | web/components/RpsApiPredictor.tsx:86-95 | a streak of `m` iff at least 5 rounds and the 5 most recent are all `m` |
| Ledger.Count | web/components/RpsApiPredictor.tsx:236-238 | a count never exceeds the history length |
| Ledger.RoundHalfUp | web/components/RpsApiPredictor.tsx:244 | `Math.round(num/den)`: within one half of `num/den`, halves rounded up |
| Ledger.RoundHalfUpAtMost100 | web/components/RpsApiPredictor.tsx:239-244 | a rounded ratio of at most 100 stays at most 100 |
| Ledger.CountsPartition | web/components/RpsApiPredictor.tsx:236-238 | wins, losses and draws add up to the history length |
| Ledger.StatsOf | web/components/RpsApiPredictor.tsx:235-246 | `wins+losses+draws == history.length` and `winRate` is in [0, 100] |
| Ledger.WinRateRounded | web/components/RpsApiPredictor.tsx:239-244 | `winRate` is `round(100*wins / max(1, wins+losses))`, halves up, draws excluded from the denominator |
| Ledger.WinRateExample | web/components/RpsApiPredictor.tsx:235-246 | a win, a loss and a draw give counts 1/1/1 and a 50% win rate |
| Rounds.Initial | web/components/RpsApiPredictor.tsx:32-60 | the `useState` defaults satisfy the invariant and are stuck (all probabilities 0.33, cooldown 0) |
| Rounds.MaxProb | web/components/RpsApiPredictor.tsx:108 | the maximum is one of the three probabilities and at least each of them |
| Rounds.RecentLosses | web/components/RpsApiPredictor.tsx:109 | losses among the three latest rounds are at most 3 |
| Rounds.Stuck | web/components/RpsApiPredictor.tsx:108-110 | the bot is never stuck while a prompt cools down |
| Rounds.PromptPhase | web/components/RpsApiPredictor.tsx:108-125 | a prompt iff stuck, with cooldown 2; otherwise no prompt and `max(0, cooldown-1)`; only prompt, claims and cooldown change |
| Rounds.Fallback | web/components/RpsApiPredictor.tsx:151-156 | under a "you" prompt: `beatenBy(youClaim)` after "will", `beats(youClaim)` otherwise; else the random draw |
| Rounds.PlanStep | web/components/RpsApiPredictor.tsx:97-158 | the planner clears belief and intent, leaves history, round and mode alone, and in random mode clears the prompt and leaves the cooldown |
| Rounds.PlanInv | web/components/RpsApiPredictor.tsx:97-158 | the planner keeps the invariant (cooldown in 0..2) |
| Rounds.PlanRandom | web/components/RpsApiPredictor.tsx:102-106 | random mode: prompt cleared, random commitment, no request, cooldown and everything else unchanged |
| Rounds.PlanPrompt | web/components/RpsApiPredictor.tsx:108-125 | psyche mode: a prompt iff stuck, which needs cooldown 0 and sets it to 2; otherwise the prompt is cleared and the cooldown becomes `max(0, cooldown-1)`; bot claims come from the bag, player claims from a uniform draw |
| Rounds.PlanStreak | web/components/RpsApiPredictor.tsx:127-131 | after five `m` the bot commits `beatenBy(m)`, sends no request and keeps the probabilities; the commitment beats a sixth `m`, and the round is lost by it when no prompt was raised or the bot claim is not believed |
| Rounds.StreakCounterOverridden | web/components/RpsApiPredictor.tsx:112-131 | a concrete run where a believed bot claim raised in the streak round replaces the counter and a sixth Rock wins |
| Rounds.PlanExploit | web/components/RpsApiPredictor.tsx:133-148 | with no streak and a draw above 0.12, the request carries `context(6)`, the snapshot's prompt type and the adherence; a reply sets the commitment (`bot_move ?? randMove()`) and the probabilities when present |
| Rounds.PlanRequestIff | web/components/RpsApiPredictor.tsx:127-149 | a request is sent iff psyche mode, no streak and an exploit draw |
| Rounds.PlanFallback | web/components/RpsApiPredictor.tsx:151-156 | on explore or fetch failure: `beatenBy(youClaim)` after "will", `beats(youClaim)` otherwise, random without a "you" prompt; probabilities unchanged |
| Rounds.FirstPlanPrompts | web/components/RpsApiPredictor.tsx:108-121 | the first planner run of a session always prompts and sets the cooldown to 2 |
| Rounds.PromptSatisfied | web/components/RpsApiPredictor.tsx:160-165 | no prompt always passes; a bot claim passes iff a belief is given, a "you" claim iff an intent is given |
| Rounds.Answer | web/components/RpsApiPredictor.tsx:391-436 | answering the shown prompt stores exactly the clicked answer (the belief under a bot claim, the intent under a claim about the player, nothing without a prompt), leaves the other answer alone and opens the gate |
| Rounds.PlanGate | web/components/RpsApiPredictor.tsx:160-165 | after planning, play is allowed iff no prompt was issued |
| Rounds.PlanCoolingDown | web/components/RpsApiPredictor.tsx:121-124 | while the cooldown is positive no prompt is issued and it drops by one |
| Rounds.CooldownCycle | web/components/RpsApiPredictor.tsx:110-124 | after a prompt is raised and answered, the next two played rounds (round +1 each) get no prompt whatever is answered or played, with cooldown 1 and then 0 |
| Rounds.PlayStep | web/components/RpsApiPredictor.tsx:172-221 | at most one record is added, at the front; older records, and every field but history and round, are kept; the round advances with each record |
| Rounds.RecordOf | web/components/RpsApiPredictor.tsx:193-203 | the record has the player's move and the active prompt kind, and is well formed whenever the gate passes |
| Rounds.PlayBlocked | web/components/RpsApiPredictor.tsx:173 | an unanswered prompt leaves the state unchanged |
| Rounds.PlayAppends | web/components/RpsApiPredictor.tsx:172-221 | otherwise the history grows by exactly one record at index 0, older records shift unchanged, the round goes up by 1 and nothing else changes |
| Rounds.EffectiveBot | web/components/RpsApiPredictor.tsx:177-186 | "will": `beatenBy(youClaim)`; "wont": `beats(youClaim)`; "believe": `beats(botClaim)`; "dont", no prompt or random mode: the commitment |
| Rounds.OverridesBeatAssumedMove | web/components/RpsApiPredictor.tsx:180-184 | a player who does what each override assumes loses the round |
| Rounds.PlayRecordClaims | web/components/RpsApiPredictor.tsx:193-203 | the record keeps bot claim and belief only under a "bot" prompt, player claim and intent only under a "you" prompt, and is well formed |
| Rounds.PlayInv | web/components/RpsApiPredictor.tsx:193-205 | submission keeps the state invariant |
| Rounds.ResetStep | web/components/RpsApiPredictor.tsx:223-233 | reset empties the history, advances the round, clears the prompt, the belief and the intent (so the gate is open), and keeps mode, cooldown, commitment, probabilities and claims |
| Rounds.ResetFacts | web/components/RpsApiPredictor.tsx:223-233 | reset empties the history, clears the prompt and both answers so the gate is open, zeroes the statistics, advances the round, and keeps cooldown, commitment, claims, probabilities and mode |
| Session.Predictor.constructor | web/components/RpsApiPredictor.tsx:32-60 | the fields start at the `useState` defaults |
| Session.Predictor.Plan | web/components/RpsApiPredictor.tsx:97-158 | the planner effect leaves the fields as `PlanStep` of the old snapshot and returns its request |
| Session.Predictor.RaisePrompt | web/components/RpsApiPredictor.tsx:108-125 | the prompt phase leaves the fields as `PromptPhase` describes |
| Session.Predictor.Commit | web/components/RpsApiPredictor.tsx:127-156 | the commitment phase completes `PlanStep` from the snapshot the run started from |
| Session.Predictor.Play | web/components/RpsApiPredictor.tsx:172-221 | `handlePlay` leaves the fields as `PlayStep` of the old snapshot |
| Session.Predictor.Reset | web/components/RpsApiPredictor.tsx:223-233 | `handleReset` leaves the fields as `ResetStep` of the old snapshot |
| Session.Predictor.SetMode | web/components/RpsApiPredictor.tsx:280-295 | the mode buttons change the mode only |
| Session.Predictor.AnswerBelief | web/components/RpsApiPredictor.tsx:391-405 | a belief answer changes only `belief` and opens the gate of a "bot" prompt |
| Session.Predictor.AnswerIntent | web/components/RpsApiPredictor.tsx:422-436 | an intent answer changes only `intent` and opens the gate of a "you" prompt |

## Left out

- Rendering, styling, icons and hover handlers (`RpsApiPredictor.tsx` from line 248 on): presentation only. The choice of answer buttons by prompt kind is modelled by `Rounds.Answer`; the other half of that render condition, which hides the prompt panel outside psyche mode, is not, so `Answer` also applies in random mode. The session's setters are modelled unguarded, as they are written.
- The `fetch` calls to `/predict`, `/update` and `/reset`: network I/O. `/predict` is an optional input, and the other two have no effect on local state.
- `setTimeout`, the thinking delay and the `isPlaying` flag: timing and UI only. A play is one atomic step.
- Overlapping asynchronous planner runs: concurrency. The model runs one planner step at a time and treats it as atomic. So it does not capture a stale `/predict` response landing after a newer round. Nor does it capture a play made while `/predict` is still pending with no prompt raised: the move buttons are enabled then, and the play resolves against the previous round's commitment.
- A `bot_move` string outside the three moves, which the component casts to a move unchecked: the model's reply carries only valid moves.
- Floating point: probabilities, the 0.45 and 0.12 thresholds, the adherence ratio, the draw-to-index products and the win rate are exact reals and integers. A float rounding at a boundary (for example `Math.round` of a ratio a hair below .5) is not modelled.
- `Math.random` itself: its draws are parameters in [0, 1).
- `web/components/ResetButton.tsx`: a `/reset` fetch followed by a page reload, pure I/O.
- `web/app/layout.tsx` and `web/app/page.tsx`: page layout and composition only.
