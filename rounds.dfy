/** The per-round decision core as functions over a snapshot of the session:
    the planner that runs on every round or mode change, the prompt gate,
    move submission and reset. Every operation reads the snapshot it was
    given and returns the next one. */
module Rounds {
  import opened Options
  import opened Moves
  import opened Ledger

  datatype Mode = Random | Psyche

  /** The predictor's last probability vector. */
  datatype Probs = Probs(rock: real, paper: real, scissors: real)

  /** Everything the component keeps in state that the decision core reads or writes. */
  datatype State = State(
    history: seq<RoundRecord>,
    round: int,
    mode: Mode,
    promptType: PromptType,
    botClaim: Move,
    youClaim: Move,
    belief: Option<Belief>,
    intent: Option<Intent>,
    cooldown: int,
    botCommit: Move,
    probs: Probs)

  /** The state the component starts in: it satisfies the invariant, and it is stuck
      (probabilities all below 0.45, no cooldown), so the first planner run prompts. */
  function Initial(): (s: State)
    ensures Inv(s) && Stuck(s)
  {
    State([], 1, Psyche, NoPrompt, Rock, Paper, None, None, 0, Rock, Probs(0.33, 0.33, 0.33))
  }

  /** What every reachable state satisfies: the round counter is positive, the
      cooldown stays in 0..2 and every stored record is well formed. */
  predicate Inv(s: State) {
    && s.round >= 1
    && 0 <= s.cooldown <= 2
    && forall i :: 0 <= i < |s.history| ==> WellFormed(s.history[i])
  }

  /* ---------------- planner ---------------- */

  /** The `Math.random()` draws one planner run may consume, one per role:
      the prompt kind, the claimed move, explore-or-exploit, and the random commitment. */
  datatype Draws = Draws(which: real, claim: real, explore: real, commit: real)

  predicate ValidDraws(d: Draws) {
    && 0.0 <= d.which < 1.0
    && 0.0 <= d.claim < 1.0
    && 0.0 <= d.explore < 1.0
    && 0.0 <= d.commit < 1.0
  }

  /** Probability of exploring instead of asking the predictor. */
  const Epsilon: real := 0.12

  /** Below this top probability the predictor counts as unsure. */
  const Unsure: real := 0.45

  /** The cooldown set whenever a prompt is issued. */
  const PromptCooldown: int := 2

  /** Body of a `/predict` request. */
  datatype PredictRequest = PredictRequest(context: seq<Token>, promptType: PromptType, adherence: real)

  /** A parsed `/predict` response; either field may be missing. */
  datatype Reply = Reply(probs: Option<Probs>, botMove: Option<Move>)

  /** The state after the planner, and the request it sent, if any. */
  datatype PlanResult = PlanResult(state: State, request: Option<PredictRequest>)

  function MaxProb(p: Probs): (m: real)
    ensures m >= p.rock && m >= p.paper && m >= p.scissors
    ensures m == p.rock || m == p.paper || m == p.scissors
  {
    if p.rock >= p.paper && p.rock >= p.scissors then p.rock
    else if p.paper >= p.scissors then p.paper
    else p.scissors
  }

  /** Losses among the three most recent rounds. */
  function RecentLosses(h: seq<RoundRecord>): (n: nat)
    ensures n <= 3
  {
    Count(h[..Min(3, |h|)], Lose)
  }

  /** The bot is stuck (unsure predictor, or two recent losses) and no prompt is cooling down. */
  predicate Stuck(s: State)
    ensures Stuck(s) ==> s.cooldown == 0
  {
    (MaxProb(s.probs) < Unsure || RecentLosses(s.history) >= 2) && s.cooldown == 0
  }

  /** Prompt phase: issue a prompt when stuck, else clear it and let the cooldown run down.
      Reads the snapshot `s`, writes into `t`. */
  function PromptPhase(s: State, t: State, d: Draws): (u: State)
    requires ValidDraws(d)
    ensures u.promptType != NoPrompt <==> Stuck(s)
    ensures u.promptType != NoPrompt ==> u.cooldown == PromptCooldown
    ensures u.promptType == NoPrompt ==> u.cooldown == if t.cooldown > 0 then t.cooldown - 1 else 0
    ensures u == t.(promptType := u.promptType, botClaim := u.botClaim, youClaim := u.youClaim, cooldown := u.cooldown)
  {
    if Stuck(s) then
      if d.which < 0.5 then t.(promptType := BotPrompt, botClaim := BagMove(d.claim), cooldown := PromptCooldown)
      else t.(promptType := YouPrompt, youClaim := RandMove(d.claim), cooldown := PromptCooldown)
    else
      t.(promptType := NoPrompt, cooldown := if t.cooldown - 1 > 0 then t.cooldown - 1 else 0)
  }

  /** Heuristic fallback: under a claim about the player in the snapshot, counter the
      move the player is assumed to make; otherwise commit a random move. */
  function Fallback(s: State, d: Draws): (m: Move)
    requires ValidDraws(d)
    ensures s.promptType == YouPrompt && s.intent == Some(Will) ==> m == BeatenBy(s.youClaim)
    ensures s.promptType == YouPrompt && s.intent != Some(Will) ==> m == Beats(s.youClaim)
    ensures s.promptType != YouPrompt ==> m == RandMove(d.commit)
  {
    if s.promptType == YouPrompt then
      var assumed := if s.intent == Some(Will) then s.youClaim else BeatenBy(s.youClaim);
      BeatenBy(assumed)
    else RandMove(d.commit)
  }

  /** The planner run on a round or mode change. `s` is the snapshot the run sees
      throughout; answers are cleared first; `reply` is the `/predict` outcome
      (`None` when the fetch or the parse fails). */
  function PlanStep(s: State, d: Draws, reply: Option<Reply>): (r: PlanResult)
    requires ValidDraws(d)
    ensures r.state.history == s.history && r.state.round == s.round && r.state.mode == s.mode
    ensures r.state.belief == None && r.state.intent == None
    ensures r.state.mode == Random ==> r.state.promptType == NoPrompt && r.state.cooldown == s.cooldown
  {
    var cleared := s.(belief := None, intent := None);
    if s.mode == Random then
      PlanResult(cleared.(promptType := NoPrompt, botCommit := RandMove(d.commit)), None)
    else
      var t := PromptPhase(s, cleared, d);
      var streak := StreakOf(s.history);
      if streak.Some? then
        PlanResult(t.(botCommit := BeatenBy(streak.value)), None)
      else if d.explore > Epsilon then
        var req := Some(PredictRequest(ContextOf(s.history, 6), s.promptType, AdherenceOf(s.history)));
        match reply
        case Some(rep) =>
          PlanResult(t.(probs := rep.probs.GetOr(t.probs), botCommit := rep.botMove.GetOr(RandMove(d.commit))), req)
        case None =>
          PlanResult(t.(botCommit := Fallback(s, d)), req)
      else
        PlanResult(t.(botCommit := Fallback(s, d)), None)
  }

  /** The planner keeps the state invariant: the cooldown stays in 0..2. */
  lemma PlanInv(s: State, d: Draws, reply: Option<Reply>)
    requires ValidDraws(d) && Inv(s)
    ensures Inv(PlanStep(s, d, reply).state)
  {
  }

  /** Random mode: no prompt, no learning, a random commitment; nothing else changes. */
  lemma PlanRandom(s: State, d: Draws, reply: Option<Reply>)
    requires ValidDraws(d) && s.mode == Random
    ensures PlanStep(s, d, reply).request == None
    ensures PlanStep(s, d, reply).state
         == s.(promptType := NoPrompt, belief := None, intent := None, botCommit := RandMove(d.commit))
  {
  }

  /** Psyche mode: a prompt is issued exactly when the bot is stuck, which needs a zero
      cooldown and sets it to 2; otherwise the cooldown drops by one, never below 0. */
  lemma PlanPrompt(s: State, d: Draws, reply: Option<Reply>)
    requires ValidDraws(d) && s.mode == Psyche && s.cooldown >= 0
    ensures var t := PlanStep(s, d, reply).state;
            && (t.promptType != NoPrompt <==> Stuck(s))
            && (t.promptType != NoPrompt ==> s.cooldown == 0 && t.cooldown == 2)
            && (t.promptType == NoPrompt ==> t.cooldown == if s.cooldown > 0 then s.cooldown - 1 else 0)
            && (t.promptType == BotPrompt <==> Stuck(s) && d.which < 0.5)
            && (t.promptType == BotPrompt ==> t.botClaim == BagMove(d.claim) && t.youClaim == s.youClaim)
            && (t.promptType == YouPrompt ==> t.youClaim == RandMove(d.claim) && t.botClaim == s.botClaim)
            && (t.promptType == NoPrompt ==> t.botClaim == s.botClaim && t.youClaim == s.youClaim)
  {
  }

  /** A streak of five `m` overrides prediction and exploration: the bot commits to the
      move that beats `m` and asks the predictor nothing, so the commitment beats a sixth
      `m`. The round is lost by that sixth `m` unless an answer to a prompt raised in the
      same run overrides the commitment at play time: with no prompt, or with a bot claim
      that is not believed, it is. */
  lemma PlanStreak(s: State, d: Draws, reply: Option<Reply>, m: Move, b: Belief, i: Intent)
    requires ValidDraws(d) && s.mode == Psyche
    requires |s.history| >= 5 && forall k :: 0 <= k < 5 ==> s.history[k].player == m
    ensures PlanStep(s, d, reply).state.botCommit == BeatenBy(m)
    ensures PlanStep(s, d, reply).request == None
    ensures Decide(m, PlanStep(s, d, reply).state.botCommit) == Lose
    ensures PlanStep(s, d, reply).state.probs == s.probs
    ensures var t := PlanStep(s, d, reply).state;
            (t.promptType == NoPrompt || (t.promptType == BotPrompt && b == Dont))
              ==> PlayStep(Answer(t, b, i), m).history[0].result == Lose
  {
    StreakIff(s.history, m);
  }

  /** The streak counter can be defeated within its own round: five Rocks from the start
      state, a bot prompt claiming Rock, commitment Paper; the player believes the claim,
      the bot switches to Scissors, and a sixth Rock wins. */
  lemma StreakCounterOverridden()
    ensures var r := RoundRecord(Rock, Paper, Lose, NoPrompt, None, None, None, None);
            var s := Initial().(history := [r, r, r, r, r]);
            var t := PlanStep(s, Draws(0.0, 0.0, 0.5, 0.0), None).state;
            && t.promptType == BotPrompt && t.botClaim == Rock && t.botCommit == Paper
            && PlayStep(Answer(t, Believe, Will), Rock).history[0].result == Win
  {
    var r := RoundRecord(Rock, Paper, Lose, NoPrompt, None, None, None, None);
    var s := Initial().(history := [r, r, r, r, r]);
    assert Stuck(s);
    assert StreakOf(s.history) == Some(Rock);
    assert BagMove(0.0) == Rock;
  }

  /** Exploit: without a streak and with a draw above epsilon the predictor is asked with
      the six-round context, the snapshot's prompt kind and the adherence; its reply sets
      the commitment (a random one when the move is missing) and, when present, the probabilities. */
  lemma PlanExploit(s: State, d: Draws, reply: Option<Reply>)
    requires ValidDraws(d) && s.mode == Psyche && StreakOf(s.history) == None && d.explore > Epsilon
    ensures PlanStep(s, d, reply).request
         == Some(PredictRequest(ContextOf(s.history, 6), s.promptType, AdherenceOf(s.history)))
    ensures reply.Some? ==>
              && PlanStep(s, d, reply).state.botCommit == reply.value.botMove.GetOr(RandMove(d.commit))
              && PlanStep(s, d, reply).state.probs == reply.value.probs.GetOr(s.probs)
  {
  }

  /** The request is sent exactly in psyche mode, without a streak, on an exploit draw. */
  lemma PlanRequestIff(s: State, d: Draws, reply: Option<Reply>)
    requires ValidDraws(d)
    ensures PlanStep(s, d, reply).request.Some?
        <==> s.mode == Psyche && StreakOf(s.history) == None && d.explore > Epsilon
  {
  }

  /** Fallback (explore draw, or a failed fetch): counter the snapshot's claim about the
      player, `beatenBy(youClaim)` after "will" and `beats(youClaim)` otherwise, else play
      at random; the probabilities stay as they were. */
  lemma PlanFallback(s: State, d: Draws, reply: Option<Reply>)
    requires ValidDraws(d) && s.mode == Psyche && StreakOf(s.history) == None
    requires d.explore <= Epsilon || reply == None
    ensures PlanStep(s, d, reply).state.probs == s.probs
    ensures PlanStep(s, d, reply).state.botCommit
         == if s.promptType != YouPrompt then RandMove(d.commit)
            else if s.intent == Some(Will) then BeatenBy(s.youClaim)
            else Beats(s.youClaim)
  {
    BeatenByTwice(s.youClaim);
  }

  /** The first planner run of a session always issues a prompt: the initial
      probabilities are all 0.33 and the cooldown is 0. */
  lemma FirstPlanPrompts(d: Draws, reply: Option<Reply>)
    requires ValidDraws(d)
    ensures PlanStep(Initial(), d, reply).state.promptType != NoPrompt
    ensures PlanStep(Initial(), d, reply).state.cooldown == 2
  {
    assert Stuck(Initial());
  }

  /* ---------------- prompt gate ---------------- */

  /** `promptSatisfied`: no prompt, or the prompt's matching answer is given. A bot claim
      waits only for a belief, a claim about the player only for an intent. */
  predicate PromptSatisfied(promptType: PromptType, belief: Option<Belief>, intent: Option<Intent>)
    ensures promptType == NoPrompt ==> PromptSatisfied(promptType, belief, intent)
    ensures (!PromptSatisfied(promptType, belief, intent))
              ==> (promptType == BotPrompt && belief == None) || (promptType == YouPrompt && intent == None)
    ensures promptType == BotPrompt ==> (PromptSatisfied(promptType, belief, intent) <==> belief.Some?)
    ensures promptType == YouPrompt ==> (PromptSatisfied(promptType, belief, intent) <==> intent.Some?)
  {
    match promptType
    case NoPrompt => true
    case BotPrompt => belief.Some?
    case YouPrompt => intent.Some?
  }

  /** Right after planning the gate is open exactly when no prompt was issued. */
  lemma PlanGate(s: State, d: Draws, reply: Option<Reply>)
    requires ValidDraws(d)
    ensures var t := PlanStep(s, d, reply).state;
            PromptSatisfied(t.promptType, t.belief, t.intent) <==> t.promptType == NoPrompt
  {
  }

  /** Clicking the answer button shown for the active prompt: a belief under a bot claim,
      an intent under a claim about the player; nothing is shown without a prompt.
      The answer always opens the gate. */
  function Answer(s: State, b: Belief, i: Intent): (t: State)
    ensures PromptSatisfied(t.promptType, t.belief, t.intent)
    ensures t == s.(belief := t.belief, intent := t.intent)
    ensures s.promptType == NoPrompt ==> t == s
    ensures s.promptType == BotPrompt ==> t.belief == Some(b) && t.intent == s.intent
    ensures s.promptType == YouPrompt ==> t.intent == Some(i) && t.belief == s.belief
  {
    match s.promptType
    case NoPrompt => s
    case BotPrompt => s.(belief := Some(b))
    case YouPrompt => s.(intent := Some(i))
  }

  /* ---------------- move submission ---------------- */

  /** The bot move actually played: in psyche mode an answered claim about the player
      overrides the commitment with the counter of the assumed move, and a believed bot
      claim with `beatenBy(beatenBy(botClaim))`, that is `beats(botClaim)`; otherwise
      (random mode, no prompt, an unbelieved claim) the commitment stands. */
  function EffectiveBot(s: State): (m: Move)
    ensures (s.mode == Psyche && s.promptType == YouPrompt && s.intent == Some(Will))
              ==> m == BeatenBy(s.youClaim)
    ensures (s.mode == Psyche && s.promptType == YouPrompt && s.intent == Some(Wont))
              ==> m == Beats(s.youClaim)
    ensures (s.mode == Psyche && s.promptType == BotPrompt && s.belief == Some(Believe))
              ==> m == Beats(s.botClaim)
    ensures (s.mode == Random || s.promptType == NoPrompt || (s.promptType == BotPrompt && s.belief != Some(Believe)))
              ==> m == s.botCommit
  {
    if s.mode == Psyche && s.promptType == YouPrompt && s.intent.Some? then
      var assumed := if s.intent.value == Will then s.youClaim else BeatenBy(s.youClaim);
      BeatenBy(assumed)
    else if s.mode == Psyche && s.promptType == BotPrompt && s.belief == Some(Believe) then
      BeatenBy(BeatenBy(s.botClaim))
    else s.botCommit
  }

  /** The record a submission of `player` stores: a well-formed record of the active
      prompt kind whenever the gate lets the submission through. */
  function RecordOf(s: State, player: Move): (r: RoundRecord)
    ensures r.promptType == s.promptType && r.player == player
    ensures PromptSatisfied(s.promptType, s.belief, s.intent) ==> WellFormed(r)
  {
    var bot := EffectiveBot(s);
    RoundRecord(player, bot, Decide(player, bot), s.promptType,
      if s.promptType == BotPrompt then Some(s.botClaim) else None,
      if s.promptType == YouPrompt then Some(s.youClaim) else None,
      if s.promptType == BotPrompt then s.belief else None,
      if s.promptType == YouPrompt then s.intent else None)
  }

  /** `handlePlay(player)`, taken as one atomic step: at most one record is added, at the
      front, older records are kept, and only the history and the round change. */
  function PlayStep(s: State, player: Move): (t: State)
    ensures var added := if PromptSatisfied(s.promptType, s.belief, s.intent) then 1 else 0;
            && |t.history| == |s.history| + added
            && t.history[added..] == s.history
            && t.round == s.round + added
    ensures t == s.(history := t.history, round := t.round)
  {
    if !PromptSatisfied(s.promptType, s.belief, s.intent) then s
    else s.(history := [RecordOf(s, player)] + s.history, round := s.round + 1)
  }

  /** An unanswered prompt blocks submission: nothing changes. */
  lemma PlayBlocked(s: State, player: Move)
    requires !PromptSatisfied(s.promptType, s.belief, s.intent)
    ensures PlayStep(s, player) == s
    ensures s.promptType == BotPrompt ==> s.belief == None
    ensures s.promptType == YouPrompt ==> s.intent == None
  {
  }

  /** An allowed submission prepends exactly one record, shifts the older ones unchanged,
      advances the round and changes nothing else; the record holds the player's move,
      the effective bot move and their outcome. */
  lemma PlayAppends(s: State, player: Move)
    requires PromptSatisfied(s.promptType, s.belief, s.intent)
    ensures var t := PlayStep(s, player);
            && |t.history| == |s.history| + 1
            && t.history[1..] == s.history
            && t.history[0].player == player
            && t.history[0].bot == EffectiveBot(s)
            && t.history[0].result == Decide(player, EffectiveBot(s))
            && t.round == s.round + 1
            && t == s.(history := t.history, round := t.round)
  {
  }

  /** Each override beats the move it assumes: a player who plays the claimed move after
      "will", the counter of the claim after "wont", or the counter of a believed bot claim, loses. */
  lemma OverridesBeatAssumedMove(s: State)
    requires s.mode == Psyche
    ensures (s.promptType == YouPrompt && s.intent == Some(Will))
              ==> PlayStep(s, s.youClaim).history[0].result == Lose
    ensures (s.promptType == YouPrompt && s.intent == Some(Wont))
              ==> PlayStep(s, BeatenBy(s.youClaim)).history[0].result == Lose
    ensures (s.promptType == BotPrompt && s.belief == Some(Believe))
              ==> PlayStep(s, BeatenBy(s.botClaim)).history[0].result == Lose
  {
  }

  /** The stored record keeps the bot claim and belief only under a bot prompt, the
      player claim and intent only under a claim about the player. */
  lemma PlayRecordClaims(s: State, player: Move)
    requires PromptSatisfied(s.promptType, s.belief, s.intent)
    ensures var r := PlayStep(s, player).history[0];
            && r.promptType == s.promptType
            && r.botClaim == (if s.promptType == BotPrompt then Some(s.botClaim) else None)
            && r.belief == (if s.promptType == BotPrompt then s.belief else None)
            && r.youClaim == (if s.promptType == YouPrompt then Some(s.youClaim) else None)
            && r.intent == (if s.promptType == YouPrompt then s.intent else None)
            && WellFormed(r)
  {
  }

  /** Submission keeps the state invariant. */
  lemma PlayInv(s: State, player: Move)
    requires Inv(s)
    ensures Inv(PlayStep(s, player))
  {
    if PromptSatisfied(s.promptType, s.belief, s.intent) {
      PlayRecordClaims(s, player);
      var t := PlayStep(s, player);
      forall i | 0 <= i < |t.history| ensures WellFormed(t.history[i]) {
        if i > 0 {
          assert t.history[i] == s.history[i - 1];
        }
      }
    }
  }

  /** While a prompt cools down no new one is issued and the cooldown drops by one. */
  lemma PlanCoolingDown(s: State, d: Draws, reply: Option<Reply>)
    requires ValidDraws(d) && s.mode == Psyche && s.cooldown > 0
    ensures PlanStep(s, d, reply).state.promptType == NoPrompt
    ensures PlanStep(s, d, reply).state.cooldown == s.cooldown - 1
    ensures PlanStep(s, d, reply).state.mode == Psyche
  {
  }

  /** After a prompt is raised and answered, the next two played rounds get no prompt,
      whatever the player answers and plays, the draws and the predictor's replies; each
      play advances the round, and the cooldown is then back at 0, so the following round
      prompts again exactly when the bot is stuck. */
  lemma {:induction false} CooldownCycle(s: State, d1: Draws, d2: Draws, d3: Draws, r1: Option<Reply>,
                                         r2: Option<Reply>, r3: Option<Reply>, b: Belief, i: Intent,
                                         p1: Move, p2: Move)
    requires ValidDraws(d1) && ValidDraws(d2) && ValidDraws(d3) && s.mode == Psyche && s.cooldown >= 0
    requires PlanStep(s, d1, r1).state.promptType != NoPrompt
    ensures var s1 := PlanStep(s, d1, r1).state;
            var a1 := PlayStep(Answer(s1, b, i), p1);
            var s2 := PlanStep(a1, d2, r2).state;
            var a2 := PlayStep(s2, p2);
            var s3 := PlanStep(a2, d3, r3).state;
            && s1.cooldown == 2
            && a1.round == s.round + 1 && |a1.history| == |s.history| + 1
            && s2.promptType == NoPrompt && s2.cooldown == 1
            && a2.round == s.round + 2 && |a2.history| == |s.history| + 2
            && s3.promptType == NoPrompt && s3.cooldown == 0 && s3.mode == Psyche
  {
    PlanPrompt(s, d1, r1);
    var s1 := PlanStep(s, d1, r1).state;
    var a1 := PlayStep(Answer(s1, b, i), p1);
    assert a1.cooldown == 2 && a1.mode == Psyche && a1.round == s.round + 1;
    PlanCoolingDown(a1, d2, r2);
    var s2 := PlanStep(a1, d2, r2).state;
    var a2 := PlayStep(s2, p2);
    assert a2.cooldown == 1 && a2.mode == Psyche && a2.round == s.round + 2;
    PlanCoolingDown(a2, d3, r3);
  }

  /* ---------------- reset ---------------- */

  /** `handleReset`: clears the history, bumps the round, clears the answers and the prompt;
      the gate is then open, and every other field keeps its value. */
  function ResetStep(s: State): (t: State)
    ensures t.history == [] && t.round == s.round + 1
    ensures t.promptType == NoPrompt && t.belief == None && t.intent == None
    ensures PromptSatisfied(t.promptType, t.belief, t.intent)
    ensures t.mode == s.mode && t.cooldown == s.cooldown && t.botCommit == s.botCommit
    ensures t.probs == s.probs && t.botClaim == s.botClaim && t.youClaim == s.youClaim
  {
    s.(history := [], round := s.round + 1, belief := None, intent := None, promptType := NoPrompt)
  }

  /** Reset empties the history, clears the prompt and both answers and so opens the gate;
      the cooldown, the commitment, the
      claims, the probabilities and the mode survive, and the round counter still advances. */
  lemma ResetFacts(s: State)
    requires Inv(s)
    ensures var t := ResetStep(s);
            && Inv(t) && t.history == [] && t.round == s.round + 1
            && t.promptType == NoPrompt && t.belief == None && t.intent == None
            && PromptSatisfied(t.promptType, t.belief, t.intent)
            && StatsOf(t.history) == Stats(0, 0, 0, 0)
            && AdherenceOf(t.history) == 0.5 && StreakOf(t.history) == None
            && t.cooldown == s.cooldown && t.botCommit == s.botCommit && t.mode == s.mode
            && t.probs == s.probs && t.botClaim == s.botClaim && t.youClaim == s.youClaim
  {
  }
}
