/** The component's session state as an object whose fields its handlers update in
    place. Each method follows the handler's statements in order and is proved to
    produce the snapshot the matching step function of `Rounds` describes. */
module Session {
  import opened Options
  import opened Moves
  import opened Ledger
  import opened Rounds

  class Predictor {
    var mode: Mode
    var round: int
    var history: seq<RoundRecord>
    var promptType: PromptType
    var botClaim: Move
    var youClaim: Move
    var belief: Option<Belief>
    var intent: Option<Intent>
    var cooldown: int
    var botCommit: Move
    var probs: Probs

    /** The current values of all fields. */
    function Snapshot(): State
      reads this
    {
      State(history, round, mode, promptType, botClaim, youClaim, belief, intent, cooldown, botCommit, probs)
    }

    ghost predicate Valid()
      reads this
    {
      Inv(Snapshot())
    }

    /** The `useState` initial values. */
    constructor ()
      ensures Snapshot() == Initial() && Valid()
    {
      mode := Psyche;
      round := 1;
      history := [];
      promptType := NoPrompt;
      botClaim := Rock;
      youClaim := Paper;
      belief := None;
      intent := None;
      cooldown := 0;
      botCommit := Rock;
      probs := Probs(0.33, 0.33, 0.33);
    }

    /** The planner effect. Prompt kind, player claim, intent and cooldown are read from
        the values the run started with, as the effect's closure does. */
    method Plan(d: Draws, reply: Option<Reply>) returns (req: Option<PredictRequest>)
      requires Valid() && ValidDraws(d)
      modifies this
      ensures Valid()
      ensures Snapshot() == PlanStep(old(Snapshot()), d, reply).state
      ensures req == PlanStep(old(Snapshot()), d, reply).request
    {
      PlanInv(Snapshot(), d, reply);
      ghost var seen := Snapshot();
      var seenPrompt, seenYouClaim, seenIntent := promptType, youClaim, intent;
      belief := None;
      intent := None;
      req := None;

      if mode == Random {
        promptType := NoPrompt;
        botCommit := RandMove(d.commit);
        return;
      }

      RaisePrompt(d);
      req := Commit(seen, d, reply, seenPrompt, seenYouClaim, seenIntent);
    }

    /** Prompt phase of the planner: issue a prompt when stuck, else clear it and let the
        cooldown run down. */
    method RaisePrompt(d: Draws)
      requires ValidDraws(d)
      modifies this
      ensures Snapshot() == PromptPhase(old(Snapshot()), old(Snapshot()), d)
    {
      var maxProb := MaxProb(probs);
      var recentLosses := RecentLosses(history);
      var stuck := (maxProb < Unsure || recentLosses >= 2) && cooldown == 0;

      if stuck {
        var which := if d.which < 0.5 then BotPrompt else YouPrompt;
        promptType := which;
        if which == BotPrompt {
          botClaim := BagMove(d.claim);
        } else {
          youClaim := RandMove(d.claim);
        }
        cooldown := PromptCooldown;
      } else {
        promptType := NoPrompt;
        cooldown := if cooldown - 1 > 0 then cooldown - 1 else 0;
      }
    }

    /** Commitment phase of the planner, in psyche mode after the prompt phase: the streak
        counter, then the predictor, then the heuristic fallback. `seen` is the snapshot the
        planner run started from. */
    method Commit(ghost seen: State, d: Draws, reply: Option<Reply>,
                  seenPrompt: PromptType, seenYouClaim: Move, seenIntent: Option<Intent>)
      returns (req: Option<PredictRequest>)
      requires ValidDraws(d) && seen.mode == Psyche
      requires seenPrompt == seen.promptType && seenYouClaim == seen.youClaim && seenIntent == seen.intent
      requires Snapshot() == PromptPhase(seen, seen.(belief := None, intent := None), d)
      modifies this
      ensures Snapshot() == PlanStep(seen, d, reply).state
      ensures req == PlanStep(seen, d, reply).request
    {
      req := None;
      var streak := StreakMove(history);
      if streak.Some? {
        botCommit := BeatenBy(streak.value);
        return;
      }

      if d.explore > Epsilon {
        var ctx := Context(history, 6);
        var adherence := Adherence(history);
        req := Some(PredictRequest(ctx, seenPrompt, adherence));
        if reply.Some? {
          if reply.value.probs.Some? {
            probs := reply.value.probs.value;
          }
          botCommit := reply.value.botMove.GetOr(RandMove(d.commit));
          return;
        }
      }

      if seenPrompt == YouPrompt {
        var assumed := if seenIntent == Some(Will) then seenYouClaim else BeatenBy(seenYouClaim);
        botCommit := BeatenBy(assumed);
      } else {
        botCommit := RandMove(d.commit);
      }
    }

    /** `handlePlay(player)`: rejected while the prompt is unanswered; otherwise resolves
        the effective bot move, prepends the round's record and advances the round. */
    method Play(player: Move)
      requires Valid()
      modifies this
      ensures Valid()
      ensures Snapshot() == PlayStep(old(Snapshot()), player)
    {
      PlayInv(Snapshot(), player);
      if !PromptSatisfied(promptType, belief, intent) {
        return;
      }
      var bot := botCommit;
      if mode == Psyche {
        if promptType == YouPrompt && intent.Some? {
          var assumed := if intent.value == Will then youClaim else BeatenBy(youClaim);
          bot := BeatenBy(assumed);
        } else if promptType == BotPrompt && belief.Some? {
          if belief.value == Believe {
            bot := BeatenBy(BeatenBy(botClaim));
          }
        }
      }
      var result := Decide(player, bot);
      var record := RoundRecord(player, bot, result, promptType,
        if promptType == BotPrompt then Some(botClaim) else None,
        if promptType == YouPrompt then Some(youClaim) else None,
        if promptType == BotPrompt then belief else None,
        if promptType == YouPrompt then intent else None);
      history := [record] + history;
      round := round + 1;
    }

    /** `handleReset`. */
    method Reset()
      requires Valid()
      modifies this
      ensures Valid()
      ensures Snapshot() == ResetStep(old(Snapshot()))
    {
      history := [];
      round := round + 1;
      belief := None;
      intent := None;
      promptType := NoPrompt;
    }

    /** The mode buttons. */
    method SetMode(m: Mode)
      requires Valid()
      modifies this
      ensures Valid()
      ensures Snapshot() == old(Snapshot()).(mode := m)
    {
      mode := m;
    }

    /** The "I believe you" / "I don't believe" buttons; under a bot prompt they open the gate. */
    method AnswerBelief(b: Belief)
      requires Valid()
      modifies this
      ensures Valid()
      ensures Snapshot() == old(Snapshot()).(belief := Some(b))
      ensures promptType == BotPrompt ==> PromptSatisfied(promptType, belief, intent)
    {
      belief := Some(b);
    }

    /** The "I will" / "I won't" buttons; under a claim about the player they open the gate. */
    method AnswerIntent(i: Intent)
      requires Valid()
      modifies this
      ensures Valid()
      ensures Snapshot() == old(Snapshot()).(intent := Some(i))
      ensures promptType == YouPrompt ==> PromptSatisfied(promptType, belief, intent)
    {
      intent := Some(i);
    }
  }
}
