/** The round history (newest first) and the signals the planner reads from it:
    the context window sent to the predictor, prompt adherence, the dominant
    streak and the win/loss/draw statistics. */
module Ledger {
  import opened Options
  import opened Moves

  /** Kind of prompt active in a round: none, a claim about the bot's move, or one about the player's. */
  datatype PromptType = NoPrompt | BotPrompt | YouPrompt

  /** Answer to a bot claim. */
  datatype Belief = Believe | Dont

  /** Answer to a claim about the player. */
  datatype Intent = Will | Wont

  /** One completed round, as stored in the history. */
  datatype RoundRecord = RoundRecord(
    player: Move,
    bot: Move,
    result: Outcome,
    promptType: PromptType,
    botClaim: Option<Move>,
    youClaim: Option<Move>,
    belief: Option<Belief>,
    intent: Option<Intent>)

  /** The one-letter outcome codes of the context window. */
  datatype Code = W | L | D

  /** An element of the context window: a move or an outcome code. */
  datatype Token = MoveToken(move: Move) | CodeToken(code: Code)

  function Min(a: int, b: int): int {
    if a < b then a else b
  }

  function CodeOf(o: Outcome): Code {
    match o
    case Win => W
    case Lose => L
    case Draw => D
  }

  /** A record as a round resolution builds it: the result decided from the two moves,
      and the claim and answer kept exactly for the prompt kind that was active. */
  predicate WellFormed(r: RoundRecord) {
    && r.result == Decide(r.player, r.bot)
    && (r.botClaim.Some? <==> r.promptType == BotPrompt)
    && (r.belief.Some? <==> r.promptType == BotPrompt)
    && (r.youClaim.Some? <==> r.promptType == YouPrompt)
    && (r.intent.Some? <==> r.promptType == YouPrompt)
  }

  /* ---------------- context window ---------------- */

  /** The two tokens one record contributes: its player move and its outcome code. */
  function Entry(r: RoundRecord): seq<Token> {
    [MoveToken(r.player), CodeToken(CodeOf(r.result))]
  }

  /** Context of the `n` most recent rounds, built oldest-last as the loop pushes it. */
  function ContextOf(h: seq<RoundRecord>, n: nat): (ctx: seq<Token>)
    ensures |ctx| == 2 * Min(n, |h|)
    decreases n
  {
    var k := Min(n, |h|);
    if k == 0 then [] else ContextOf(h, k - 1) + Entry(h[k - 1])
  }

  /** Position `2i` of the context is the player move of `h[i]`, position `2i+1` its outcome code. */
  lemma {:induction false} ContextOfAt(h: seq<RoundRecord>, n: nat, i: nat)
    requires i < Min(n, |h|)
    ensures ContextOf(h, n)[2 * i] == MoveToken(h[i].player)
    ensures ContextOf(h, n)[2 * i + 1] == CodeToken(CodeOf(h[i].result))
    decreases n
  {
    var k := Min(n, |h|);
    if i < k - 1 {
      ContextOfAt(h, k - 1, i);
    }
  }

  /** `context(n)`: the loop that pushes a move and a code per record. */
  method Context(h: seq<RoundRecord>, n: nat) returns (ctx: seq<Token>)
    ensures ctx == ContextOf(h, n)
  {
    ctx := [];
    var i := 0;
    while i < Min(n, |h|)
      invariant 0 <= i <= Min(n, |h|)
      invariant ctx == ContextOf(h, i)
    {
      var r := h[i];
      ctx := ctx + [MoveToken(r.player)];
      ctx := ctx + [CodeToken(CodeOf(r.result))];
      i := i + 1;
    }
  }

  /* ---------------- prompt adherence ---------------- */

  /** The player kept their declared intent: played the claimed move after "will",
      or anything but it after "wont". A missing claim never equals the move. */
  predicate Adherent(r: RoundRecord)
    ensures Adherent(r) ==> r.intent.Some?
  {
    || (r.intent == Some(Will) && Some(r.player) == r.youClaim)
    || (r.intent == Some(Wont) && Some(r.player) != r.youClaim)
  }

  /** The records answered under a claim about the player, in history order. */
  function YouRecords(h: seq<RoundRecord>): (rs: seq<RoundRecord>)
    ensures |rs| <= |h|
  {
    if h == [] then []
    else (if h[0].promptType == YouPrompt then [h[0]] else []) + YouRecords(h[1..])
  }

  /** Filter first, then keep the 10 most recent. */
  function Recent(h: seq<RoundRecord>): (recent: seq<RoundRecord>)
    ensures |recent| == Min(10, |YouRecords(h)|)
    ensures recent == [] <==> YouRecords(h) == []
  {
    var you := YouRecords(h);
    you[..Min(10, |you|)]
  }

  /** Number of adherent records. */
  function CountAdherent(rs: seq<RoundRecord>): (c: nat)
    ensures c <= |rs|
  {
    if rs == [] then 0
    else CountAdherent(rs[..|rs| - 1]) + (if Adherent(rs[|rs| - 1]) then 1 else 0)
  }

  /** `adherence()`: the adherent fraction of the recent records, 0.5 when there are none. */
  function AdherenceOf(h: seq<RoundRecord>): (a: real)
    ensures 0.0 <= a <= 1.0
    ensures YouRecords(h) == [] ==> a == 0.5
  {
    var recent := Recent(h);
    if |recent| == 0 then 0.5
    else
      var ok, k := CountAdherent(recent), |recent|;
      assert ok as real / k as real <= 1.0 by {
        assert ok as real <= k as real;
      }
      ok as real / k as real
  }

  /** `adherence()` as written: a counting loop over the recent records. */
  method Adherence(h: seq<RoundRecord>) returns (a: real)
    ensures a == AdherenceOf(h)
  {
    var recent := Recent(h);
    if |recent| == 0 {
      return 0.5;
    }
    var ok := 0;
    var i := 0;
    while i < |recent|
      invariant 0 <= i <= |recent|
      invariant ok == CountAdherent(recent[..i])
    {
      var r := recent[i];
      if r.intent == Some(Will) && Some(r.player) == r.youClaim {
        ok := ok + 1;
      }
      if r.intent == Some(Wont) && Some(r.player) != r.youClaim {
        ok := ok + 1;
      }
      assert recent[..i + 1][..i] == recent[..i];
      i := i + 1;
    }
    assert recent[..i] == recent;
    a := ok as real / |recent| as real;
  }

  /** A record is kept by the filter exactly when it is in the history under a claim about the player. */
  lemma {:induction false} YouRecordsExact(h: seq<RoundRecord>, x: RoundRecord)
    ensures x in YouRecords(h) <==> x in h && x.promptType == YouPrompt
  {
    if h != [] {
      YouRecordsExact(h[1..], x);
      assert h == [h[0]] + h[1..];
    }
  }

  /** The filter splits over concatenation: it keeps the records under a claim about the
      player, in history order, and drops no repeats. */
  lemma {:induction false} YouRecordsAppend(a: seq<RoundRecord>, b: seq<RoundRecord>)
    ensures YouRecords(a + b) == YouRecords(a) + YouRecords(b)
    decreases |a|
  {
    if a == [] {
      assert a + b == b;
    } else {
      var head := if a[0].promptType == YouPrompt then [a[0]] else [];
      assert (a + b)[0] == a[0];
      assert (a + b)[1..] == a[1..] + b;
      calc {
        YouRecords(a + b);
        head + YouRecords(a[1..] + b);
        { YouRecordsAppend(a[1..], b); }
        head + (YouRecords(a[1..]) + YouRecords(b));
        (head + YouRecords(a[1..])) + YouRecords(b);
        YouRecords(a) + YouRecords(b);
      }
    }
  }

  /** One record passes the filter exactly when it was played under a claim about the player. */
  lemma YouRecordsOne(r: RoundRecord)
    ensures YouRecords([r]) == if r.promptType == YouPrompt then [r] else []
  {
    assert [r][1..] == [];
  }

  /** The recent records are the most recent ones: with `a` newer than `b`, once `a` holds
      10 records under a claim about the player, `b` plays no part; otherwise all of
      `a`'s are kept, followed by the newest of `b`'s up to 10 in all. */
  lemma RecentSplit(a: seq<RoundRecord>, b: seq<RoundRecord>)
    ensures |YouRecords(a)| >= 10 ==> Recent(a + b) == Recent(a)
    ensures |YouRecords(a)| < 10 ==>
              Recent(a + b) == YouRecords(a) + YouRecords(b)[..Min(10 - |YouRecords(a)|, |YouRecords(b)|)]
  {
    YouRecordsAppend(a, b);
    var ya, yb := YouRecords(a), YouRecords(b);
    if |ya| >= 10 {
      assert (ya + yb)[..10] == ya[..10];
    } else {
      assert (ya + yb)[..Min(10, |ya| + |yb|)] == ya + yb[..Min(10 - |ya|, |yb|)];
    }
  }

  /** Adherence is 0.5 exactly when no record was played under a claim about the player;
      otherwise it is `ok / k` over the `k = min(10, count)` most recent such records. */
  lemma AdherenceRange(h: seq<RoundRecord>)
    ensures (forall i :: 0 <= i < |h| ==> h[i].promptType != YouPrompt) ==> AdherenceOf(h) == 0.5
    ensures |Recent(h)| == Min(10, |YouRecords(h)|)
    ensures |Recent(h)| == 0 <==> forall i :: 0 <= i < |h| ==> h[i].promptType != YouPrompt
    ensures 0.0 <= AdherenceOf(h) <= 1.0
  {
    var you := YouRecords(h);
    if |you| == 0 {
      forall i | 0 <= i < |h| ensures h[i].promptType != YouPrompt {
        YouRecordsExact(h, h[i]);
      }
    } else {
      YouRecordsExact(h, you[0]);
    }
  }

  /* ---------------- dominant streak ---------------- */

  /** The player moves of a run of records. */
  function Players(rs: seq<RoundRecord>): (ms: seq<Move>)
    ensures |ms| == |rs|
    ensures forall i :: 0 <= i < |rs| ==> ms[i] == rs[i].player
  {
    seq(|rs|, i requires 0 <= i < |rs| => rs[i].player)
  }

  /** The dominant streak: the move of the five most recent rounds when they all agree. */
  function StreakOf(h: seq<RoundRecord>): (m: Option<Move>)
    ensures m.Some? ==> |h| >= 5 && forall i :: 0 <= i < 5 ==> h[i].player == m.value
  {
    if |h| < 5 then None
    else if forall i :: 0 <= i < 5 ==> h[i].player == h[0].player then Some(h[0].player)
    else None
  }

  /** `streakMove()`: the leading run of the last 10 player moves, counted with a breaking loop. */
  method StreakMove(h: seq<RoundRecord>) returns (m: Option<Move>)
    ensures m == StreakOf(h)
  {
    var window := Players(h[..Min(10, |h|)]);
    if |window| < 5 {
      return None;
    }
    var s := 1;
    var i := 1;
    while i < |window|
      invariant 1 <= i <= |window|
      invariant s == i
      invariant forall j :: 0 <= j < i ==> window[j] == window[0]
    {
      if window[i] == window[0] {
        s := s + 1;
      } else {
        break;
      }
      i := i + 1;
    }
    m := if s >= 5 then Some(window[0]) else None;
  }

  /** A streak of `m` means the five most recent rounds were all played with `m`, and conversely. */
  lemma StreakIff(h: seq<RoundRecord>, m: Move)
    ensures StreakOf(h) == Some(m) <==> |h| >= 5 && forall i :: 0 <= i < 5 ==> h[i].player == m
  {
  }

  /* ---------------- statistics ---------------- */

  /** Number of records with result `o`. */
  function Count(h: seq<RoundRecord>, o: Outcome): (c: nat)
    ensures c <= |h|
  {
    if h == [] then 0 else (if h[0].result == o then 1 else 0) + Count(h[1..], o)
  }

  datatype Stats = Stats(wins: nat, losses: nat, draws: nat, winRate: nat)

  /** `Math.round(num / den)` for non-negative operands: the nearest integer, halves rounded up. */
  function RoundHalfUp(num: nat, den: nat): (r: nat)
    requires den > 0
    ensures den * (2 * r - 1) <= 2 * num < den * (2 * r + 1)
  {
    var r := (2 * num + den) / (2 * den);
    assert 2 * den * r <= 2 * num + den < 2 * den * r + 2 * den;
    r
  }

  /** `stats`: the three counts and the win rate over decided rounds, draws excluded.
      Every round is counted once, and the win rate is a percentage in [0, 100]. */
  function StatsOf(h: seq<RoundRecord>): (st: Stats)
    ensures st.wins + st.losses + st.draws == |h|
    ensures st.winRate <= 100
  {
    var wins := Count(h, Win);
    var losses := Count(h, Lose);
    var draws := Count(h, Draw);
    var wlTotal := if wins + losses > 1 then wins + losses else 1;
    CountsPartition(h);
    RoundHalfUpAtMost100(100 * wins, wlTotal);
    Stats(wins, losses, draws, RoundHalfUp(100 * wins, wlTotal))
  }

  lemma {:induction false} CountsPartition(h: seq<RoundRecord>)
    ensures Count(h, Win) + Count(h, Lose) + Count(h, Draw) == |h|
  {
    if h != [] {
      CountsPartition(h[1..]);
    }
  }

  /** A rounded ratio `num / den` with `num <= 100 * den` is at most 100. */
  lemma RoundHalfUpAtMost100(num: nat, den: nat)
    requires den > 0 && num <= 100 * den
    ensures RoundHalfUp(num, den) <= 100
  {
  }

  /** The win rate is `100 * wins / max(1, wins + losses)` rounded to the nearest
      integer (halves up): draws are left out of the denominator. */
  lemma WinRateRounded(h: seq<RoundRecord>)
    ensures var st := StatsOf(h);
            var wl := if Count(h, Win) + Count(h, Lose) > 1 then Count(h, Win) + Count(h, Lose) else 1;
            wl * (2 * st.winRate - 1) <= 200 * Count(h, Win) < wl * (2 * st.winRate + 1)
  {
  }

  /** Win, loss and draw, in any order: a 50% win rate. */
  lemma WinRateExample(a: RoundRecord, b: RoundRecord, c: RoundRecord)
    requires a.result == Win && b.result == Lose && c.result == Draw
    ensures StatsOf([a, b, c]) == Stats(1, 1, 1, 50)
  {
    assert [a, b, c][1..] == [b, c];
    assert [b, c][1..] == [c];
    assert [c][1..] == [];
    forall o: Outcome ensures Count([a, b, c], o) == 1 {
      assert Count([c], o) == (if o == Draw then 1 else 0);
      assert Count([b, c], o) == (if o == Win then 0 else 1);
    }
    assert RoundHalfUp(100, 2) == 50;
  }
}
