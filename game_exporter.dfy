/** `create_game_from_json`: the raw Lichess game record turned into the typed
    game model, its SAN string split into plies and the plies paired. */
module GameExporter {
  import opened Wrappers
  import opened Text
  import opened DataModels

  /* ---------------- The raw record ---------------- */

  /** The optional counters under `players.<colour>.analysis`. */
  datatype RawPlayerAnalysis = RawPlayerAnalysis(
    inaccuracy: Option<int>, mistake: Option<int>, blunder: Option<int>, acpl: Option<int>)

  datatype RawPlayer = RawPlayer(
    name: string, id: string, rating: int, ratingDiff: int, analysis: Option<RawPlayerAnalysis>)

  /** One entry of the per-ply `analysis` list; `judgment` is the JSON object
      with its string entries, absent or `null` as `None`. */
  datatype RawPlyAnalysis = RawPlyAnalysis(
    eval: Option<int>,
    mate: Option<int>,
    best: Option<string>,
    variation: Option<string>,
    judgment: Option<map<string, string>>)

  datatype RawOpening = RawOpening(eco: Option<string>, name: Option<string>, ply: Option<int>)

  datatype RawClock = RawClock(initial: Option<int>, increment: Option<int>, totalTime: Option<int>)

  datatype RawDivision = RawDivision(middle: Option<int>, end: Option<int>)

  /** The game record; a `None` field is a key the record does not have. */
  datatype RawGame = RawGame(
    id: Option<string>,
    rated: Option<bool>,
    variant: Option<string>,
    speed: Option<string>,
    status: Option<string>,
    white: RawPlayer,
    black: RawPlayer,
    winner: Option<string>,
    moves: string,
    clocks: seq<int>,
    analysis: Option<seq<RawPlyAnalysis>>,
    opening: RawOpening,
    clock: RawClock,
    division: RawDivision)

  /** The exceptions the parse raises. */
  datatype ParseError =
    | ClockMissing(ply: nat)                  // `moves_clocks[idx]` raises IndexError
    | AnalysisListMissing                     // `len(None)` raises TypeError
    | JudgmentKeyMissing(ply: nat, key: string)  // `["name"]` or `["comment"]` raises KeyError

  /* ---------------- One ply ---------------- */

  function PlayerAnalysis(raw: RawPlayer, hasAnalysis: bool): PlayerGameAnalysis {
    if !hasAnalysis then NoPlayerAnalysis
    else
      var a := raw.analysis.GetOr(RawPlayerAnalysis(None, None, None, None));
      PlayerGameAnalysis(a.inaccuracy.GetOr(-1), a.mistake.GetOr(-1), a.blunder.GetOr(-1), a.acpl.GetOr(-1))
  }

  function PlayerOf(color: Color, raw: RawPlayer, hasAnalysis: bool): Player {
    Player(color, User(raw.name, raw.id), raw.rating, raw.ratingDiff, PlayerAnalysis(raw, hasAnalysis))
  }

  /** In the `for idx` loop of `create_game_from_json`: the ply's clock minus the clock two plies earlier (same side). */
  function ThinkingTime(clocks: seq<int>, idx: nat): Result<int, ParseError> {
    if idx >= 2 then
      if idx < |clocks| then Ok(clocks[idx] - clocks[idx - 2]) else Err(ClockMissing(idx))
    else Ok(0)
  }

  /** A judgment object counts when it is present and not empty. */
  predicate HasJudgment(entry: RawPlyAnalysis) {
    entry.judgment.Some? && |entry.judgment.value| > 0
  }

  function JudgmentOf(entry: RawPlyAnalysis, idx: nat): Result<Option<Judgment>, ParseError> {
    if HasJudgment(entry) then
      var m := entry.judgment.value;
      if "name" !in m then Err(JudgmentKeyMissing(idx, "name"))
      else if "comment" !in m then Err(JudgmentKeyMissing(idx, "comment"))
      else Ok(Some(Judgment(m["name"], m["comment"])))
    else Ok(None)
  }

  function PlyAnalysis(analyses: Option<seq<RawPlyAnalysis>>, idx: nat, hasAnalysis: bool): Result<MoveAnalysis, ParseError> {
    if !hasAnalysis then Ok(NoAnalysis)
    else if analyses.None? then Err(AnalysisListMissing)
    else if idx >= |analyses.value| then Ok(NoAnalysis)
    else
      var entry := analyses.value[idx];
      var judgment :- JudgmentOf(entry, idx);
      Ok(MoveAnalysis(entry.eval, entry.mate, entry.best, entry.variation, judgment))
  }

  /** The body of the ply loop, in the source's order: thinking time, analysis, clock. */
  function Ply(raw: RawGame, idx: nat, san: string, hasAnalysis: bool): Result<Move, ParseError> {
    var thinking :- ThinkingTime(raw.clocks, idx);
    var analysis :- PlyAnalysis(raw.analysis, idx, hasAnalysis);
    if idx < |raw.clocks| then Ok(Move(san, raw.clocks[idx], thinking, analysis)) else Err(ClockMissing(idx))
  }

  /** The first `n` plies, or the error of the first ply that fails. */
  function Plies(raw: RawGame, sans: seq<string>, n: nat, hasAnalysis: bool): Result<seq<Move>, ParseError>
    requires n <= |sans|
  {
    if n == 0 then Ok([])
    else
      var earlier :- Plies(raw, sans, n - 1, hasAnalysis);
      var move :- Ply(raw, n - 1, sans[n - 1], hasAnalysis);
      Ok(earlier + [move])
  }

  /* ---------------- Pairing ---------------- */

  /** Plies 2k and 2k + 1 as pair k; a last odd ply has no black reply. */
  function PairUp(plies: seq<Move>): seq<MovePair>
    decreases |plies|
  {
    if |plies| == 0 then []
    else if |plies| == 1 then [(plies[0], None)]
    else [(plies[0], Some(plies[1]))] + PairUp(plies[2..])
  }

  /** The plies of the pairs, in order, skipping missing black moves. */
  function Flatten(pairs: seq<MovePair>): seq<Move>
    decreases |pairs|
  {
    if |pairs| == 0 then []
    else [pairs[0].0] + (if pairs[0].1.Some? then [pairs[0].1.value] else []) + Flatten(pairs[1..])
  }

  /** ⌈N/2⌉ pairs; pair k holds plies 2k and 2k + 1; the last black move is
      missing exactly when N is odd. */
  lemma {:induction false} PairUpShape(plies: seq<Move>)
    ensures |PairUp(plies)| == (|plies| + 1) / 2
    ensures forall k :: 0 <= k < |PairUp(plies)| ==>
      PairUp(plies)[k].0 == plies[2 * k]
      && PairUp(plies)[k].1 == if 2 * k + 1 < |plies| then Some(plies[2 * k + 1]) else None
    ensures |plies| > 0 ==> (PairUp(plies)[|PairUp(plies)| - 1].1.None? <==> |plies| % 2 == 1)
    decreases |plies|
  {
    if |plies| >= 2 {
      var rest := plies[2..];
      PairUpShape(rest);
      var pairs := PairUp(plies);
      forall k | 0 < k < |pairs|
        ensures pairs[k].0 == plies[2 * k]
        ensures pairs[k].1 == if 2 * k + 1 < |plies| then Some(plies[2 * k + 1]) else None
      {
        assert pairs[k] == PairUp(rest)[k - 1];
        assert rest[2 * (k - 1)] == plies[2 * k];
        if 2 * k + 1 < |plies| {
          assert rest[2 * (k - 1) + 1] == plies[2 * k + 1];
        }
      }
    }
  }

  /** Flattening the pairs gives the plies back. */
  lemma {:induction false} FlattenPairUp(plies: seq<Move>)
    ensures Flatten(PairUp(plies)) == plies
    decreases |plies|
  {
    if |plies| == 1 {
      assert Flatten(PairUp(plies)) == [plies[0]] + [] + Flatten([]);
    } else if |plies| >= 2 {
      var pairs := PairUp(plies);
      FlattenPairUp(plies[2..]);
      assert pairs[1..] == PairUp(plies[2..]);
      assert plies == [plies[0]] + [plies[1]] + plies[2..];
    }
  }

  lemma {:induction false} PairUpAppendPair(plies: seq<Move>, white: Move, black: Move)
    requires |plies| % 2 == 0
    ensures PairUp(plies + [white, black]) == PairUp(plies) + [(white, Some(black))]
    decreases |plies|
  {
    if |plies| > 0 {
      PairUpAppendPair(plies[2..], white, black);
      assert (plies + [white, black])[2..] == plies[2..] + [white, black];
    }
  }

  lemma {:induction false} PairUpAppendSingle(plies: seq<Move>, white: Move)
    requires |plies| % 2 == 0
    ensures PairUp(plies + [white]) == PairUp(plies) + [(white, None)]
    decreases |plies|
  {
    if |plies| > 0 {
      PairUpAppendSingle(plies[2..], white);
      assert (plies + [white])[2..] == plies[2..] + [white];
    }
  }

  /** The pairing state after some plies: the completed pairs so far, and the
      white move waiting for its reply after an odd number of plies. */
  predicate Pending(plies: seq<Move>, moves: seq<MovePair>, moveWhite: Option<Move>) {
    if |plies| % 2 == 0 then moveWhite.None? && moves == PairUp(plies)
    else moveWhite == Some(plies[|plies| - 1]) && moves == PairUp(plies[..|plies| - 1])
  }

  /** A white ply waits for its reply. */
  lemma PendingWhite(plies: seq<Move>, moves: seq<MovePair>, move: Move)
    requires |plies| % 2 == 0 && Pending(plies, moves, None)
    ensures Pending(plies + [move], moves, Some(move))
  {
    assert (plies + [move])[..|plies|] == plies;
  }

  /** A black ply completes the pair of the waiting white move. */
  lemma PendingBlack(plies: seq<Move>, moves: seq<MovePair>, white: Move, move: Move)
    requires |plies| % 2 == 1 && Pending(plies, moves, Some(white))
    ensures Pending(plies + [move], moves + [(white, Some(move))], None)
  {
    var earlier := plies[..|plies| - 1];
    PairUpAppendPair(earlier, white, move);
    assert earlier + [white, move] == plies + [move];
  }

  /** At the end, a waiting white move becomes a pair of its own. */
  lemma PendingDone(plies: seq<Move>, moves: seq<MovePair>, moveWhite: Option<Move>)
    requires Pending(plies, moves, moveWhite)
    ensures PairUp(plies) == if moveWhite.Some? then moves + [(moveWhite.value, None)] else moves
  {
    if moveWhite.Some? {
      var earlier := plies[..|plies| - 1];
      PairUpAppendSingle(earlier, moveWhite.value);
      assert earlier + [moveWhite.value] == plies;
    }
  }

  /* ---------------- The whole record ---------------- */

  /** The winner mapping of `create_game_from_json`: "white" and "black" name the winner, anything else none. */
  function WinnerOf(winner: Option<string>): (c: Option<Color>)
    ensures c == Some(White) <==> winner == Some("white")
    ensures c == Some(Black) <==> winner == Some("black")
    ensures c.None? <==> winner !in {Some("white"), Some("black")}
  {
    var winnerStr := winner.GetOr("");
    if winnerStr == "white" then Some(White)
    else if winnerStr == "black" then Some(Black)
    else None
  }

  /** The plies of all tokens, paired, or the error of the first failing ply. */
  function PairedPlies(raw: RawGame, sans: seq<string>, hasAnalysis: bool): Result<seq<MovePair>, ParseError> {
    var plies :- Plies(raw, sans, |sans|, hasAnalysis);
    Ok(PairUp(plies))
  }

  function ParseGame(raw: RawGame, hasAnalysis: bool): Result<Game, ParseError> {
    var moves :- PairedPlies(raw, Split(raw.moves, ' '), hasAnalysis);
    Ok(Game(
      raw.id.GetOr("N/A"),
      raw.rated.GetOr(true),
      raw.variant.GetOr("N/A"),
      raw.speed.GetOr("N/A"),
      "", -1, -1,
      raw.status.GetOr("N/A"),
      "",
      (PlayerOf(White, raw.white, hasAnalysis), PlayerOf(Black, raw.black, hasAnalysis)),
      WinnerOf(raw.winner),
      moves,
      Clock(raw.clock.initial.GetOr(-1), raw.clock.increment.GetOr(-1), raw.clock.totalTime.GetOr(-1)),
      Division(raw.division.middle, raw.division.end),
      Opening(raw.opening.eco.GetOr(""), raw.opening.name.GetOr(""), raw.opening.ply.GetOr(0)),
      hasAnalysis))
  }

  /* ---------------- Properties of the parse ---------------- */

  lemma {:induction false} PliesShape(raw: RawGame, sans: seq<string>, n: nat, hasAnalysis: bool)
    requires n <= |sans|
    ensures Plies(raw, sans, n, hasAnalysis).Ok? <==>
      forall i :: 0 <= i < n ==> Ply(raw, i, sans[i], hasAnalysis).Ok?
    ensures Plies(raw, sans, n, hasAnalysis).Ok? ==>
      var plies := Plies(raw, sans, n, hasAnalysis).value;
      |plies| == n && forall i :: 0 <= i < n ==> Ply(raw, i, sans[i], hasAnalysis) == Ok(plies[i])
    decreases n
  {
    if n > 0 {
      PliesShape(raw, sans, n - 1, hasAnalysis);
    }
  }

  lemma PliesNext(raw: RawGame, sans: seq<string>, idx: nat, hasAnalysis: bool, plies: seq<Move>, move: Move)
    requires idx < |sans|
    requires Plies(raw, sans, idx, hasAnalysis) == Ok(plies)
    requires Ply(raw, idx, sans[idx], hasAnalysis) == Ok(move)
    ensures Plies(raw, sans, idx + 1, hasAnalysis) == Ok(plies + [move])
  {
  }

  /** Once a ply fails, the whole parse fails with that ply's error. */
  lemma {:induction false} PliesFailAt(raw: RawGame, sans: seq<string>, idx: nat, n: nat, hasAnalysis: bool, e: ParseError)
    requires idx < n <= |sans|
    requires Plies(raw, sans, idx, hasAnalysis).Ok?
    requires Ply(raw, idx, sans[idx], hasAnalysis) == Err(e)
    ensures Plies(raw, sans, n, hasAnalysis) == Err(e)
    decreases n
  {
    if n > idx + 1 {
      PliesFailAt(raw, sans, idx, n - 1, hasAnalysis, e);
    }
  }

  /** What the record must hold for the parse to succeed. */
  predicate Parseable(raw: RawGame, hasAnalysis: bool) {
    var n := |Split(raw.moves, ' ')|;
    && n <= |raw.clocks|
    && (hasAnalysis ==> raw.analysis.Some?)
    && (hasAnalysis ==> forall i :: 0 <= i < n && i < |raw.analysis.value| && HasJudgment(raw.analysis.value[i]) ==>
          "name" in raw.analysis.value[i].judgment.value && "comment" in raw.analysis.value[i].judgment.value)
  }

  /** The parse fails exactly when the clock list is shorter than the plies,
      the analysis flag is set without a per-ply analysis list, or a non-empty
      judgment lacks its name or comment. */
  lemma ParseSucceedsIff(raw: RawGame, hasAnalysis: bool)
    ensures ParseGame(raw, hasAnalysis).Ok? <==> Parseable(raw, hasAnalysis)
  {
    var sans := Split(raw.moves, ' ');
    PliesShape(raw, sans, |sans|, hasAnalysis);
    if Parseable(raw, hasAnalysis) {
      EveryPlyParses(raw, sans, hasAnalysis);
    } else {
      SomePlyFails(raw, sans, hasAnalysis);
    }
  }

  lemma EveryPlyParses(raw: RawGame, sans: seq<string>, hasAnalysis: bool)
    requires sans == Split(raw.moves, ' ') && Parseable(raw, hasAnalysis)
    ensures forall i :: 0 <= i < |sans| ==> Ply(raw, i, sans[i], hasAnalysis).Ok?
  {
    forall i | 0 <= i < |sans| ensures Ply(raw, i, sans[i], hasAnalysis).Ok? {
      assert i < |raw.clocks|;
    }
  }

  lemma SomePlyFails(raw: RawGame, sans: seq<string>, hasAnalysis: bool)
    requires sans == Split(raw.moves, ' ') && !Parseable(raw, hasAnalysis)
    ensures exists i :: 0 <= i < |sans| && !Ply(raw, i, sans[i], hasAnalysis).Ok?
  {
    var n := |sans|;
    if n > |raw.clocks| {
      assert !Ply(raw, n - 1, sans[n - 1], hasAnalysis).Ok?;
    } else if hasAnalysis && raw.analysis.None? {
      assert !Ply(raw, 0, sans[0], hasAnalysis).Ok?;
    } else {
      var i :| 0 <= i < n && i < |raw.analysis.value| && HasJudgment(raw.analysis.value[i]) &&
        !("name" in raw.analysis.value[i].judgment.value && "comment" in raw.analysis.value[i].judgment.value);
      assert !Ply(raw, i, sans[i], hasAnalysis).Ok?;
    }
  }

  /** What a parsed ply holds, stated on the record alone. */
  predicate PlyMatchesRecord(raw: RawGame, hasAnalysis: bool, idx: nat, san: string, m: Move) {
    && idx < |raw.clocks|
    && m.san == san
    && m.clockCentis == raw.clocks[idx]
    && m.thinkingCentis == (if idx < 2 then 0 else raw.clocks[idx] - raw.clocks[idx - 2])
    && if hasAnalysis && raw.analysis.Some? && idx < |raw.analysis.value| then
         var entry := raw.analysis.value[idx];
         && m.analysis.eval == entry.eval
         && m.analysis.mate == entry.mate
         && m.analysis.best == entry.best
         && m.analysis.variation == entry.variation
         && (m.analysis.judgement.Some? <==> HasJudgment(entry))
         && (HasJudgment(entry) ==>
               var j := entry.judgment.value;
               "name" in j && "comment" in j && m.analysis.judgement == Some(Judgment(j["name"], j["comment"])))
       else m.analysis == NoAnalysis && !IsPresent(m.analysis)
  }

  lemma PlyFields(raw: RawGame, idx: nat, san: string, hasAnalysis: bool)
    requires Ply(raw, idx, san, hasAnalysis).Ok?
    ensures PlyMatchesRecord(raw, hasAnalysis, idx, san, Ply(raw, idx, san, hasAnalysis).value)
  {
  }

  /** The moves of a parsed game: ⌈N/2⌉ pairs for N tokens of the SAN string,
      the last black move missing exactly when N is odd, pair k holding plies
      2k and 2k + 1, and the plies read back in order, each carrying its token,
      its clock sample, its thinking time and its analysis. */
  lemma ParsedMoves(raw: RawGame, hasAnalysis: bool)
    requires ParseGame(raw, hasAnalysis).Ok?
    ensures var g := ParseGame(raw, hasAnalysis).value;
      var sans := Split(raw.moves, ' ');
      var plies := Flatten(g.moves);
      && |g.moves| == (|sans| + 1) / 2
      && (g.moves[|g.moves| - 1].1.None? <==> |sans| % 2 == 1)
      && |plies| == |sans|
      && (forall k :: 0 <= k < |g.moves| ==>
            g.moves[k].0 == plies[2 * k]
            && g.moves[k].1 == if 2 * k + 1 < |plies| then Some(plies[2 * k + 1]) else None)
      && forall i :: 0 <= i < |plies| ==> PlyMatchesRecord(raw, hasAnalysis, i, sans[i], plies[i])
  {
    var sans := Split(raw.moves, ' ');
    var plies := Plies(raw, sans, |sans|, hasAnalysis).value;
    assert ParseGame(raw, hasAnalysis).value.moves == PairUp(plies);
    PairUpShape(plies);
    FlattenPairUp(plies);
    ParsedPlies(raw, sans, hasAnalysis);
  }

  /** Every ply of a successful parse matches its record fields. */
  lemma ParsedPlies(raw: RawGame, sans: seq<string>, hasAnalysis: bool)
    requires Plies(raw, sans, |sans|, hasAnalysis).Ok?
    ensures var plies := Plies(raw, sans, |sans|, hasAnalysis).value;
      |plies| == |sans| && forall i :: 0 <= i < |plies| ==> PlyMatchesRecord(raw, hasAnalysis, i, sans[i], plies[i])
  {
    var plies := Plies(raw, sans, |sans|, hasAnalysis).value;
    PliesShape(raw, sans, |sans|, hasAnalysis);
    forall i | 0 <= i < |plies| ensures PlyMatchesRecord(raw, hasAnalysis, i, sans[i], plies[i]) {
      PlyFields(raw, i, sans[i], hasAnalysis);
    }
  }

  /** Flattening the pairs and taking each SAN gives the tokens of the move string. */
  lemma ParsedSansRoundTrip(raw: RawGame, hasAnalysis: bool)
    requires ParseGame(raw, hasAnalysis).Ok?
    ensures var plies := Flatten(ParseGame(raw, hasAnalysis).value.moves);
      Join(seq(|plies|, i requires 0 <= i < |plies| => plies[i].san), ' ') == raw.moves
  {
    ParsedMoves(raw, hasAnalysis);
    var plies := Flatten(ParseGame(raw, hasAnalysis).value.moves);
    var sans := Split(raw.moves, ' ');
    assert seq(|plies|, i requires 0 <= i < |plies| => plies[i].san) == sans;
    JoinSplit(raw.moves, ' ');
  }

  /** An empty move string is one empty token, hence one pair ("", None). */
  lemma EmptyMoveString(raw: RawGame, hasAnalysis: bool)
    requires raw.moves == ""
    requires ParseGame(raw, hasAnalysis).Ok?
    ensures var g := ParseGame(raw, hasAnalysis).value;
      |g.moves| == 1 && g.moves[0].0.san == "" && g.moves[0].1.None?
  {
    ParsedMoves(raw, hasAnalysis);
  }

  /** A counter of the summary is the record's value when present and -1 when missing. */
  predicate CounterFrom(given: Option<int>, counter: int) {
    counter == if given.Some? then given.value else -1
  }

  predicate SummaryFrom(given: Option<RawPlayerAnalysis>, a: PlayerGameAnalysis) {
    match given
    case None => a == NoPlayerAnalysis
    case Some(g) =>
      CounterFrom(g.inaccuracy, a.inaccuracy) && CounterFrom(g.mistake, a.mistake)
      && CounterFrom(g.blunder, a.blunder) && CounterFrom(g.acpl, a.acpl)
  }

  /** The players: colour, user, rating, rating change and analysis summary. */
  lemma ParsedPlayers(raw: RawGame, hasAnalysis: bool)
    requires ParseGame(raw, hasAnalysis).Ok?
    ensures var g := ParseGame(raw, hasAnalysis).value;
      && g.players.0.color == White && g.players.1.color == Black
      && g.players.0.user == User(raw.white.name, raw.white.id)
      && g.players.1.user == User(raw.black.name, raw.black.id)
      && (!hasAnalysis ==> g.players.0.analysis == NoPlayerAnalysis && g.players.1.analysis == NoPlayerAnalysis)
      && (hasAnalysis ==> SummaryFrom(raw.white.analysis, g.players.0.analysis))
      && (hasAnalysis ==> SummaryFrom(raw.black.analysis, g.players.1.analysis))
      && g.players.0.rating == raw.white.rating && g.players.0.ratingDiff == raw.white.ratingDiff
      && g.players.1.rating == raw.black.rating && g.players.1.ratingDiff == raw.black.ratingDiff
  {
  }

  /** Winner, analysis flag, and each optional field: copied when present, its default when missing. */
  lemma ParsedGameDetails(raw: RawGame, hasAnalysis: bool)
    requires ParseGame(raw, hasAnalysis).Ok?
    ensures var g := ParseGame(raw, hasAnalysis).value;
      && g.hasAnalysis == hasAnalysis
      && (g.winner == Some(White) <==> raw.winner == Some("white"))
      && (g.winner == Some(Black) <==> raw.winner == Some("black"))
      && (raw.opening.eco.None? ==> g.opening.eco == "")
      && (raw.opening.name.None? ==> g.opening.name == "")
      && (raw.opening.ply.None? ==> g.opening.ply == 0)
      && (raw.clock.initial.None? ==> g.clock.initial == -1)
      && (raw.clock.increment.None? ==> g.clock.increment == -1)
      && (raw.clock.totalTime.None? ==> g.clock.totalTime == -1)
      && (raw.id.None? ==> g.id == "N/A")
      && (raw.variant.None? ==> g.variant == "N/A")
      && (raw.speed.None? ==> g.speed == "N/A")
      && (raw.status.None? ==> g.status == "N/A")
      && (raw.rated.None? ==> g.rated)
      && (raw.id.Some? ==> g.id == raw.id.value)
      && (raw.rated.Some? ==> g.rated == raw.rated.value)
      && (raw.variant.Some? ==> g.variant == raw.variant.value)
      && (raw.speed.Some? ==> g.speed == raw.speed.value)
      && (raw.status.Some? ==> g.status == raw.status.value)
      && (raw.opening.eco.Some? ==> g.opening.eco == raw.opening.eco.value)
      && (raw.opening.name.Some? ==> g.opening.name == raw.opening.name.value)
      && (raw.opening.ply.Some? ==> g.opening.ply == raw.opening.ply.value)
      && (raw.clock.initial.Some? ==> g.clock.initial == raw.clock.initial.value)
      && (raw.clock.increment.Some? ==> g.clock.increment == raw.clock.increment.value)
      && (raw.clock.totalTime.Some? ==> g.clock.totalTime == raw.clock.totalTime.value)
      && g.division == Division(raw.division.middle, raw.division.end)
  {
  }

  /* ---------------- The imperative parse ---------------- */

  /** The body of the `for idx` loop up to the `Move(...)` call of `create_game_from_json`. */
  method ParsePly(raw: RawGame, idx: nat, moveSan: string, hasAnalysis: bool) returns (r: Result<Move, ParseError>)
    ensures r == Ply(raw, idx, moveSan, hasAnalysis)
  {
    var thinkingTime := 0;
    if idx >= 2 {
      if idx >= |raw.clocks| {
        return Err(ClockMissing(idx));
      }
      thinkingTime := raw.clocks[idx] - raw.clocks[idx - 2];
    }
    var moveAnalysis := NoAnalysis;
    if hasAnalysis {
      if raw.analysis.None? {
        return Err(AnalysisListMissing);
      }
      if idx < |raw.analysis.value| {
        var entry := raw.analysis.value[idx];
        var judgment: Option<Judgment> := None;
        if entry.judgment.Some? && |entry.judgment.value| > 0 {
          var m := entry.judgment.value;
          if "name" !in m {
            return Err(JudgmentKeyMissing(idx, "name"));
          }
          if "comment" !in m {
            return Err(JudgmentKeyMissing(idx, "comment"));
          }
          judgment := Some(Judgment(m["name"], m["comment"]));
        }
        moveAnalysis := MoveAnalysis(entry.eval, entry.mate, entry.best, entry.variation, judgment);
      }
    }
    if idx >= |raw.clocks| {
      return Err(ClockMissing(idx));
    }
    r := Ok(Move(moveSan, raw.clocks[idx], thinkingTime, moveAnalysis));
  }

  /** The moves section of `create_game_from_json`: a `for idx`
      loop over the tokens that toggles the colour, holds the pending white
      move and appends each completed pair. */
  method ParseMoves(raw: RawGame, movesSans: seq<string>, hasAnalysis: bool) returns (r: Result<seq<MovePair>, ParseError>)
    ensures r == PairedPlies(raw, movesSans, hasAnalysis)
  {
    var moves: seq<MovePair> := [];
    var moveWhite: Option<Move> := None;
    var color := White;
    ghost var plies: seq<Move> := [];
    for idx := 0 to |movesSans|
      invariant Plies(raw, movesSans, idx, hasAnalysis) == Ok(plies)
      invariant |plies| == idx
      invariant color == if idx % 2 == 0 then White else Black
      invariant Pending(plies, moves, moveWhite)
    {
      var parsed := ParsePly(raw, idx, movesSans[idx], hasAnalysis);
      if parsed.Err? {
        PliesFailAt(raw, movesSans, idx, |movesSans|, hasAnalysis, parsed.error);
        return Err(parsed.error);
      }
      var move := parsed.value;
      PliesNext(raw, movesSans, idx, hasAnalysis, plies, move);

      if color == White {
        PendingWhite(plies, moves, move);
        color := Black;
        moveWhite := Some(move);
      } else {
        PendingBlack(plies, moves, moveWhite.value, move);
        color := White;
        moves := moves + [(moveWhite.value, Some(move))];
        moveWhite := None;
      }
      plies := plies + [move];
    }
    PendingDone(plies, moves, moveWhite);
    if moveWhite.Some? {  // No last black move
      moves := moves + [(moveWhite.value, None)];
    }
    r := Ok(moves);
  }

  /** `create_game_from_json`: players, then the moves, then the game details. */
  method CreateGameFromJson(raw: RawGame, hasAnalysis: bool) returns (r: Result<Game, ParseError>)
    ensures r == ParseGame(raw, hasAnalysis)
  {
    // Players:
    var playerWhite := Player(White, User(raw.white.name, raw.white.id), raw.white.rating, raw.white.ratingDiff,
                              PlayerAnalysis(raw.white, hasAnalysis));
    var playerBlack := Player(Black, User(raw.black.name, raw.black.id), raw.black.rating, raw.black.ratingDiff,
                              PlayerAnalysis(raw.black, hasAnalysis));

    // Moves:
    var movesSans := Split(raw.moves, ' ');
    var parsed := ParseMoves(raw, movesSans, hasAnalysis);
    if parsed.Err? {
      return Err(parsed.error);
    }
    var moves := parsed.value;

    // Game details:
    var opening := Opening(raw.opening.eco.GetOr(""), raw.opening.name.GetOr(""), raw.opening.ply.GetOr(0));
    var clock := Clock(raw.clock.initial.GetOr(-1), raw.clock.increment.GetOr(-1), raw.clock.totalTime.GetOr(-1));
    var division := Division(raw.division.middle, raw.division.end);
    var winner: Option<Color> := None;
    var winnerStr := raw.winner.GetOr("");
    if winnerStr == "white" {
      winner := Some(White);
    }
    if winnerStr == "black" {
      winner := Some(Black);
    }
    r := Ok(Game(
      raw.id.GetOr("N/A"), raw.rated.GetOr(true), raw.variant.GetOr("N/A"), raw.speed.GetOr("N/A"),
      "", -1, -1, raw.status.GetOr("N/A"), "",
      (playerWhite, playerBlack), winner, moves, clock, division, opening, hasAnalysis));
  }
}
