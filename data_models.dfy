/** The typed game model of `data_models.py` and the pieces of the text report
    that do not depend on the chess library or on float formatting. */
module DataModels {
  import opened Wrappers
  import opened Text

  datatype Color = White | Black {
    /** The enum member's value. */
    function Value(): string {
      match this
      case White => "white"
      case Black => "black"
    }

    function Other(): Color {
      match this
      case White => Black
      case Black => White
    }
  }

  datatype Clock = Clock(initial: int, increment: int, totalTime: int)

  /** Plies at which the middlegame and the endgame start, when known. */
  datatype Division = Division(middle: Option<int>, end: Option<int>)

  datatype Opening = Opening(eco: string, name: string, ply: int)

  datatype PlayerGameAnalysis = PlayerGameAnalysis(inaccuracy: int, mistake: int, blunder: int, acpl: int)

  /** The analysis summary of an unanalysed player: every counter is -1. */
  const NoPlayerAnalysis := PlayerGameAnalysis(-1, -1, -1, -1)

  datatype User = User(name: string, id: string)

  datatype Player = Player(color: Color, user: User, rating: int, ratingDiff: int, analysis: PlayerGameAnalysis)

  datatype Judgment = Judgment(name: string, comment: string)

  datatype MoveAnalysis = MoveAnalysis(
    eval: Option<int>,
    mate: Option<int>,
    best: Option<string>,
    variation: Option<string>,
    judgement: Option<Judgment>)

  /** `MoveAnalysis()`: no field set. */
  const NoAnalysis := MoveAnalysis(None, None, None, None, None)

  /** One ply: its SAN, the mover's clock after it and the derived thinking time
      (both in hundredths of a second), and its engine analysis. */
  datatype Move = Move(san: string, clockCentis: int, thinkingCentis: int, analysis: MoveAnalysis)

  /** `Move()`, which stands in for a missing black move in the move table. */
  const EmptyMove := Move("", 0, 0, NoAnalysis)

  /** A white move and the black reply, if any. */
  type MovePair = (Move, Option<Move>)

  datatype Game = Game(
    id: string,
    rated: bool,
    variant: string,
    speed: string,
    perf: string,
    createdAt: int,
    lastMoveAt: int,
    status: string,
    source: string,
    players: (Player, Player),
    winner: Option<Color>,
    moves: seq<MovePair>,
    clock: Clock,
    division: Division,
    opening: Opening,
    hasAnalysis: bool)

  datatype RenderError =
    | UnknownStatus(status: string)   // `pretty_endings[status]` raises KeyError
    | BoardTooShort(lines: nat)       // `board_lines[3]` or `board_lines[4]` raises IndexError

  /* ---------------- Move analysis and decoration ---------------- */

  /** `MoveAnalysis.__bool__`: an analysis is present iff some field is set. */
  function IsPresent(a: MoveAnalysis): (present: bool)
    ensures present <==> a != NoAnalysis
  {
    a.eval.Some? || a.mate.Some? || a.best.Some? || a.variation.Some? || a.judgement.Some?
  }

  /** The annotation appended to a judged move. */
  function JudgmentSuffix(name: string): (suffix: string)
    ensures suffix in {"?!", "?", "??", ""}
    ensures suffix == "" <==> name !in {"Inaccuracy", "Mistake", "Blunder"}
    ensures name == "Inaccuracy" ==> suffix == "?!"
    ensures name == "Mistake" ==> suffix == "?"
    ensures name == "Blunder" ==> suffix == "??"
  {
    if name == "Inaccuracy" then "?!"
    else if name == "Mistake" then "?"
    else if name == "Blunder" then "??"
    else ""
  }

  function Decoration(a: MoveAnalysis): string {
    match a.judgement
    case None => ""
    case Some(j) => JudgmentSuffix(j.name)
  }

  function DecoratedMove(m: Move): string {
    m.san + Decoration(m.analysis)
  }

  /** `Move.get_decorated_move`: the SAN, then "?!", "?" or "??" for an
      inaccuracy, mistake or blunder judgment, and nothing otherwise. */
  method GetDecoratedMove(m: Move) returns (out: string)
    ensures out == DecoratedMove(m)
    ensures |out| >= |m.san| && out[..|m.san|] == m.san
    ensures m.analysis.judgement.None? ==> out == m.san
    ensures m.analysis.judgement.Some? ==>
      var name := m.analysis.judgement.value.name;
      && (name == "Inaccuracy" ==> out == m.san + "?!")
      && (name == "Mistake" ==> out == m.san + "?")
      && (name == "Blunder" ==> out == m.san + "??")
      && (name !in {"Inaccuracy", "Mistake", "Blunder"} ==> out == m.san)
  {
    out := m.san;
    if m.analysis.judgement.Some? {
      var name := m.analysis.judgement.value.name;
      if name == "Inaccuracy" {
        out := out + "?!";
      }
      if name == "Mistake" {
        out := out + "?";
      }
      if name == "Blunder" {
        out := out + "??";
      }
    }
  }

  /** A decoration can be read back: the SAN is what precedes it, and a
      non-empty one means the move was judged, hence analysed. */
  lemma DecorationReadBack(m: Move)
    ensures var d := DecoratedMove(m);
      && d[..|m.san|] == m.san
      && d[|m.san|..] in {"", "?", "?!", "??"}
      && (d != m.san ==> m.analysis.judgement.Some? && IsPresent(m.analysis))
  {
    var d := DecoratedMove(m);
    assert d[|m.san|..] == Decoration(m.analysis);
  }

  /** The float text of a number; `str(eval / 100)` and the seconds part of
      `_centoseconds_to_timestr` are given to the renderer as these. */
  datatype Formats = Formats(seconds: int -> string, pawns: int -> string)

  function StartsWithMinus(t: string): bool {
    |t| > 0 && t[0] == '-'
  }

  /** `Move.format_evaluation`: mate before eval, " #N" for mate, the pawn text
      with a leading space unless it is negative, and "" when neither is set. */
  function FormatEvaluation(a: MoveAnalysis, pawns: int -> string): (out: string)
    ensures out == "" <==> a.mate.None? && a.eval.None?
    ensures !IsPresent(a) ==> out == ""
    ensures a.mate.Some? ==> out == " #" + IntToString(a.mate.value)
    ensures a.mate.None? && a.eval.Some? ==>
      var t := pawns(a.eval.value);
      out == if StartsWithMinus(t) then t else " " + t
  {
    if IsPresent(a) then
      if a.mate.Some? then " #" + IntToString(a.mate.value)
      else if a.eval.Some? then
        var t := pawns(a.eval.value);
        if StartsWithMinus(t) then t else " " + t
      else ""
    else ""
  }

  /* ---------------- Clock text ---------------- */

  /** f"{n:02d}" for 0 <= n < 100. */
  function TwoDigits(n: nat): (s: string)
    requires n < 100
    ensures |s| == 2 && IsDigit(s[0]) && IsDigit(s[1]) && DigitsValue(s) == n
  {
    var s := [DigitChar(n / 10), DigitChar(n % 10)];
    assert s[..1] == [s[0]] && s[..1][..0] == [];
    assert DigitsValue(s[..1]) == n / 10;
    s
  }

  function Hours(centis: int): int {
    centis / 360000
  }

  function Minutes(centis: int): int {
    (centis - 360000 * Hours(centis)) / 6000
  }

  /** The integer part of `_centoseconds_to_timestr`: "H:" only when the hours
      are positive, then the minutes on two digits and a colon. */
  function HoursMinutes(centis: int): string {
    var hours := Hours(centis);
    (if hours > 0 then IntToString(hours) + ":" else "") + TwoDigits(Minutes(centis)) + ":"
  }

  /** `_centoseconds_to_timestr`: the seconds text is handed the hundredths of a
      second that remain after the whole minutes. */
  function TimeStr(centis: int, seconds: int -> string): (r: string)
    ensures r == HoursMinutes(centis) + seconds(centis % 6000)
  {
    var rest := centis - 360000 * Hours(centis) - 6000 * Minutes(centis);
    assert rest == centis % 6000;
    HoursMinutes(centis) + seconds(rest)
  }

  /** Reads the whole minutes back from "H:MM:" or "MM:". */
  function ReadClockMinutes(t: string): int {
    var fields := Split(t, ':');
    if |fields| == 3 then DigitsValue(fields[0]) * 60 + DigitsValue(fields[1]) else DigitsValue(fields[0])
  }

  /** The clock text loses no whole minute: it reads back as the total minutes,
      and it has an hours field exactly when there is at least one hour. */
  lemma HoursMinutesRoundTrip(centis: int)
    requires centis >= 0
    ensures ReadClockMinutes(HoursMinutes(centis)) == centis / 6000
    ensures |Split(HoursMinutes(centis), ':')| == if centis >= 360000 then 3 else 2
  {
    var h, m := Hours(centis), Minutes(centis);
    var mm := TwoDigits(m);
    assert ':' !in mm;
    SplitAfterField(mm, "", ':');
    assert Split("", ':') == [""];
    if h > 0 {
      var hh := IntToString(h);
      NatToStringValue(h);
      assert ':' !in hh;
      assert HoursMinutes(centis) == hh + [':'] + (mm + [':'] + "");
      SplitAfterField(hh, mm + [':'] + "", ':');
    } else {
      assert HoursMinutes(centis) == mm + [':'] + "";
    }
  }

  /* ---------------- Game ending ---------------- */

  /** `pretty_endings`: the phrase for each status a decisive game can have. */
  const PrettyEndings: map<string, string> := map[
    "draw" := "draw",
    "stalemate" := "stalemate",
    "mate" := "was checkmated",
    "resign" := "resigned",
    "outoftime" := "ran out of time"]

  /** The scores of white and black: 1 and 0 for a winner, ½ each otherwise. */
  function Score(winner: Option<Color>): (score: (string, string))
    ensures score.0 == "1" <==> winner == Some(White)
    ensures score.1 == "1" <==> winner == Some(Black)
    ensures score == ("½", "½") <==> winner.None?
    ensures winner.Some? ==> {score.0, score.1} == {"1", "0"}
  {
    match winner
    case None => ("½", "½")
    case Some(White) => ("1", "0")
    case Some(Black) => ("0", "1")
  }

  /** "<Winner> wins: <loser> <phrase>". */
  function WinnerLine(winner: Color, phrase: string): string {
    Capitalize(winner.Value()) + " wins: " + winner.Other().Value() + " " + phrase
  }

  /** The result line: "<Winner> wins: <loser> <phrase>", failing for a status
      outside the table, or "The game ended with a <Status>" without a winner. */
  function ResultLine(winner: Option<Color>, status: string): (line: Result<string, RenderError>)
    ensures line.Err? <==> winner.Some? && status !in PrettyEndings
    ensures line.Err? ==> line.error == UnknownStatus(status)
    ensures winner.None? ==> line == Ok("The game ended with a " + Capitalize(status))
    ensures winner.Some? && status in PrettyEndings ==>
      line == Ok((if winner.value == White then "White wins: black " else "Black wins: white ") + PrettyEndings[status])
  {
    match winner
    case Some(c) =>
      if status in PrettyEndings then
        WinnerLineText(c, PrettyEndings[status]);
        Ok(WinnerLine(c, PrettyEndings[status]))
      else Err(UnknownStatus(status))
    case None => Ok("The game ended with a " + Capitalize(status))
  }

  /** A line that opens with "<Winner> wins: <loser>" for colour `c`. */
  predicate NamesWinner(line: string, c: Color) {
    Capitalize(c.Value()) + " wins: " + c.Other().Value() <= line
  }

  /** The result line names as winner exactly the side the score gives the
      point to, and the other side as loser; a drawn or unfinished game's
      line names no winner. */
  lemma ResultLineAgreesWithScore(winner: Option<Color>, status: string)
    requires ResultLine(winner, status).Ok?
    ensures var line := ResultLine(winner, status).value;
      && (NamesWinner(line, White) <==> winner == Some(White))
      && (NamesWinner(line, Black) <==> winner == Some(Black))
      && (winner == Some(White) <==> Score(winner) == ("1", "0"))
      && (winner == Some(Black) <==> Score(winner) == ("0", "1"))
  {
    match winner
    case Some(c) =>
      WinnerLineNames(c, PrettyEndings[status]);
    case None =>
      DrawLineNamesNoWinner(status);
  }

  /** A winner's line names that winner and not the other side. */
  lemma WinnerLineNames(c: Color, phrase: string)
    ensures NamesWinner(WinnerLine(c, phrase), c)
    ensures !NamesWinner(WinnerLine(c, phrase), c.Other())
  {
    WinnerLineHead(c, phrase);
    InitialsDiffer();
    assert WinnerLine(c, phrase)[0] == Upper(c.Value()[0]);
  }

  lemma DrawLineNamesNoWinner(status: string)
    ensures !NamesWinner("The game ended with a " + Capitalize(status), White)
    ensures !NamesWinner("The game ended with a " + Capitalize(status), Black)
  {
    InitialsDiffer();
    assert ("The game ended with a " + Capitalize(status))[0] == 'T';
  }

  /** "White..." and "Black..." differ in their first letter. */
  lemma InitialsDiffer()
    ensures Capitalize(White.Value())[0] == 'W' && Capitalize(Black.Value())[0] == 'B'
  {
  }

  lemma WinnerLineHead(c: Color, phrase: string)
    ensures NamesWinner(WinnerLine(c, phrase), c)
  {
    var head := Capitalize(c.Value()) + " wins: " + c.Other().Value();
    assert WinnerLine(c, phrase) == head + " " + phrase;
  }

  lemma CapitalizedColors()
    ensures Capitalize("white") == "White" && Capitalize("black") == "Black"
  {
    var w, b := Capitalize("white"), Capitalize("black");
    assert w[0] == 'W' && w[1] == 'h' && w[2] == 'i' && w[3] == 't' && w[4] == 'e';
    assert b[0] == 'B' && b[1] == 'l' && b[2] == 'a' && b[3] == 'c' && b[4] == 'k';
  }

  lemma ResignExample()
    ensures ResultLine(Some(Black), "resign") == Ok("Black wins: white resigned")
  {
    PhraseOf("resign", "resigned");
    BlackResignedText();
  }

  lemma MateExample()
    ensures ResultLine(Some(White), "mate") == Ok("White wins: black was checkmated")
  {
    PhraseOf("mate", "was checkmated");
    WhiteMatedText();
  }

  lemma PhraseOf(status: string, phrase: string)
    requires (status, phrase) in {("resign", "resigned"), ("mate", "was checkmated")}
    ensures status in PrettyEndings && PrettyEndings[status] == phrase
  {
  }

  lemma BlackResignedText()
    ensures WinnerLine(Black, "resigned") == "Black wins: white resigned"
  {
    WinnerLineText(Black, "resigned");
  }

  lemma WhiteMatedText()
    ensures WinnerLine(White, "was checkmated") == "White wins: black was checkmated"
  {
    WinnerLineText(White, "was checkmated");
  }

  /** The winner's line spelled out for each colour. */
  lemma WinnerLineText(c: Color, phrase: string)
    ensures WinnerLine(c, phrase) == (if c == White then "White wins: black " else "Black wins: white ") + phrase
  {
    var head := Capitalize(c.Value()) + " wins: " + c.Other().Value() + " ";
    assert WinnerLine(c, phrase) == head + phrase;
    if c == White {
      WhiteWinsHead();
    } else {
      BlackWinsHead();
    }
  }

  lemma WhiteWinsHead()
    ensures Capitalize(White.Value()) + " wins: " + White.Other().Value() + " " == "White wins: black "
  {
    assert Capitalize("white") == "White" by { CapitalizedColors(); }
    assert "White" + " wins: " + "black" + " " == "White wins: black ";
  }

  lemma BlackWinsHead()
    ensures Capitalize(Black.Value()) + " wins: " + Black.Other().Value() + " " == "Black wins: white "
  {
    assert Capitalize("black") == "Black" by { CapitalizedColors(); }
    assert "Black" + " wins: " + "white" + " " == "Black wins: white ";
  }

  /** "aborted" has no phrase: a decided game with that status cannot be rendered. */
  lemma AbortedExample()
    ensures ResultLine(Some(White), "aborted") == Err(UnknownStatus("aborted"))
  {
  }

  lemma ResultLineNoWinnerExamples()
    ensures ResultLine(None, "draw") == Ok("The game ended with a Draw")
    ensures ResultLine(None, "N/A") == Ok("The game ended with a N/a")
  {
    assert Capitalize("draw") == "Draw";
    assert "The game ended with a " + "Draw" == "The game ended with a Draw";
    assert Capitalize("N/A") == "N/a";
    assert "The game ended with a " + "N/a" == "The game ended with a N/a";
  }

  /* ---------------- Phase lines ---------------- */

  function MoveNumber(ply: int): int {
    ply / 2 + 1
  }

  function SideAt(ply: int): string {
    if ply % 2 == 0 then "black" else "white"
  }

  /** "<phase> started at move N (side)", emitted only for a truthy boundary:
      neither `None` nor 0. */
  function PhaseLine(phase: string, boundary: Option<int>): (line: Option<string>)
    ensures line.Some? <==> boundary.Some? && boundary.value != 0
    ensures line.Some? ==>
      line.value == phase + " started at move " + IntToString(MoveNumber(boundary.value)) + " (" + SideAt(boundary.value) + ")\n"
  {
    if boundary.Some? && boundary.value != 0 then
      var ply := boundary.value;
      Some(phase + " started at move " + IntToString(MoveNumber(ply)) + " (" + SideAt(ply) + ")\n")
    else None
  }

  /** Move number and side determine the boundary ply again. */
  lemma PhaseLineReadBack(phase: string, ply: int)
    requires ply != 0
    ensures PhaseLine(phase, Some(ply)).Some?
    ensures ReadInt(IntToString(MoveNumber(ply))) == MoveNumber(ply)
    ensures 2 * (MoveNumber(ply) - 1) + (if SideAt(ply) == "black" then 0 else 1) == ply
  {
    IntToStringRoundTrip(MoveNumber(ply));
  }

  /** A boundary of 0 or none prints nothing; ply 1 is white's first move and
      ply 40 black's twenty-first in the way the line counts. */
  lemma PhaseLineExamples()
    ensures PhaseLine("Middlegame", None) == None
    ensures PhaseLine("Middlegame", Some(0)) == None
    ensures PhaseLine("Middlegame", Some(1)) == Some("Middlegame started at move 1 (white)\n")
    ensures PhaseLine("Endgame", Some(40)) == Some("Endgame started at move 21 (black)\n")
  {
    MiddlegameAtOne();
    EndgameAtForty();
  }

  lemma MiddlegameAtOne()
    ensures PhaseLine("Middlegame", Some(1)) == Some("Middlegame started at move 1 (white)\n")
  {
    assert IntToString(MoveNumber(1)) == "1";
    assert "Middlegame" + " started at move " + "1" + " (" + "white" + ")\n" == "Middlegame started at move 1 (white)\n";
  }

  lemma EndgameAtForty()
    ensures PhaseLine("Endgame", Some(40)) == Some("Endgame started at move 21 (black)\n")
  {
    assert IntToString(MoveNumber(40)) == "21" by {
      assert NatToString(21) == NatToString(2) + [DigitChar(1)];
    }
    assert "Endgame" + " started at move " + "21" + " (" + "black" + ")\n" == "Endgame started at move 21 (black)\n";
  }

  /* ---------------- Move table ---------------- */

  /** Evaluation and comment columns of a row, present when the game is analysed. */
  datatype AnalysisCells = AnalysisCells(
    whiteEval: string, blackEval: string, whiteComment: Option<string>, blackComment: Option<string>)

  datatype RowCells = RowCells(
    number: string, whiteSan: string, blackSan: string, whiteClock: string, blackClock: string,
    analysis: Option<AnalysisCells>)

  function CommentOf(a: MoveAnalysis): Option<string> {
    match a.judgement
    case None => None
    case Some(j) => Some(j.comment)
  }

  /** The cells of one row. A missing black move is an empty `Move()`: no SAN,
      no evaluation, no comment, and a clock slot of blanks as wide as the
      white clock. */
  function Cells(counter: int, pair: MovePair, hasAnalysis: bool, fmt: Formats): (c: RowCells)
    ensures c.number == IntToString(counter)
    ensures c.whiteSan == DecoratedMove(pair.0)
    ensures c.whiteClock == TimeStr(pair.0.clockCentis, fmt.seconds)
    ensures pair.1.Some? ==> c.blackSan == DecoratedMove(pair.1.value)
    ensures pair.1.Some? && pair.1.value.san != "" ==> c.blackClock == TimeStr(pair.1.value.clockCentis, fmt.seconds)
    ensures pair.1.None? ==> c.blackSan == "" && c.blackClock == Spaces(|c.whiteClock|)
    ensures c.analysis.Some? <==> hasAnalysis
    ensures pair.1.Some? && pair.1.value.san == "" ==> c.blackClock == Spaces(|c.whiteClock|)
    ensures hasAnalysis ==> c.analysis.value.whiteEval == FormatEvaluation(pair.0.analysis, fmt.pawns)
    ensures hasAnalysis ==> c.analysis.value.whiteComment == CommentOf(pair.0.analysis)
    ensures hasAnalysis && pair.1.Some? ==>
      c.analysis.value.blackEval == FormatEvaluation(pair.1.value.analysis, fmt.pawns)
      && c.analysis.value.blackComment == CommentOf(pair.1.value.analysis)
    ensures hasAnalysis && pair.1.None? ==> c.analysis.value.blackEval == "" && c.analysis.value.blackComment.None?
  {
    var white := pair.0;
    var black := if pair.1.None? then EmptyMove else pair.1.value;
    var whiteClock := TimeStr(white.clockCentis, fmt.seconds);
    var blackClock := if black.san != "" then TimeStr(black.clockCentis, fmt.seconds) else Spaces(|whiteClock|);
    RowCells(
      IntToString(counter), DecoratedMove(white), DecoratedMove(black), whiteClock, blackClock,
      if hasAnalysis then
        Some(AnalysisCells(
          FormatEvaluation(white.analysis, fmt.pawns), FormatEvaluation(black.analysis, fmt.pawns),
          CommentOf(white.analysis), CommentOf(black.analysis)))
      else None)
  }

  /** Counter and SAN columns. */
  function CounterText(c: RowCells): string {
    PadLeft(c.number, 3) + ". " + PadRight(c.whiteSan, 8) + " " + PadRight(c.blackSan, 8)
  }

  function ClockText(c: RowCells): string {
    "   " + c.whiteClock + "   " + c.blackClock
  }

  /** Evaluation columns, then each side's judgment comment when it has one. */
  function AnalysisText(analysis: Option<AnalysisCells>): string {
    match analysis
    case None => ""
    case Some(a) =>
      var evals := "   " + PadRight(a.whiteEval, 6) + "  " + PadRight(a.blackEval, 6);
      var white := if a.whiteComment.Some? then evals + ("   White: " + a.whiteComment.value) else evals;
      if a.blackComment.Some? then white + ("   Black: " + a.blackComment.value) else white
  }

  function RowText(c: RowCells): string {
    CounterText(c) + ClockText(c) + AnalysisText(c.analysis) + "\n"
  }

  function Row(counter: int, pair: MovePair, hasAnalysis: bool, fmt: Formats): string {
    RowText(Cells(counter, pair, hasAnalysis, fmt))
  }

  /** The rows of the pairs one after the other, the row of pair k (from 0)
      numbered k + 1, for any way of rendering one row. */
  function Rows(moves: seq<MovePair>, render: (int, MovePair) -> string): string
    decreases |moves|
  {
    if |moves| == 0 then ""
    else Rows(moves[..|moves| - 1], render) + render(|moves|, moves[|moves| - 1])
  }

  /** The move table. */
  function Table(moves: seq<MovePair>, hasAnalysis: bool, fmt: Formats): string {
    Rows(moves, (counter, pair) => Row(counter, pair, hasAnalysis, fmt))
  }

  lemma RowsNext(moves: seq<MovePair>, i: nat, render: (int, MovePair) -> string)
    requires i < |moves|
    ensures Rows(moves[..i + 1], render) == Rows(moves[..i], render) + render(i + 1, moves[i])
  {
    assert moves[..i + 1][..i] == moves[..i];
  }

  lemma {:induction false} RowsAt(moves: seq<MovePair>, k: nat, render: (int, MovePair) -> string)
    requires k < |moves|
    ensures Rows(moves[..k], render) + render(k + 1, moves[k]) <= Rows(moves, render)
    decreases |moves|
  {
    var n := |moves|;
    var shorter := moves[..n - 1];
    if k < n - 1 {
      RowsAt(shorter, k, render);
      assert shorter[..k] == moves[..k] && shorter[k] == moves[k];
      PrefixExtend(Rows(moves[..k], render) + render(k + 1, moves[k]), Rows(shorter, render), render(n, moves[n - 1]));
    } else {
      assert shorter == moves[..k];
    }
  }

  /** Pair k of the game is rendered as the row numbered k + 1, right after
      the rows of the pairs before it. */
  lemma TableRowAt(moves: seq<MovePair>, k: nat, hasAnalysis: bool, fmt: Formats)
    requires k < |moves|
    ensures Table(moves[..k], hasAnalysis, fmt) + Row(k + 1, moves[k], hasAnalysis, fmt) <= Table(moves, hasAnalysis, fmt)
  {
    RowsAt(moves, k, (counter, pair) => Row(counter, pair, hasAnalysis, fmt));
  }

  lemma PrefixExtend(p: string, s: string, t: string)
    requires p <= s
    ensures p <= s + t
  {
    assert (s + t)[..|s|] == s;
  }

  /** The body of the move-table loop of `Game.to_console`: one pair's text. */
  method RenderRow(moveCounter: int, pair: MovePair, hasAnalysis: bool, fmt: Formats) returns (row: string)
    ensures row == Row(moveCounter, pair, hasAnalysis, fmt)
  {
    var moveWhite := pair.0;
    var moveBlack := if pair.1.None? then EmptyMove else pair.1.value;
    ghost var cells := Cells(moveCounter, pair, hasAnalysis, fmt);
    // Counter + SAN:
    var sanDecoWhite := GetDecoratedMove(moveWhite);
    var sanDecoBlack := GetDecoratedMove(moveBlack);
    var counterTxt := PadLeft(IntToString(moveCounter), 3) + ". " + PadRight(sanDecoWhite, 8) + " " + PadRight(sanDecoBlack, 8);
    // Clock:
    var clockWhite := TimeStr(moveWhite.clockCentis, fmt.seconds);
    var clockBlack := if moveBlack.san != "" then TimeStr(moveBlack.clockCentis, fmt.seconds) else Spaces(|clockWhite|);
    var clockTxt := "   " + clockWhite + "   " + clockBlack;
    // Evaluation + comments:
    var analysisTxt := "";
    if hasAnalysis {
      var evalWhite := FormatEvaluation(moveWhite.analysis, fmt.pawns);
      var evalBlack := FormatEvaluation(moveBlack.analysis, fmt.pawns);
      analysisTxt := "   " + PadRight(evalWhite, 6) + "  " + PadRight(evalBlack, 6);
      if moveWhite.analysis.judgement.Some? {
        analysisTxt := analysisTxt + ("   White: " + moveWhite.analysis.judgement.value.comment);
      }
      if moveBlack.analysis.judgement.Some? {
        analysisTxt := analysisTxt + ("   Black: " + moveBlack.analysis.judgement.value.comment);
      }
    }
    assert analysisTxt == AnalysisText(cells.analysis);
    assert counterTxt == CounterText(cells);
    assert clockTxt == ClockText(cells);
    row := counterTxt + clockTxt + analysisTxt + "\n";
  }

  /** The move-table loop of `Game.to_console`, with its counter `move_counter`
      starting at 1 and rising by one per pair. */
  method RenderMoveTable(moves: seq<MovePair>, hasAnalysis: bool, fmt: Formats) returns (movesTxt: string)
    ensures movesTxt == Table(moves, hasAnalysis, fmt)
  {
    movesTxt := "";
    var moveCounter := 1;
    for i := 0 to |moves|
      invariant moveCounter == i + 1
      invariant movesTxt == Table(moves[..i], hasAnalysis, fmt)
    {
      var row := RenderRow(moveCounter, moves[i], hasAnalysis, fmt);
      RowsNext(moves, i, (counter, pair) => Row(counter, pair, hasAnalysis, fmt));
      movesTxt := movesTxt + row;
      moveCounter := moveCounter + 1;
    }
    assert moves[..|moves|] == moves;
  }

  /* ---------------- Board glyphs ---------------- */

  const WhiteKing: char := '\U{2654}'
  const WhiteQueen: char := '\U{2655}'
  const WhiteRook: char := '\U{2656}'
  const WhiteBishop: char := '\U{2657}'
  const WhiteKnight: char := '\U{2658}'
  const WhitePawn: char := '\U{2659}'
  const BlackKing: char := '\U{265A}'
  const BlackQueen: char := '\U{265B}'
  const BlackRook: char := '\U{265C}'
  const BlackBishop: char := '\U{265D}'
  const BlackKnight: char := '\U{265E}'
  const BlackPawn: char := '\U{265F}'

  /** The chess-piece symbol for a piece letter (lower case black, upper case white). */
  function Glyph(c: char): char {
    match c
    case 'k' => BlackKing
    case 'q' => BlackQueen
    case 'r' => BlackRook
    case 'b' => BlackBishop
    case 'n' => BlackKnight
    case 'p' => BlackPawn
    case 'K' => WhiteKing
    case 'Q' => WhiteQueen
    case 'R' => WhiteRook
    case 'B' => WhiteBishop
    case 'N' => WhiteKnight
    case 'P' => WhitePawn
    case _ => c
  }

  /** The piece letter a symbol stands for. */
  function Letter(c: char): char {
    match c
    case '\U{265A}' => 'k'
    case '\U{265B}' => 'q'
    case '\U{265C}' => 'r'
    case '\U{265D}' => 'b'
    case '\U{265E}' => 'n'
    case '\U{265F}' => 'p'
    case '\U{2654}' => 'K'
    case '\U{2655}' => 'Q'
    case '\U{2656}' => 'R'
    case '\U{2657}' => 'B'
    case '\U{2658}' => 'N'
    case '\U{2659}' => 'P'
    case _ => c
  }

  predicate IsGlyph(c: char) {
    '\U{2654}' <= c <= '\U{265F}'
  }

  /** Every character replaced by its symbol at once. */
  function Glyphs(s: string): (r: string)
    ensures |r| == |s|
    ensures forall i :: 0 <= i < |s| ==> r[i] == Glyph(s[i])
  {
    seq(|s|, i requires 0 <= i < |s| => Glyph(s[i]))
  }

  /** No information is lost: a board text without symbols is read back from its glyphs. */
  lemma GlyphsReadBack(s: string)
    requires forall i :: 0 <= i < |s| ==> !IsGlyph(s[i])
    ensures seq(|s|, i requires 0 <= i < |s| => Letter(Glyphs(s)[i])) == s
  {
  }

  /** `str.replace(old, new)` for a one-character `old` and `new`. */
  function ReplaceChar(s: string, from: char, to: char): (r: string)
    ensures |r| == |s|
    ensures forall i :: 0 <= i < |s| ==> r[i] == if s[i] == from then to else s[i]
  {
    seq(|s|, i requires 0 <= i < |s| => if s[i] == from then to else s[i])
  }

  /** `board_lines[3]` and `board_lines[4]` get the colour legend appended. */
  function BoardWithLegend(board: string): (r: Result<string, RenderError>)
    ensures r.Err? <==> |Split(board, '\n')| < 5
  {
    var lines := Split(board, '\n');
    if |lines| < 5 then Err(BoardTooShort(|lines|))
    else
      var withLegend := lines[3 := lines[3] + "   " + [WhitePawn] + ": white"][4 := lines[4] + "   " + [BlackPawn] + ": black"];
      Ok(Join(withLegend, '\n'))
  }

  /** The legend keeps the board's lines: same number, lines 3 and 4 extended,
      every other line unchanged. */
  lemma BoardLegendLines(board: string)
    requires BoardWithLegend(board).Ok?
    ensures var before := Split(board, '\n');
      var after := Split(BoardWithLegend(board).value, '\n');
      && |after| == |before|
      && after[3] == before[3] + "   " + [WhitePawn] + ": white"
      && after[4] == before[4] + "   " + [BlackPawn] + ": black"
      && forall i :: 0 <= i < |before| && i != 3 && i != 4 ==> after[i] == before[i]
  {
    var lines := Split(board, '\n');
    var withLegend := lines[3 := lines[3] + "   " + [WhitePawn] + ": white"][4 := lines[4] + "   " + [BlackPawn] + ": black"];
    assert forall i :: 0 <= i < |withLegend| ==> '\n' !in withLegend[i];
    SplitJoin(withLegend, '\n');
  }

  /** The end of `Game.board_at_end` after the board is printed: twelve
      successive replacements of piece letters by symbols, then the legend. */
  method BoardAtEnd(boardStr: string) returns (r: Result<string, RenderError>)
    ensures r == BoardWithLegend(Glyphs(boardStr))
  {
    var s := boardStr;
    s := ReplaceChar(s, 'k', BlackKing);
    s := ReplaceChar(s, 'q', BlackQueen);
    s := ReplaceChar(s, 'r', BlackRook);
    s := ReplaceChar(s, 'b', BlackBishop);
    s := ReplaceChar(s, 'n', BlackKnight);
    s := ReplaceChar(s, 'p', BlackPawn);
    s := ReplaceChar(s, 'K', WhiteKing);
    s := ReplaceChar(s, 'Q', WhiteQueen);
    s := ReplaceChar(s, 'R', WhiteRook);
    s := ReplaceChar(s, 'B', WhiteBishop);
    s := ReplaceChar(s, 'N', WhiteKnight);
    s := ReplaceChar(s, 'P', WhitePawn);
    assert s == Glyphs(boardStr);
    var boardLines := Split(s, '\n');
    if |boardLines| <= 3 {
      return Err(BoardTooShort(|boardLines|));
    }
    boardLines := boardLines[3 := boardLines[3] + "   " + [WhitePawn] + ": white"];
    if |boardLines| <= 4 {
      return Err(BoardTooShort(|boardLines|));
    }
    boardLines := boardLines[4 := boardLines[4] + "   " + [BlackPawn] + ": black"];
    r := Ok(Join(boardLines, '\n'));
  }
}
