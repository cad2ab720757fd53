# pychessexporter core in Dafny

pychessexporter fetches a finished game from Lichess as a JSON record. It
turns the record into a typed game model and renders that model as a plain-text
report for the console. This project models the core of that pipeline:

- `create_game_from_json` in `src/game_exporter.py`. It reads the players and
  their optional analysis summaries. It splits the SAN move string into plies and
  gives each ply its clock sample, its thinking time and its optional engine
  analysis. It pairs the plies into (white, black) move pairs, maps the winner
  and fills in the defaults of the optional keys.
- The rendering logic of `src/data_models.py`:
  - `MoveAnalysis.__bool__`, `Move.get_decorated_move`, `Move.format_evaluation`
    and the clock text of `Move._centoseconds_to_timestr`;
  - the move table, the score and result line, and the middlegame/endgame lines
    of `Game.to_console`;
  - the glyph substitution and colour legend of `Game.board_at_end`.

Modules:

- `Wrappers` (`wrappers.dfy`): `Option` and `Result`. A raised exception is an
  `Err` value.
- `Text` (`text.dfy`): the Python string builtins the code relies on. These are
  `str.split`/`str.join` with a one-character separator, `str(int)`, f-string
  alignment and ASCII `str.capitalize`. The split/join round trips are proved in
  both directions.
- `DataModels` (`data_models.dfy`): the game model as datatypes and the
  rendering functions. The `for` loop over the pairs is the method
  `RenderMoveTable`, proved against the function `Table`. The straight-line
  sequence of twelve `str.replace` calls is the method `BoardAtEnd`, proved
  equal to the simultaneous substitution `Glyphs`.
- `GameExporter` (`game_exporter.dfy`): the raw record as a datatype whose
  optional keys are `Option`s, the parse as the function `ParseGame`, and
  `CreateGameFromJson` as the method proved equal to `ParseGame`. Its
  `for idx` loop over the tokens is the method `ParseMoves`.

The model follows the code as written:

- Thinking time is `clocks[idx] - clocks[idx - 2]`: the later clock minus the
  earlier one.
- A winner together with a status outside the five known endings raises
  `KeyError`. The model returns `Err(UnknownStatus(status))`.
- A phase boundary of 0 (or `None`) prints no line. An even boundary ply is
  reported as "(black)": ply 40 is "move 21 (black)".
- A malformed record fails with the Python exception the code would raise, as
  a `ParseError` value: `ClockMissing` for `IndexError`, `AnalysisListMissing`
  for `TypeError`, and `JudgmentKeyMissing` for `KeyError`.

## Model

| member | source | states |
|---|---|---|
| GameExporter.CreateGameFromJson | src/game_exporter.py:27-155 | the parse returns exactly `ParseGame`: either the game built from the record or the first ply's error |
| GameExporter.ParseMoves | src/game_exporter.py:78-115 | the `for idx` loop returns exactly the paired plies, or the first failing ply's error |
| GameExporter.PendingBlack | src/game_exporter.py:110-113 | a black ply completes the waiting white move's pair, and nothing is left waiting |
| GameExporter.PendingDone | src/game_exporter.py:114-115 | after the loop, the pairs plus a last waiting white move (with no reply) are the pairing of all plies |
| GameExporter.ParsePly | src/game_exporter.py:86-105 | one loop iteration computes thinking time, then analysis, then the clock lookup, and fails with the first missing clock, missing analysis list or missing judgment key |
| GameExporter.ParseSucceedsIff | src/game_exporter.py:78-105 | the parse succeeds if and only if there are at least as many clock samples as SAN tokens, an analysed game has a per-ply analysis list, and every non-empty judgment of an analysed ply has both a name and a comment |
| GameExporter.PliesShape | src/game_exporter.py:85-105 | the ply list succeeds if and only if every ply succeeds, and then ply i is the i-th token's move |
| GameExporter.PliesFailAt | src/game_exporter.py:85-105 | the first failing ply's error is the error of the whole parse |
| GameExporter.ParsedPlies | src/game_exporter.py:85-105 | a successful parse has one ply per token, and each ply matches its record fields |
| GameExporter.PlyFields | src/game_exporter.py:86-105 | a parsed ply holds its token, its clock sample and its thinking time (0 for the first two plies, else the clock minus the clock two plies earlier); an analysed ply with a list entry copies eval, mate, best and variation, and has a judgment exactly when the entry's judgment object is non-empty; otherwise the analysis is empty |
| GameExporter.ParsedMoves | src/game_exporter.py:78-115 | a game with N tokens has (N+1)/2 pairs; the last black move is missing if and only if N is odd; pair k holds plies 2k and 2k+1; every ply matches its record fields |
| GameExporter.ParsedSansRoundTrip | src/game_exporter.py:78-115 | joining the SANs of the flattened pairs with spaces gives back the record's move string |
| GameExporter.EmptyMoveString | src/game_exporter.py:78-115 | an empty move string yields one pair holding an empty white move and no black move |
| GameExporter.PairUpShape | src/game_exporter.py:107-115 | pairing N plies gives (N+1)/2 pairs; pair k is (ply 2k, ply 2k+1), and the last pair has no black move exactly when N is odd |
| GameExporter.FlattenPairUp | src/game_exporter.py:107-115 | flattening the pairs gives back the plies in order |
| GameExporter.PairUpAppendPair | src/game_exporter.py:107-113 | after an even number of plies, a white then a black ply append one complete pair |
| GameExporter.PairUpAppendSingle | src/game_exporter.py:114-115 | an odd last ply adds a pair with no black move |
| GameExporter.WinnerOf | src/game_exporter.py:149-153 | the winner is white if and only if the record says "white", black if and only if it says "black", and none for any other value or a missing key |
| GameExporter.ParsedPlayers | src/game_exporter.py:35-73 | players carry their colour, user, rating and rating change; each analysis counter is the record's value or -1 when missing, and all counters are -1 for an unanalysed game |
| GameExporter.ParsedGameDetails | src/game_exporter.py:120-153 | the analysis flag is kept; a present optional key's value is copied (id, rated, variant, speed, status, opening eco/name/ply, clock initial/increment/totalTime), and a missing one defaults to "N/A" (id, variant, speed, status), `true` (rated), "" and 0 (opening), and -1 (clock); the division is copied; the winner follows the record |
| Text.Split | src/game_exporter.py:78 | splitting gives at least one field, and no field contains the separator |
| Text.JoinSplit | src/game_exporter.py:78 | joining the fields of a split gives back the string |
| Text.SplitJoin | src/data_models.py:177-181 | splitting a join of separator-free fields gives back the fields |
| Text.IntToStringRoundTrip | src/data_models.py:195 | the decimal text of an integer reads back as the integer |
| Text.PadLeft | src/data_models.py:195 | right alignment: width max(len, w), the text at the end, spaces before it |
| Text.PadRight | src/data_models.py:195 | left alignment: width max(len, w), the text at the start, spaces after it |
| Text.Capitalize | src/data_models.py:233-235 | same length; first character upper-cased and the rest lower-cased (ASCII) |
| DataModels.IsPresent | src/data_models.py:75-84 | an analysis is truthy if and only if at least one of its five fields is set |
| DataModels.JudgmentSuffix | src/data_models.py:115-124 | "?!" for Inaccuracy, "?" for Mistake, "??" for Blunder, and "" for any other name |
| DataModels.GetDecoratedMove | src/data_models.py:115-124 | the decorated move is the SAN followed by the suffix of its judgment name, and the bare SAN without a judgment |
| DataModels.DecorationReadBack | src/data_models.py:115-124 | the SAN is a prefix of the decorated move; the rest is one of "", "?", "?!", "??"; a decorated move always has a judgment |
| DataModels.FormatEvaluation | src/data_models.py:104-113 | the text is empty if and only if neither mate nor eval is set; mate wins and gives " #N"; the pawn text gets a leading space unless it starts with a minus |
| DataModels.TimeStr | src/data_models.py:94-102 | the clock text is the hours-and-minutes part followed by the seconds text of the centiseconds left over after the whole minutes |
| DataModels.TwoDigits | src/data_models.py:101 | the two-digit minutes field is two digits denoting the number |
| DataModels.HoursMinutesRoundTrip | src/data_models.py:94-102 | for a non-negative clock, "H:MM:" or "MM:" reads back as the total whole minutes, and has an hours field exactly when there is at least one hour |
| DataModels.Score | src/data_models.py:213-232 | white scores "1" if and only if white won, black if and only if black won; both are "½" if and only if there is no winner |
| DataModels.ResultLine | src/data_models.py:213-235 | the line fails if and only if there is a winner and the status is not one of the five known endings; with a winner and a known status it is "White wins: black " or "Black wins: white " followed by the status's phrase from the endings table; without a winner it is "The game ended with a " and the capitalized status |
| DataModels.ResultLineAgreesWithScore | src/data_models.py:223-235 | the line opens with "White wins: black" if and only if white won and the score is 1-0, and with "Black wins: white" if and only if black won and the score is 0-1; a game without a winner names neither |
| DataModels.WinnerLineNames | src/data_models.py:223-233 | a winner's line names that winner, with the other side as loser, and does not name the other side as winner |
| DataModels.ResignExample | src/data_models.py:215-233 | black winning by resignation reads "Black wins: white resigned" |
| DataModels.MateExample | src/data_models.py:215-233 | white winning by mate reads "White wins: black was checkmated" |
| DataModels.AbortedExample | src/data_models.py:215-233 | a winner with the status "aborted" has no phrase, so the line fails |
| DataModels.ResultLineNoWinnerExamples | src/data_models.py:235 | "The game ended with a Draw"; the "N/A" default reads "N/a" |
| DataModels.PhaseLine | src/data_models.py:273-280 | a phase line is printed if and only if the boundary is set and not 0, and it reads "<phase> started at move N (side)" with N = ply/2+1 and side black exactly when the ply is even |
| DataModels.PhaseLineReadBack | src/data_models.py:273-280 | the move number and side give back the boundary ply: 2(move-1) plus 1 for white |
| DataModels.PhaseLineExamples | src/data_models.py:273-280 | None and 0 print nothing; ply 1 is "move 1 (white)"; ply 40 is "move 21 (black)" |
| DataModels.Cells | src/data_models.py:189-208 | a row shows the counter, both decorated SANs and clocks; a black move with an empty SAN, or a missing one, shows blanks as wide as the white clock instead of its clock; the analysis columns appear exactly for an analysed game and hold each present move's formatted evaluation and comment; a missing black move shows no SAN, no evaluation and no comment |
| DataModels.RenderRow | src/data_models.py:190-209 | the loop body writes the row of `Cells` |
| DataModels.RenderMoveTable | src/data_models.py:187-210 | the loop writes the rows of all pairs in order, numbered from 1 |
| DataModels.TableRowAt | src/data_models.py:187-210 | pair k's row, numbered k+1, follows right after the rows of the pairs before it |
| DataModels.RowsAt | src/data_models.py:187-210 | for any row renderer, the row of pair k follows right after the rows of the pairs before it |
| DataModels.Glyphs | src/data_models.py:164-175 | every piece letter becomes its symbol and every other character stays the same |
| DataModels.GlyphsReadBack | src/data_models.py:164-175 | a board text without symbols is recovered from its glyph form |
| DataModels.ReplaceChar | src/data_models.py:164-175 | one replacement changes exactly the occurrences of the replaced character |
| DataModels.BoardWithLegend | src/data_models.py:176-181 | the legend fails if and only if the board has fewer than five lines |
| DataModels.BoardLegendLines | src/data_models.py:176-181 | the legend keeps the line count, appends the white and black legends to lines 3 and 4, and leaves every other line unchanged |
| DataModels.BoardAtEnd | src/data_models.py:162-181 | the twelve successive replacements equal replacing every piece letter at once, followed by the legend |

## Left out

- Fetching the game over the network (`get_game_from_lichess`) and the command-line entry point are I/O.
- Whether a game has analysis is found in the source by searching the serialized JSON for the substring "analysis". The model takes that outcome as the boolean `hasAnalysis`.
- Missing mandatory keys (`players`, `user`, `rating`, `ratingDiff`, `moves`, `clocks`, `opening`, `clock`, `division`) and JSON values of the wrong type are not modelled: the raw record datatype always has them, with the right types. Only the exceptions raised inside the ply loop are modelled.
- Floating-point formatting is not modelled. The seconds text `{seconds:04.1f}` and the pawn text `str(eval / 100)` are function parameters (`Formats`).
- DataModels.TimeStr: the hours and minutes are computed exactly on integers. Rounding of the float division at very large magnitudes is not modelled.
- The chess board replay of `board_at_end` (python-chess `Board`, `push_san`, `str(board)`, the move stack, FEN, the analysis URL) is a foreign library. `BoardAtEnd` takes the printed board text as input.
- The header and player-summary lines of `to_console` are not modelled. Besides alignment they hold a little logic: the initial time in whole minutes (`clock.initial // 60`), RATED or NOT RATED from the rated flag, the upper-cased speed, the names truncated to 25 characters, and a branch that prints the analysis counters for an analysed game and a notice that no analysis is available otherwise. The score they print is `DataModels.Score`.
- Text.Capitalize: only ASCII letters change case. Python's full Unicode case mapping is not modelled.
- The game is built as one datatype value rather than by assigning the fields of a `Game()` one by one. Defaults that the parse always overwrites (`players=()`, an opening `ply` of "") therefore do not appear.
- `DataModels.RenderRow` is the body of the move-table loop, written as its own method. `GameExporter.ParseMoves` is the moves section of `create_game_from_json`, and `GameExporter.ParsePly` is the body of its loop; both are written as their own methods.
