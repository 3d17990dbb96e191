# Score tracker session, modelled in Dafny

The score tracker is one React component, `App` in `score-web/src/App.js`. It keeps a
game session in five state fields: `mode` (null until a game mode is chosen),
`playerNames` (the committed names), `nameInputs` (the name drafts), `scores` (the
committed rounds, one integer per player) and `newScores` (the score drafts, kept as
text). The render derives the screen from these fields: mode selection while `mode`
is falsy (line 97), name entry while no names are committed (line 107), the score
table otherwise. An effect saves the session under the storage key `scoreData` once
a mode is set and names are committed; another effect adopts a saved session when
the page loads. Under the table, `calculateTotals` sums every column and
`getTotalClasses` marks the largest totals 'high', the smallest 'low', or all of
them 'equal' when every total is the same.

The model has six modules:

- `Options` (`options.dfy`): the optional value used for the mode, the storage slot
  and a failed parse.
- `ParseInt` (`parse_int.dfy`): `parseInt(s, 10)` as the score drafts use it
  (leading white space, an optional sign, the longest run of decimal digits), the
  coercion of a failed parse to 0, and the per-draft map of `handleAddScores`.
  Parsing is characterized in both directions against `Numeral`, an independent
  description of the text it reads, and a decimal printer `Show` is proved to be
  read back.
- `Totals` (`totals.dfy`): the totals row as a specification function
  (`TotalsOf`, built from per-column sums) and `CalculateTotals`, the
  array-accumulating nested loop of the source, proved equal to it.
- `TotalClasses` (`total_classes.dfy`): `Math.max`, `Math.min` and
  `getTotalClasses`, with the labelling rules proved against independent
  definitions of "largest" and "smallest".
- `ScoreApp` (`app.dfy`): the class `App` with the five fields and an abstract
  storage slot (`storage: Option<Snapshot>`). Each handler is a method that changes
  the fields in one step and then runs the save effect (`SaveEffect`) when it
  changed a field that effect watches. The load effect is part of the constructor
  `Mount`; reloading the page is a new `App.Mount` over the same storage slot.
  `CurrentPhase` is the render's choice of screen (lines 97 and 107). The object
  invariant `Valid` says that both draft lists have 4 entries in 'single' mode and 2
  in any other mode, that every round has one entry per player, and that storage
  holds exactly the current snapshot once names are committed and nothing before.
- `Scenarios` (`scenarios.dfy`): worked examples, among them a whole team game
  driven through the handlers.

Three behaviours of the code that the model keeps:

- Loading a saved session: the code (line 15) parses the stored text with no error
  handling and adopts its fields as they are. The model stores a snapshot value, not
  text, and only ever holds snapshots that the save effect wrote.
- Choosing a mode: the screen offers only 'single' and 'double' (lines 101-102), but
  line 36 gives 2 players to any value other than 'single', and the screen test
  `!mode` (line 97) keeps an empty mode on mode selection.
- Saving: the save effect watches only `mode`, `playerNames`, `nameInputs` and
  `scores` (line 32), so editing a score draft writes nothing. `HandleScoreChange`
  therefore does not run the save effect. The effect also runs once at mount, before
  a stored session is adopted; with no mode it leaves the stored snapshot alone.

## Model

| member | source | states |
|---|---|---|
| `ParseInt.Parse` | score-web/src/App.js:59 | `parseInt(_, 10)` only ever reads a number from text that contains a decimal digit |
| `ParseInt.ParseScore` | score-web/src/App.js:59-60 | a draft that is a numeral (white space, optional sign, digits, non-digit rest) scores that numeral's signed value; a draft that is no numeral, which `parseInt` reads as NaN, scores 0 |
| `ParseInt.ParseNumeral` | score-web/src/App.js:59 | text made of white space, an optional '+' or '-', a run of digits and text not continuing the digits is read as the signed value of the digits ("+5" is 5, "007" is 7) |
| `ParseInt.ParseFindsNumeral` | score-web/src/App.js:59 | whenever `parseInt` reads a number, the text has that shape and the number is its value |
| `ParseInt.ParseCharacterized` | score-web/src/App.js:59-60 | `parseInt` yields `n` exactly for text of that shape whose value is `n`, and NaN exactly for text of no such shape |
| `ParseInt.ParseShow` | score-web/src/App.js:59 | `parseInt(_, 10)` reads back any printed integer, sign included, after any leading white space and whatever non-digit text follows it |
| `ParseInt.NoDigitsIsZero` | score-web/src/App.js:59-60 | a draft without a decimal digit, the empty draft included, parses to NaN and is coerced to 0 |
| `ParseInt.ParseReadsEveryNumeral` | score-web/src/App.js:59 | any way of reading the text as a numeral gives the number `parseInt` returns |
| `ParseInt.ParseRow` | score-web/src/App.js:58-61 | the parsed round has exactly one entry per draft |
| `ParseInt.ParseRowReadsDrafts` | score-web/src/App.js:58-61 | entry `i` of the round is the signed value of draft `i` when that draft is a numeral, and 0 when it is none |
| `Totals.CalculateTotals` | score-web/src/App.js:75-83 | the nested accumulation loop returns, for every player, the sum of that player's column over all committed rounds |
| `Totals.NoRoundsAllZero` | score-web/src/App.js:76 | with no committed rounds every total is 0 |
| `Totals.ColumnSumAppend` | score-web/src/App.js:77-81 | appending a round adds that round's entry to the column's sum |
| `Totals.TotalsAppend` | score-web/src/App.js:77-81 | the totals after one more round are the previous totals plus that round, player by player |
| `TotalClasses.Max` | score-web/src/App.js:86 | `Math.max` of a non-empty list is one of its elements and no element exceeds it |
| `TotalClasses.Min` | score-web/src/App.js:87 | `Math.min` of a non-empty list is one of its elements and no element is below it |
| `TotalClasses.GetTotalClasses` | score-web/src/App.js:85-95 | one label per total |
| `TotalClasses.EqualIffAllEqual` | score-web/src/App.js:90 | a total is labelled 'equal' if and only if all totals are equal, so either every label is 'equal' or none is |
| `TotalClasses.HighLowWhenUnequal` | score-web/src/App.js:89-94 | when the totals differ, a total is 'high' exactly when no total exceeds it, 'low' exactly when no total is below it, and unmarked exactly when it is neither |
| `TotalClasses.TiesNotBroken` | score-web/src/App.js:89-94 | equal totals always get the same label |
| `TotalClasses.HighAboveLow` | score-web/src/App.js:86-94 | when the totals differ, some total is 'high', some is 'low', and every 'high' total exceeds every 'low' one, so the two groups are disjoint |
| `ScoreApp.PlayerCount` | score-web/src/App.js:36 | 4 players exactly for the 'single' mode, 2 for any other |
| `ScoreApp.App.CurrentPhase` | score-web/src/App.js:97-107 | mode selection exactly when the mode is null or empty, and the score table exactly when the save effect would write, that is when the mode is truthy and names are committed |
| `ScoreApp.App.Mount` | score-web/src/App.js:5-32 | the save effect's first run leaves the stored slot alone; the session then starts empty, or, when a snapshot is stored, holds its mode, names, name drafts and rounds with one blank score draft per player |
| `ScoreApp.App.SaveEffect` | score-web/src/App.js:25-32 | in any state, the snapshot of mode, names, name drafts and rounds is written exactly when the mode is truthy and names are committed, otherwise storage is untouched; from a well-formed session it leaves storage matching the session |
| `ScoreApp.App.HandleModeSelect` | score-web/src/App.js:34-39 | sets the mode and makes both draft lists all blank, 4 long for 'single' and 2 otherwise; the name entry screen follows unless the mode is empty |
| `ScoreApp.App.HandleNameChange` | score-web/src/App.js:41-45 | the name draft at the index becomes the new name; the length and every other draft and field are unchanged |
| `ScoreApp.App.HandleContinue` | score-web/src/App.js:47-49 | the committed names become the name drafts verbatim, even empty ones; the score table follows and the session is saved |
| `ScoreApp.App.HandleScoreChange` | score-web/src/App.js:51-55 | the score draft at the index becomes the new raw text; the length and every other draft and field, storage included, are unchanged |
| `ScoreApp.App.HandleAddScores` | score-web/src/App.js:57-64 | exactly one round is appended, earlier rounds are unchanged, the round is the parsed drafts (0 where no number), one entry per player; the drafts are blank again, the totals grow by that round and the session is saved |
| `ScoreApp.App.HandleReset` | score-web/src/App.js:66-73 | storage is cleared and every field is empty, which brings back the mode selection screen |
| `ScoreApp.App.StoredSnapshotValid` | score-web/src/App.js:26-31 | storage holds a snapshot exactly during score tracking, and that snapshot has the shape loading expects |
| `ScoreApp.ReloadRestoresSession` | score-web/src/App.js:12-32 | reloading during score tracking brings back the mode, names, name drafts and rounds, with blank score drafts |
| `ScoreApp.ReloadBeforeNamesIsEmpty` | score-web/src/App.js:12-32 | reloading before the names are committed starts an empty session at mode selection |
| `ScoreApp.ResetThenReload` | score-web/src/App.js:66-73 | a reset followed by a reload starts an empty session at mode selection |
| `Scenarios.DraftRowExample` | score-web/src/App.js:58-61 | drafts "7", "" and "abc" make the round [7, 0, 0] |
| `Scenarios.TrailingTextAndSignExample` | score-web/src/App.js:59-60 | "12abc" counts as 12 and " -3" as -3 |
| `Scenarios.NaNDraftsExample` | score-web/src/App.js:59-60 | drafts "abc5", "-" and "+-5" hold a digit but no number and count as 0 |
| `Scenarios.SignAndZerosExample` | score-web/src/App.js:59-60 | "+5" counts as 5 and "007" as 7 |
| `Scenarios.SoloExample` | score-web/src/App.js:75-95 | rounds [10, 0, 5, 3] and [2, 2, 2, 2] total [12, 2, 7, 5], labelled high, low, unmarked, unmarked |
| `Scenarios.TeamExample` | score-web/src/App.js:75-95 | one round [5, 5] totals [5, 5], both labelled 'equal' |
| `Scenarios.StartTeamSession` | score-web/src/App.js:34-49 | choosing 'double', naming the teams and continuing reaches the score table with the session saved |
| `Scenarios.TeamRound` | score-web/src/App.js:57-95 | drafts "5" and "" make the round [5, 0], whose totals are labelled high and low |
| `Scenarios.TeamSession` | score-web/src/App.js:51-95 | entering and committing that round through the handlers gives totals [5, 0] labelled high and low |

## Left out

- Rendering (the JSX, CSS classes and button styles, lines 97-193): presentation only; the two screen tests at lines 97 and 107 are in the model.
- React scheduling (`useState`, `useEffect`, re-render order): each handler is one atomic method, and the save effect runs at its end when a watched field changed.
- `localStorage` and JSON: storage is an abstract slot holding a snapshot value. A stored text that does not parse is not modelled; the source does not handle it either.
- ScoreApp.App.Mount: requires the stored snapshot to have the shape the save effect writes (a non-empty mode, matching name lists, rounds one entry per player); the source adopts whatever it reads.
- Full `parseInt`: white space is the ASCII set plus no-break space, byte order mark and the line and paragraph separators, not every Unicode space separator. A number too large for a double, which JavaScript rounds, is an exact integer here, and "-0" is 0.
- JavaScript number arithmetic: totals are unbounded integers, with no rounding above 2^53.
- The number type of the score input field (line 137): it only constrains the browser's editing.
- `Math.max`/`Math.min` of an empty list: `GetTotalClasses` requires at least one total; the score table is only shown once names are committed, so the source never calls it with none.
- Totals.CalculateTotals: requires no round longer than the number of players; a longer round would add slots holding NaN, which never happens because every committed round has one entry per player.
- Handler calls from the wrong screen or with an index past the end of the drafts: the source has no guards and the screens never make such calls, so the handlers require the right phase and an index in range.
