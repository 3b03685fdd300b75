# Rock-paper-scissors engine: a Dafny model

This project models the core of a small rock-paper-scissors game (*piedra, papel o
tijera*). It covers:

- how a round is decided (`determinar_resultado`);
- how a match moves through its lifecycle: started *en curso*, rounds recorded, then
  *finalizada* with a winner who gains a point, or *abandonada*;
- the repository queries over the stored history: global info, match statistics,
  strongest and weakest hand, ranking, and `get_or_create` of a player by name;
- the two console flows that drive a match: human against machine, and a batch of
  machine-against-machine matches.

The relational database is an immutable `Store` of three sequences, one per table
(`Models`). Row `i` carries identity `i + 1`, which is what autoincrement with no
deletions produces. A record that has not been saved has identity `0` (`Unsaved`),
standing for Python's `None`. Each service call maps a store to a new store, and
each query is a function of the store's sequences. The SQL `COUNT(*) … WHERE` queries
are `Seqs.Count` over a predicate. Each count is proved equal to the size of the set
of matching rows (`Seqs.Matching`).

Modules follow the program: `Schemas` (app/schemas.py), `Models` (app/models.py),
`Repositories` (app/repositories.py), `Services` (app/services.py) and `Console`
(console_game.py). `Wrappers` holds `Option` and `Result`, and `Seqs` holds the
counting lemmas.

The console's nondeterminism becomes parameters:

- the typed lines and interrupts are a sequence of `Console.Input`;
- `random.choice` is a sequence of machine moves.

Behaviour of the code worth knowing, which the model keeps:

- The strongest and weakest hand queries fail when no round has the outcome asked
  for, although the guard on their percentage (app/repositories.py:61) is written
  to answer 0 in that case. See "Findings".
- `marcar_abandonada` only sets the status. Abandoning a match that was already
  finished therefore keeps its winner, and the match is then counted both as a win
  and as an abandonment (`Services.AbandonKeepsWinnerIffFinishedUnlessFinished`).
- `iniciar_partida` checks nothing about its two players. The human flow looks up
  the name typed and the name "Máquina" separately, so a human who types "Máquina"
  plays against themself: both sides are the same player (`Console.OpenHumanSession`
  only promises distinct ids when the names differ).
- A tie in round wins goes to the second side: the machine in the human flow, and
  "Máquina 2" in the batch (`Console.MatchWinnerIsFirstIffAhead`).

## Model

| member | source | states |
|---|---|---|
| Schemas.MovesAreClosed | app/schemas.py:4-7 | there are exactly three distinct moves, and every move is among them |
| Schemas.NamesAreInjective | app/schemas.py:4-21 | each enumeration value has its own string literal, so the literal identifies the value |
| Schemas.SummaryWithoutWinner | app/schemas.py:31-33 | a match summary built without a winner has none, and keeps the status given |
| Models.NewRecordDefaults | app/models.py:13-19 | a new player starts with 0 points; a new match starts in progress with no winner |
| Repositories.SaveMatch | app/repositories.py:111-131 | an unsaved match is appended as the last row under identity `|ms| + 1`, every row already stored kept as it was; a saved one is overwritten in place; the record returned is the one stored, and every other row is unchanged |
| Repositories.SaveRound | app/repositories.py:111-131 | the same insert-or-overwrite on the rounds table: an unsaved round is appended after all stored rounds under identity `|rs| + 1`; row i stays at identity i + 1 |
| Repositories.GetGlobalInfo | app/repositories.py:34-37 | the total is the number of matches; wins count matches with a winner, and losses count abandoned matches; the win rate is wins/total × 100, lies in [0, 100], and is 0 on an empty table |
| Repositories.GetMatchStats | app/repositories.py:97-99 | the total, the matches with a winner and the abandoned matches, each as the size of the set of matching rows |
| Repositories.StatsAgreeWithGlobalInfo | app/repositories.py:34-36 | the statistics query and the global-info query give the same three counts |
| Repositories.GlobalInfoOfEmpty | app/repositories.py:37 | on an empty table every figure is zero, the rate included |
| Repositories.GlobalInfoScenario | app/repositories.py:34-37 | one won, one abandoned and one in-progress match give 1 win, 1 loss, 3 matches and a rate of 100/3 |
| Repositories.MostCommonMove | app/repositories.py:59-61 | fails exactly when no round has the outcome; otherwise it returns a move that no other move outnumbers among those rounds, with its exact share, and that move holds at least a third of them |
| Repositories.StrongestHand | app/repositories.py:59-63 | fails exactly when no round was won; otherwise it returns a move won with most often and its share of all wins |
| Repositories.WeakestHand | app/repositories.py:77-81 | fails exactly when no round was lost; otherwise it returns a move lost with most often and its share of all losses |
| Repositories.HandReportOf | app/repositories.py:61 | reports no move and a share of 0 exactly when no round has the outcome; otherwise a most frequent move and its share, within [0, 100] |
| Repositories.StrongestHandReport | app/repositories.py:59-63 | agrees with the strongest-hand query wherever that query answers, and reports no move and 0 where it fails |
| Repositories.WeakestHandReport | app/repositories.py:77-81 | agrees with the weakest-hand query wherever that query answers, and reports no move and 0 where it fails |
| Repositories.StrongestHandFailsWithoutWins | app/repositories.py:59-63 | with one lost round and no win, the query as written fails, while the corrected report gives no move and 0 |
| Repositories.StrongestHandScenario | app/repositories.py:59-63 | two rock wins and one paper win give rock with 200/3 percent |
| Repositories.InsertByPoints | app/repositories.py:155 | inserting into a list sorted by points keeps it sorted and adds exactly that player |
| Repositories.SortByPoints | app/repositories.py:155 | the result is sorted by non-increasing points and is a permutation of the players |
| Repositories.SortedPrefixDominates | app/repositories.py:155 | cutting a sorted list leaves out only players with no more points than the last one kept |
| Repositories.Ranking | app/repositories.py:155 | returns min(3, number of players) players, sorted by points, all drawn from the table, and no player left out has more points than the last one listed |
| Repositories.FindByName | app/repositories.py:175 | finds the first player with the name, or reports that no player has it |
| Repositories.GetOrCreate | app/repositories.py:175-183 | returns the first player with the name and leaves the store unchanged; if no player has it, it appends a new player of the kind given, with 0 points, under the next identity |
| Repositories.GetOrCreateIsIdempotent | app/repositories.py:175-183 | a second lookup of the same name returns the same player and changes nothing, whatever kind it asks for |
| Services.ResolveRound | app/services.py:79-89 | draw exactly on equal moves; a win exactly when the player's move beats the other's on the rock→scissors→paper→rock cycle; a loss exactly when it is beaten |
| Services.BeaterCycles | app/services.py:82-84 | the beating relation is a 3-cycle: no move beats itself or its own beater |
| Services.WinningPairs | app/services.py:82-86 | the winning pairs are exactly rock/scissors, paper/rock and scissors/paper |
| Services.ResolveIsAntiSymmetric | app/services.py:79-89 | for different moves, swapping the players turns a win into a loss and back, and never gives a draw |
| Services.EachMoveMeetsEachOutcomeOnce | app/services.py:79-89 | against the three possible replies a move gets three different outcomes, and likewise for the three openings against a reply |
| Services.PairsFromHaveEachOutcomeOnce | app/services.py:79-89 | among the three pairs a move opens, exactly one has each outcome |
| Services.NinePairsSplitEvenly | app/services.py:79-89 | over all nine pairs of moves there are exactly three draws, three wins and three losses |
| Services.StartMatch | app/services.py:34-38 | appends one in-progress match without a winner under the next identity, and changes nothing else |
| Services.RecordRound | app/services.py:58-62 | returns the resolved outcome and appends exactly one round for that match, player and move; players and matches are unchanged |
| Services.FinishMatch | app/services.py:101-104 | the match becomes finished with this winner; the winner gains exactly one point; no other player, match or round changes |
| Services.AbandonMatch | app/services.py:119-120 | the match becomes abandoned and keeps its winner field; nothing else changes |
| Services.AbandonRewritesOneRow | app/services.py:119-120 | abandoning rewrites exactly the status of the match's row |
| Services.FinishTwiceScoresTwice | app/services.py:101-104 | finishing the same match twice leaves the matches as one finish does, but gives the winner two points |
| Services.AppendMatchCounts | app/repositories.py:34-35 | appending a match adds one win if it has a winner and one loss if it is abandoned |
| Services.ReplaceMatchCounts | app/repositories.py:34-35 | overwriting a match changes the win and loss counts by what the old and new rows contribute |
| Services.StartMatchCounts | app/services.py:34-38 | starting a match adds one to the total and nothing to wins or losses |
| Services.FinishMatchCounts | app/services.py:101-104 | finishing an in-progress match adds one win and leaves the total and the losses |
| Services.AbandonMatchCounts | app/services.py:119-120 | abandoning an in-progress match adds one loss and leaves the total and the wins |
| Services.LifecycleKeepsWinnerIffFinished | app/services.py:34-104 | starting, recording and finishing keep "a match has a winner exactly when it is finished" |
| Services.AbandonKeepsWinnerIffFinishedUnlessFinished | app/services.py:119-120 | abandoning keeps that rule exactly when the match was not already finished |
| Console.Lower | console_game.py:39 | the lower-cased line has the same length; each upper-case ASCII letter becomes the same letter in lower case, so none is left, and every other character is unchanged |
| Console.Readings | console_game.py:38-42 | each event in order reads as an interrupt exactly when it is one, and as a chosen move exactly when it is a typed line naming that move |
| Console.Outcomes | console_game.py:47 | each round's outcome, for the side playing `mine`, is a draw, a win or a loss exactly as the moves are equal, its move beats the other, or the other beats it |
| Console.LowerIsIdempotent | console_game.py:39 | lower-casing a line twice gives the same line as lower-casing it once |
| Console.LowerKeepsMoveNames | console_game.py:11-15 | the move names are left alone by lower-casing, so they are the keys a lower-cased line is compared with |
| Console.ParseMove | console_game.py:39-40 | a lower-cased line is read as the move it names, and is rejected exactly when it names none |
| Console.ParseMoveReadsNames | console_game.py:11-15 | a move's own name with each letter in either case ("PIEDRA", "Papel", "tIjErA") reads back as that move |
| Console.Read | console_game.py:38-42 | an interrupt cancels; a typed line gives a move exactly when it names one; any other line is ignored |
| Console.MatchWinnerIsFirstIffAhead | console_game.py:64-68 | for two distinct players the first gets the match exactly when it won strictly more rounds; ties go to the second |
| Console.PlayRounds | app/services.py:58-62 | recording the moves in order appends their rounds with consecutive identities and the resolved outcomes, and changes no player or match |
| Console.PlayRoundsStep | console_game.py:47 | one more move is one more `registrar_jugada` |
| Console.WinsAndLossesWithinRounds | console_game.py:48-56 | the round wins of the two sides never add up to more than the rounds played |
| Console.TallyExtend | console_game.py:48-53 | one more round adds one to the tally of the side that won it, and nothing on a draw |
| Console.PlayRound | console_game.py:47-56 | one round records the move against the opponent's next move; the store and both tallies then describe exactly the rounds played so far |
| Console.GetOrCreateObtains | app/repositories.py:175-183 | one lookup either finds the first player with the name and leaves the table as it was, or appends that player with the kind asked for and 0 points |
| Console.ObtainsTwice | console_game.py:28-29 | two lookups in a row add at most two players, each the one looked up, created with its kind and 0 points, and keep every player already stored |
| Console.GetOpponents | console_game.py:28-29 | after the two lookups each side is the first player with its name; a side is created only when its name was absent, with the kind asked for and 0 points; nothing else is added; existing players, matches and rounds are kept, and the store is unchanged when both names existed; different names give different players |
| Console.OpenHumanSession | console_game.py:27-30 | the same two lookups for the human (kind *humano*) and "Máquina" (kind *maquina*), then one in-progress match without a winner under the next identity; the players table is unchanged when both names existed |
| Console.HumanRounds | console_game.py:37-61 | reads until three valid moves, an interrupt or the end of input (`PromptEnded`): a completed loop's last line read is the third valid move, an interrupted one's is the interrupt; invalid lines record nothing; each valid move is played against the next machine move, and the tallies count the rounds won and lost |
| Console.PlayHumanVsMachine | console_game.py:18-68 | three moves finish the match for the side ahead (the machine on a tie) and score it, and the last line read is then the one naming the third move; an interrupt abandons the match with no winner and scores nobody; the rounds recorded are exactly the valid moves read, and the two tallies never exceed them |
| Console.PlayMachineMatch | console_game.py:86-115 | one batch match appends a finished match, three rounds from the first machine's side, and one point for the side with more round wins (the second on a tie) |
| Console.BatchMatchesStep | console_game.py:84-115 | one more finished match, and three more rounds appended, extend the batch's matches, winners and rounds, keeping the rows stored before the batch |
| Console.BatchPointsStep | console_game.py:110-115 | one more winner's point extends the batch's points |
| Console.PlayMachineVsMachine | console_game.py:74-115 | as many matches as `range(n)` yields (none for a negative n, which the `--n_partidas` option accepts) between "Máquina 1" and "Máquina 2" are appended, each finished with the winner its moves give (`BatchMatches`); three rounds per match are appended after the rounds already stored, which are kept; each machine's row is kept except that it gains one point per match it won, and no other player changes (`BatchPoints`) |

## Left out

- The HTTP layer (app/main.py), database setup (app/database.py) and logging (app/logger_config.py) are not part of this model. The service and repository calls keep only their effect on the tables.
- Transactions and rollback are not modelled: every call in the model succeeds or returns an explicit error value. Nothing models the database itself failing.
- `input`, `print`, `random.choice`, `sys.exit` and `argparse` are not modelled as such: the typed lines and the machine moves are parameters, and the printed messages are left out.
- Floating point: percentages and the win rate are exact reals, not IEEE doubles.
- Console.Lower: only ASCII letters are lowered, where Python's `str.lower` covers all of Unicode. No non-ASCII character lowers to a string made only of the letters in "piedra", "papel" and "tijera", so this does not change which lines name a move.
- Services.StartMatch: takes no players. The source only writes their names to the log.
- Repositories.StrongestHand: the contract accepts any move of maximal count. The grouped SQL query leaves the order among equal counts to the database, while the model picks rock, then paper, then scissors.
- Repositories.Ranking: the order among players with equal points is likewise left open, as in the SQL `ORDER BY … LIMIT 3`.
- Console.PlayHumanVsMachine: an interrupt is modelled only while a move is being read. An interrupt at the name prompt (console_game.py:27) or during a round's bookkeeping is not.
- Console.PlayHumanVsMachine: when the input runs out (Python's `EOFError`), the model stops with the match still in progress. The source would raise out of the flow.
- Console.PlayMachineVsMachine: states the count of rounds added and that the rounds stored before are kept, not the contents of the added rounds. Each match's rounds are stated by Console.PlayMachineMatch.
- Services.RecordRound, Services.FinishMatch, Services.AbandonMatch: do not require the match to be in progress, because the source does not check that either.

## Findings

| source | as written | input that shows it | evidently intended | confidence | as-written member | corrected member |
|---|---|---|---|---|---|---|
| app/repositories.py:59-63 (and 77-81) | the percentage guard at line 61 handles zero wins, but line 62 still indexes the missing row (`None[0]`), so the query raises | a store whose rounds include no won round, e.g. one round with outcome *perdida* | no move and a share of 0, as the guard at line 61 intends | high (not executed) | Repositories.StrongestHandFailsWithoutWins (about Repositories.StrongestHand) | Repositories.StrongestHandReport (and Repositories.WeakestHandReport, via Repositories.HandReportOf) |
