/** The match service (app/services.py): deciding a round and moving a match
    through its lifecycle. Each operation maps a store to a store. */
module Services {
  import opened Wrappers
  import opened Seqs
  import opened Schemas
  import opened Models
  import opened Repositories

  // ---------------------------------------------------------------------------
  // Round resolution

  /** The move that beats `m`: rock -> paper -> scissors -> rock, each move
      beaten by the next one on the cycle. */
  function Beater(m: Move): Move
  {
    match m
    case Rock => Paper
    case Paper => Scissors
    case Scissors => Rock
  }

  /** `determinar_resultado`: the outcome for the player of `mine` against
      `theirs`. The contract restates the three branches in terms of the cycle:
      a move wins against the move it follows and loses to the one after it. */
  function ResolveRound(mine: Move, theirs: Move): (r: Outcome)
    ensures r == Draw <==> mine == theirs
    ensures r == Won <==> mine == Beater(theirs)
    ensures r == Lost <==> theirs == Beater(mine)
  {
    if mine == theirs then Draw
    else if (mine == Rock && theirs == Scissors)
         || (mine == Paper && theirs == Rock)
         || (mine == Scissors && theirs == Paper) then Won
    else Lost
  }

  /** The cycle has length three: each move beats the move that beats its
      beater. */
  lemma BeaterCycles(m: Move)
    ensures Beater(m) != m
    ensures Beater(Beater(m)) != m
    ensures Beater(Beater(Beater(m))) == m
  {
  }

  /** The winning pairs are exactly rock over scissors, paper over rock and
      scissors over paper. */
  lemma WinningPairs(mine: Move, theirs: Move)
    ensures ResolveRound(mine, theirs) == Won
        <==> (mine, theirs) in {(Rock, Scissors), (Paper, Rock), (Scissors, Paper)}
  {
  }

  /** Swapping two different moves swaps a win into a loss and back. */
  lemma ResolveIsAntiSymmetric(a: Move, b: Move)
    requires a != b
    ensures ResolveRound(a, b) != Draw
    ensures ResolveRound(a, b) == Won <==> ResolveRound(b, a) == Lost
    ensures ResolveRound(a, b) == Lost <==> ResolveRound(b, a) == Won
  {
  }

  /** Against the three possible replies a move draws once, wins once and loses
      once (and likewise for the three possible openings against a reply), so
      the nine pairs split into three draws, three wins and three losses. */
  lemma EachMoveMeetsEachOutcomeOnce(a: Move)
    ensures ResolveRound(a, Rock) != ResolveRound(a, Paper)
    ensures ResolveRound(a, Rock) != ResolveRound(a, Scissors)
    ensures ResolveRound(a, Paper) != ResolveRound(a, Scissors)
    ensures ResolveRound(Rock, a) != ResolveRound(Paper, a)
    ensures ResolveRound(Rock, a) != ResolveRound(Scissors, a)
    ensures ResolveRound(Paper, a) != ResolveRound(Scissors, a)
  {
  }

  /** The three pairs in which `a` is the player's move. */
  function PairsFrom(a: Move): seq<(Move, Move)>
  {
    [(a, Rock), (a, Paper), (a, Scissors)]
  }

  /** All nine pairs of moves, the player's move first. */
  function AllPairs(): (r: seq<(Move, Move)>)
    ensures |r| == 9
    ensures forall a: Move, b: Move :: (a, b) in r
  {
    var r := PairsFrom(Rock) + PairsFrom(Paper) + PairsFrom(Scissors);
    assert forall a: Move, b: Move :: (a, b) == r[3 * MoveIndex(a) + MoveIndex(b)];
    r
  }

  /** Position of a move in declaration order. */
  function MoveIndex(m: Move): (i: nat)
    ensures i < 3
  {
    match m
    case Rock => 0
    case Paper => 1
    case Scissors => 2
  }

  function HasOutcome(o: Outcome): ((Move, Move)) -> bool
  {
    (p: (Move, Move)) => ResolveRound(p.0, p.1) == o
  }

  /** Each move meets each outcome in exactly one of its three pairs. */
  lemma PairsFromHaveEachOutcomeOnce(a: Move, o: Outcome)
    ensures Count(PairsFrom(a), HasOutcome(o)) == 1
  {
    CountOfThree((a, Rock), (a, Paper), (a, Scissors), HasOutcome(o));
    EachMoveMeetsEachOutcomeOnce(a);
  }

  /** The nine pairs split into three draws, three wins and three losses. */
  lemma {:induction false} NinePairsSplitEvenly(o: Outcome)
    ensures Count(AllPairs(), HasOutcome(o)) == 3
  {
    PairsFromHaveEachOutcomeOnce(Rock, o);
    PairsFromHaveEachOutcomeOnce(Paper, o);
    PairsFromHaveEachOutcomeOnce(Scissors, o);
    CountAppend(PairsFrom(Rock), PairsFrom(Paper), HasOutcome(o));
    CountAppend(PairsFrom(Rock) + PairsFrom(Paper), PairsFrom(Scissors), HasOutcome(o));
  }

  // ---------------------------------------------------------------------------
  // Match lifecycle

  /** A store after a match was started, and the match as saved. */
  datatype Started = Started(store: Store, started: Match)

  /** `iniciar_partida`: saves a new in-progress match with no winner. The two
      players are only logged by the source, so they are not parameters here. */
  function StartMatch(s: Store): (r: Started)
    requires Valid(s)
    ensures Valid(r.store)
    ensures r.store.matches == s.matches + [r.started]
    ensures r.started.id == |s.matches| + 1
    ensures r.started.status == InProgress && r.started.winnerId == None
    ensures r.store.players == s.players && r.store.rounds == s.rounds
  {
    var saved := SaveMatch(s.matches, NewMatch().(status := InProgress));
    Started(s.(matches := saved.rows), saved.record)
  }

  /** A store after a round was recorded, and the round's outcome. */
  datatype Recorded = Recorded(store: Store, outcome: Outcome)

  /** `registrar_jugada`: resolves the round, saves it under the match and the
      player, and returns the outcome. Whether the match is still in progress is
      not checked. */
  function RecordRound(s: Store, matchId: nat, playerId: nat, mine: Move, theirs: Move): (r: Recorded)
    requires Valid(s)
    ensures Valid(r.store)
    ensures r.outcome == ResolveRound(mine, theirs)
    ensures r.store.rounds == s.rounds + [Round(|s.rounds| + 1, matchId, playerId, mine, r.outcome)]
    ensures r.store.players == s.players && r.store.matches == s.matches
  {
    var outcome := ResolveRound(mine, theirs);
    var saved := SaveRound(s.rounds, NewRound(matchId, playerId, mine, outcome));
    Recorded(s.(rounds := saved.rows), outcome)
  }

  /** `finalizar_partida`: records the winner, marks the match finished and gives
      the winner one point. Nothing guards against finishing a match twice. */
  function FinishMatch(s: Store, matchId: nat, winnerId: nat): (r: Store)
    requires Valid(s) && HasMatch(s, matchId) && HasPlayer(s, winnerId)
    ensures Valid(r)
    ensures r.matches == s.matches[matchId - 1 := Match(matchId, Finished, Some(winnerId))]
    ensures |r.players| == |s.players|
    ensures r.players[winnerId - 1].points == s.players[winnerId - 1].points + 1
    ensures r.players[winnerId - 1] == s.players[winnerId - 1].(points := r.players[winnerId - 1].points)
    ensures forall i :: 0 <= i < |s.players| && i != winnerId - 1 ==> r.players[i] == s.players[i]
    ensures r.rounds == s.rounds
  {
    var finished := s.matches[matchId - 1].(winnerId := Some(winnerId), status := Finished);
    var winner := s.players[winnerId - 1];
    var saved := SaveMatch(s.matches, finished);
    Store(s.players[winnerId - 1 := winner.(points := winner.points + 1)], saved.rows, s.rounds)
  }

  /** `marcar_abandonada`: marks the match abandoned and leaves its winner field
      as it was. */
  function AbandonMatch(s: Store, matchId: nat): (r: Store)
    requires Valid(s) && HasMatch(s, matchId)
    ensures Valid(r)
    ensures |r.matches| == |s.matches|
    ensures r.matches[matchId - 1].status == Abandoned
    ensures r.matches[matchId - 1].id == matchId
    ensures r.matches[matchId - 1].winnerId == s.matches[matchId - 1].winnerId
    ensures forall i :: 0 <= i < |s.matches| && i != matchId - 1 ==> r.matches[i] == s.matches[i]
    ensures r.players == s.players && r.rounds == s.rounds
  {
    var saved := SaveMatch(s.matches, s.matches[matchId - 1].(status := Abandoned));
    s.(matches := saved.rows)
  }

  // ---------------------------------------------------------------------------
  // Properties relating several calls

  /** Abandoning rewrites the one match row and nothing else. */
  lemma AbandonRewritesOneRow(s: Store, matchId: nat)
    requires Valid(s) && HasMatch(s, matchId)
    ensures AbandonMatch(s, matchId).matches == s.matches[matchId - 1 := s.matches[matchId - 1].(status := Abandoned)]
  {
    var r := AbandonMatch(s, matchId);
    assert forall i :: 0 <= i < |s.matches| ==>
      r.matches[i] == s.matches[matchId - 1 := s.matches[matchId - 1].(status := Abandoned)][i];
  }

  /** Finishing the same match twice leaves it as finishing it once would, but
      gives the winner two points. */
  lemma FinishTwiceScoresTwice(s: Store, matchId: nat, winnerId: nat)
    requires Valid(s) && HasMatch(s, matchId) && HasPlayer(s, winnerId)
    ensures var once := FinishMatch(s, matchId, winnerId);
            var twice := FinishMatch(once, matchId, winnerId);
            && twice.matches == once.matches
            && twice.players[winnerId - 1].points == s.players[winnerId - 1].points + 2
  {
    var once := FinishMatch(s, matchId, winnerId);
    var twice := FinishMatch(once, matchId, winnerId);
    assert forall i :: 0 <= i < |once.matches| ==> twice.matches[i] == once.matches[i];
  }

  /** How the win and abandonment counts move when one match row is appended. */
  lemma AppendMatchCounts(ms: seq<Match>, m: Match)
    ensures |Matching(ms + [m], HasWinner)| == |Matching(ms, HasWinner)| + (if HasWinner(m) then 1 else 0)
    ensures |Matching(ms + [m], IsAbandoned)| == |Matching(ms, IsAbandoned)| + (if IsAbandoned(m) then 1 else 0)
  {
    CountIsMatchingSize(ms, HasWinner);
    CountIsMatchingSize(ms, IsAbandoned);
    CountIsMatchingSize(ms + [m], HasWinner);
    CountIsMatchingSize(ms + [m], IsAbandoned);
    CountAppendOne(ms, m, HasWinner);
    CountAppendOne(ms, m, IsAbandoned);
  }

  /** How the win and abandonment counts move when one match row is overwritten. */
  lemma ReplaceMatchCounts(ms: seq<Match>, i: nat, m: Match)
    requires i < |ms|
    ensures |Matching(ms[i := m], HasWinner)| + (if HasWinner(ms[i]) then 1 else 0)
         == |Matching(ms, HasWinner)| + (if HasWinner(m) then 1 else 0)
    ensures |Matching(ms[i := m], IsAbandoned)| + (if IsAbandoned(ms[i]) then 1 else 0)
         == |Matching(ms, IsAbandoned)| + (if IsAbandoned(m) then 1 else 0)
  {
    CountIsMatchingSize(ms, HasWinner);
    CountIsMatchingSize(ms, IsAbandoned);
    CountIsMatchingSize(ms[i := m], HasWinner);
    CountIsMatchingSize(ms[i := m], IsAbandoned);
    CountUpdate(ms, i, m, HasWinner);
    CountUpdate(ms, i, m, IsAbandoned);
  }

  /** Starting a match adds one to the match total and nothing to wins or
      abandonments. */
  lemma StartMatchCounts(s: Store)
    requires Valid(s)
    ensures var before := GetGlobalInfo(s.matches);
            var after := GetGlobalInfo(StartMatch(s).store.matches);
            && after.totalMatches == before.totalMatches + 1
            && after.totalWins == before.totalWins
            && after.totalLosses == before.totalLosses
  {
    var r := StartMatch(s);
    AppendMatchCounts(s.matches, r.started);
  }

  /** Finishing an in-progress match adds one win and leaves the other counts. */
  lemma FinishMatchCounts(s: Store, matchId: nat, winnerId: nat)
    requires Valid(s) && HasMatch(s, matchId) && HasPlayer(s, winnerId)
    requires s.matches[matchId - 1] == Match(matchId, InProgress, None)
    ensures var before := GetGlobalInfo(s.matches);
            var after := GetGlobalInfo(FinishMatch(s, matchId, winnerId).matches);
            && after.totalMatches == before.totalMatches
            && after.totalWins == before.totalWins + 1
            && after.totalLosses == before.totalLosses
  {
    var r := FinishMatch(s, matchId, winnerId);
    var finished := Match(matchId, Finished, Some(winnerId));
    assert r.matches == s.matches[matchId - 1 := finished];
    ReplaceMatchCounts(s.matches, matchId - 1, finished);
  }

  /** Abandoning an in-progress match adds one abandonment and no win. */
  lemma AbandonMatchCounts(s: Store, matchId: nat)
    requires Valid(s) && HasMatch(s, matchId)
    requires s.matches[matchId - 1] == Match(matchId, InProgress, None)
    ensures var before := GetGlobalInfo(s.matches);
            var after := GetGlobalInfo(AbandonMatch(s, matchId).matches);
            && after.totalMatches == before.totalMatches
            && after.totalWins == before.totalWins
            && after.totalLosses == before.totalLosses + 1
  {
    var r := AbandonMatch(s, matchId);
    var abandoned := Match(matchId, Abandoned, None);
    assert r.matches[matchId - 1] == abandoned;
    assert r.matches == s.matches[matchId - 1 := abandoned];
    ReplaceMatchCounts(s.matches, matchId - 1, abandoned);
  }

  /** Starting, recording and finishing keep "a match has a winner exactly when
      it is finished". */
  lemma LifecycleKeepsWinnerIffFinished(s: Store, matchId: nat, playerId: nat, mine: Move, theirs: Move)
    requires Valid(s) && AllWinnerIffFinished(s)
    ensures AllWinnerIffFinished(StartMatch(s).store)
    ensures AllWinnerIffFinished(RecordRound(s, matchId, playerId, mine, theirs).store)
    ensures HasMatch(s, matchId) && HasPlayer(s, playerId) ==> AllWinnerIffFinished(FinishMatch(s, matchId, playerId))
  {
    var st := StartMatch(s).store;
    assert forall i :: 0 <= i < |s.matches| ==> st.matches[i] == s.matches[i];
  }

  /** Abandoning keeps that rule exactly when the match was not finished: an
      abandoned finished match keeps its winner, and is then counted both as a
      win and as an abandonment. */
  lemma AbandonKeepsWinnerIffFinishedUnlessFinished(s: Store, matchId: nat)
    requires Valid(s) && HasMatch(s, matchId) && AllWinnerIffFinished(s)
    ensures AllWinnerIffFinished(AbandonMatch(s, matchId)) <==> s.matches[matchId - 1].status != Finished
  {
    var r := AbandonMatch(s, matchId);
    if s.matches[matchId - 1].status == Finished {
      assert !WinnerIffFinished(r.matches[matchId - 1]);
    }
  }
}
