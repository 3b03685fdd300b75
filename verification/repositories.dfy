/** The repositories (app/repositories.py): saving records and the read-only
    statistics queries, each SQL query restated over the store's sequences. */
module Repositories {
  import opened Wrappers
  import opened Seqs
  import opened Schemas
  import opened Models

  // ---------------------------------------------------------------------------
  // Saving

  /** A table after a save, and the saved record as refreshed (with its id). */
  datatype Saved<T> = Saved(rows: seq<T>, record: T)

  /** `save` on a match: a new match is inserted under the next identity, a
      stored one is overwritten in place. */
  function SaveMatch(ms: seq<Match>, m: Match): (r: Saved<Match>)
    requires MatchIds(ms)
    requires m.id <= |ms|
    ensures MatchIds(r.rows)
    ensures |r.rows| == |ms| + (if m.id == Unsaved then 1 else 0)
    ensures r.record == m.(id := r.record.id)
    ensures 1 <= r.record.id <= |r.rows| && r.rows[r.record.id - 1] == r.record
    ensures m.id == Unsaved ==> r.record.id == |ms| + 1 && r.rows == ms + [r.record]
    ensures m.id != Unsaved ==> r.record.id == m.id
    ensures forall i :: 0 <= i < |ms| && i != r.record.id - 1 ==> r.rows[i] == ms[i]
  {
    if m.id == Unsaved then
      var saved := m.(id := |ms| + 1);
      Saved(ms + [saved], saved)
    else
      Saved(ms[m.id - 1 := m], m)
  }

  /** `save` on a round: the same insert-or-overwrite on the rounds table. */
  function SaveRound(rs: seq<Round>, rd: Round): (r: Saved<Round>)
    requires RoundIds(rs)
    requires rd.id <= |rs|
    ensures RoundIds(r.rows)
    ensures |r.rows| == |rs| + (if rd.id == Unsaved then 1 else 0)
    ensures r.record == rd.(id := r.record.id)
    ensures 1 <= r.record.id <= |r.rows| && r.rows[r.record.id - 1] == r.record
    ensures rd.id == Unsaved ==> r.record.id == |rs| + 1 && r.rows == rs + [r.record]
    ensures rd.id != Unsaved ==> r.record.id == rd.id
    ensures forall i :: 0 <= i < |rs| && i != r.record.id - 1 ==> r.rows[i] == rs[i]
  {
    if rd.id == Unsaved then
      var saved := rd.(id := |rs| + 1);
      Saved(rs + [saved], saved)
    else
      Saved(rs[rd.id - 1 := rd], rd)
  }

  // ---------------------------------------------------------------------------
  // Match counts

  predicate HasWinner(m: Match)
  {
    m.winnerId.Some?
  }

  predicate IsAbandoned(m: Match)
  {
    m.status == Abandoned
  }

  /** `part` as a percentage of `whole`, in exact arithmetic. */
  function Percent(part: nat, whole: nat): (pct: real)
    requires whole > 0
    ensures pct * whole as real == part as real * 100.0
    ensures 0.0 <= pct
    ensures part <= whole ==> pct <= 100.0
  {
    (part as real / whole as real) * 100.0
  }

  /** Result of `obtener_info_global`; `totalLosses` counts abandoned matches. */
  datatype GlobalInfo = GlobalInfo(totalWins: nat, totalLosses: nat, totalMatches: nat, winRate: real)

  function GetGlobalInfo(ms: seq<Match>): (r: GlobalInfo)
    ensures r.totalMatches == |ms|
    ensures r.totalWins == |Matching(ms, HasWinner)|
    ensures r.totalLosses == |Matching(ms, IsAbandoned)|
    ensures r.totalMatches == 0 ==> r.winRate == 0.0
    ensures r.totalMatches > 0 ==> r.winRate * r.totalMatches as real == r.totalWins as real * 100.0
    ensures 0.0 <= r.winRate <= 100.0
  {
    CountIsMatchingSize(ms, HasWinner);
    CountIsMatchingSize(ms, IsAbandoned);
    var wins := Count(ms, HasWinner);
    var losses := Count(ms, IsAbandoned);
    if |ms| == 0 then GlobalInfo(wins, losses, 0, 0.0)
    else GlobalInfo(wins, losses, |ms|, Percent(wins, |ms|))
  }

  /** Result of `obtener_estadisticas_partidas`. */
  datatype MatchStats = MatchStats(totalMatches: nat, matchesWon: nat, matchesAbandoned: nat)

  function GetMatchStats(ms: seq<Match>): (r: MatchStats)
    ensures r.totalMatches == |ms|
    ensures r.matchesWon == |Matching(ms, HasWinner)|
    ensures r.matchesAbandoned == |Matching(ms, IsAbandoned)|
  {
    CountIsMatchingSize(ms, HasWinner);
    CountIsMatchingSize(ms, IsAbandoned);
    MatchStats(|ms|, Count(ms, HasWinner), Count(ms, IsAbandoned))
  }

  /** The two queries count the same things. */
  lemma StatsAgreeWithGlobalInfo(ms: seq<Match>)
    ensures GetMatchStats(ms).totalMatches == GetGlobalInfo(ms).totalMatches
    ensures GetMatchStats(ms).matchesWon == GetGlobalInfo(ms).totalWins
    ensures GetMatchStats(ms).matchesAbandoned == GetGlobalInfo(ms).totalLosses
  {
  }

  /** On an empty table every figure is zero. */
  lemma GlobalInfoOfEmpty()
    ensures GetGlobalInfo([]) == GlobalInfo(0, 0, 0, 0.0)
  {
  }

  /** One match with a winner, one abandoned, one in progress. */
  lemma GlobalInfoScenario()
    ensures GetGlobalInfo([Match(1, Finished, Some(1)), Match(2, Abandoned, None), Match(3, InProgress, None)])
         == GlobalInfo(1, 1, 3, 100.0 / 3.0)
  {
    var ms := [Match(1, Finished, Some(1)), Match(2, Abandoned, None), Match(3, InProgress, None)];
    CountOfThree(ms[0], ms[1], ms[2], HasWinner);
    CountOfThree(ms[0], ms[1], ms[2], IsAbandoned);
  }

  // ---------------------------------------------------------------------------
  // Strongest and weakest hand

  function IsOutcome(o: Outcome): Round -> bool
  {
    (rd: Round) => rd.outcome == o
  }

  function IsOutcomeWith(o: Outcome, m: Move): Round -> bool
  {
    (rd: Round) => rd.outcome == o && rd.move == m
  }

  /** Raised by the hand queries when no round has the outcome asked for: the
      grouped query returns no row and the code indexes the missing row. */
  datatype StatsError = NoRows

  /** A move and its share, in percent, of the rounds with a given outcome. */
  datatype HandStat = HandStat(move: Move, percentage: real)

  /** `h` names a move that occurs most often among the rounds with outcome `o`,
      with its share of those rounds. Any maximal move qualifies: the grouped
      query does not fix an order among equal counts. */
  predicate DescribesTopMove(rs: seq<Round>, o: Outcome, h: HandStat)
  {
    var total := Count(rs, IsOutcome(o));
    var c := Count(rs, IsOutcomeWith(o, h.move));
    && c > 0
    && (forall m: Move :: Count(rs, IsOutcomeWith(o, m)) <= c)
    && total > 0
    && h.percentage == Percent(c, total)
  }

  /** The rounds with outcome `o` split by move. */
  lemma {:induction false} CountSplitsByMove(rs: seq<Round>, o: Outcome)
    ensures Count(rs, IsOutcome(o))
         == Count(rs, IsOutcomeWith(o, Rock)) + Count(rs, IsOutcomeWith(o, Paper)) + Count(rs, IsOutcomeWith(o, Scissors))
    decreases |rs|
  {
    if |rs| > 0 {
      CountSplitsByMove(rs[..|rs| - 1], o);
    }
  }

  /** The first move, in declaration order, whose count no other move exceeds
      is maximal. */
  lemma FirstMaximumIsMaximal(rs: seq<Round>, o: Outcome, best: Move)
    requires var c0, c1, c2 := Count(rs, IsOutcomeWith(o, Rock)), Count(rs, IsOutcomeWith(o, Paper)), Count(rs, IsOutcomeWith(o, Scissors));
             best == if c0 >= c1 && c0 >= c2 then Rock else if c1 >= c2 then Paper else Scissors
    ensures forall m: Move :: Count(rs, IsOutcomeWith(o, m)) <= Count(rs, IsOutcomeWith(o, best))
  {
    forall m: Move
      ensures Count(rs, IsOutcomeWith(o, m)) <= Count(rs, IsOutcomeWith(o, best))
    {
      match m
      case Rock =>
      case Paper =>
      case Scissors =>
    }
  }

  /** The grouped "most frequent move among rounds with outcome `o`" query. */
  function MostCommonMove(rs: seq<Round>, o: Outcome): (r: Result<HandStat, StatsError>)
    ensures r.Failure? <==> Count(rs, IsOutcome(o)) == 0
    ensures r.Success? ==> DescribesTopMove(rs, o, r.value)
    ensures r.Success? ==> 3 * Count(rs, IsOutcomeWith(o, r.value.move)) >= Count(rs, IsOutcome(o))
  {
    var total := Count(rs, IsOutcome(o));
    if total == 0 then Failure(NoRows)
    else
      var c0 := Count(rs, IsOutcomeWith(o, Rock));
      var c1 := Count(rs, IsOutcomeWith(o, Paper));
      var c2 := Count(rs, IsOutcomeWith(o, Scissors));
      var best := if c0 >= c1 && c0 >= c2 then Rock else if c1 >= c2 then Paper else Scissors;
      var c := Count(rs, IsOutcomeWith(o, best));
      CountSplitsByMove(rs, o);
      FirstMaximumIsMaximal(rs, o, best);
      assert c0 <= c && c1 <= c && c2 <= c;
      assert c <= total;
      Success(HandStat(best, Percent(c, total)))
  }

  /** `obtener_mano_fuerte`: the move that won most often and its share of wins. */
  function StrongestHand(rs: seq<Round>): (r: Result<HandStat, StatsError>)
    ensures r.Failure? <==> forall i :: 0 <= i < |rs| ==> rs[i].outcome != Won
    ensures r.Success? ==> DescribesTopMove(rs, Won, r.value)
  {
    CountZeroIff(rs, IsOutcome(Won));
    MostCommonMove(rs, Won)
  }

  /** `obtener_mano_debil`: the move that lost most often and its share of losses. */
  function WeakestHand(rs: seq<Round>): (r: Result<HandStat, StatsError>)
    ensures r.Failure? <==> forall i :: 0 <= i < |rs| ==> rs[i].outcome != Lost
    ensures r.Success? ==> DescribesTopMove(rs, Lost, r.value)
  {
    CountZeroIff(rs, IsOutcome(Lost));
    MostCommonMove(rs, Lost)
  }

  /** Two rock wins and one paper win: rock, with two thirds of the wins. */
  lemma StrongestHandScenario()
    ensures StrongestHand([Round(1, 1, 1, Rock, Won), Round(2, 1, 1, Rock, Won), Round(3, 1, 1, Paper, Won)])
         == Success(HandStat(Rock, 200.0 / 3.0))
  {
    var rs := [Round(1, 1, 1, Rock, Won), Round(2, 1, 1, Rock, Won), Round(3, 1, 1, Paper, Won)];
    CountOfThree(rs[0], rs[1], rs[2], IsOutcome(Won));
    CountOfThree(rs[0], rs[1], rs[2], IsOutcomeWith(Won, Rock));
    CountOfThree(rs[0], rs[1], rs[2], IsOutcomeWith(Won, Paper));
    CountOfThree(rs[0], rs[1], rs[2], IsOutcomeWith(Won, Scissors));
  }

  /** The hand report the percentage guard evidently intends: when no round has
      the outcome asked for, no move and a share of 0 instead of an error. */
  datatype HandReport = HandReport(move: Option<Move>, percentage: real)

  function HandReportOf(rs: seq<Round>, o: Outcome): (r: HandReport)
    ensures r.move.None? <==> forall i :: 0 <= i < |rs| ==> rs[i].outcome != o
    ensures r.move.None? ==> r.percentage == 0.0
    ensures r.move.Some? ==> DescribesTopMove(rs, o, HandStat(r.move.value, r.percentage))
    ensures 0.0 <= r.percentage <= 100.0
  {
    CountZeroIff(rs, IsOutcome(o));
    match MostCommonMove(rs, o)
    case Failure(_) => HandReport(None, 0.0)
    case Success(h) =>
      assert Count(rs, IsOutcomeWith(o, h.move)) <= Count(rs, IsOutcome(o)) by {
        CountSplitsByMove(rs, o);
      }
      HandReport(Some(h.move), h.percentage)
  }

  /** The strongest hand, reporting an empty selection instead of failing. */
  function StrongestHandReport(rs: seq<Round>): (r: HandReport)
    ensures r.move.None? <==> StrongestHand(rs).Failure?
    ensures r.move.Some? ==> StrongestHand(rs) == Success(HandStat(r.move.value, r.percentage))
    ensures r.move.None? ==> r.percentage == 0.0
  {
    HandReportOf(rs, Won)
  }

  /** The weakest hand, reporting an empty selection instead of failing. */
  function WeakestHandReport(rs: seq<Round>): (r: HandReport)
    ensures r.move.None? <==> WeakestHand(rs).Failure?
    ensures r.move.Some? ==> WeakestHand(rs) == Success(HandStat(r.move.value, r.percentage))
    ensures r.move.None? ==> r.percentage == 0.0
  {
    HandReportOf(rs, Lost)
  }

  /** With one lost round and no won round the strongest-hand query, as written,
      fails where the guard on its percentage meant to answer 0; the corrected
      report answers no move and 0. */
  lemma StrongestHandFailsWithoutWins()
    ensures StrongestHand([Round(1, 1, 1, Rock, Lost)]) == Failure(NoRows)
    ensures StrongestHandReport([Round(1, 1, 1, Rock, Lost)]) == HandReport(None, 0.0)
  {
    var rs := [Round(1, 1, 1, Rock, Lost)];
    assert rs[0].outcome != Won;
  }

  // ---------------------------------------------------------------------------
  // Ranking

  /** Number of players the ranking returns at most. */
  const RankingSize: nat := 3

  predicate SortedByPoints(ps: seq<Player>)
  {
    forall i, j :: 0 <= i < j < |ps| ==> ps[i].points >= ps[j].points
  }

  /** Inserts `p` before the first player with no more points. */
  function InsertByPoints(p: Player, sorted: seq<Player>): (r: seq<Player>)
    requires SortedByPoints(sorted)
    ensures SortedByPoints(r)
    ensures multiset(r) == multiset(sorted) + multiset{p}
    ensures |r| == |sorted| + 1
    ensures r[0] == p || (|sorted| > 0 && r[0] == sorted[0])
  {
    if |sorted| == 0 || p.points >= sorted[0].points then [p] + sorted
    else
      var rest := InsertByPoints(p, sorted[1..]);
      assert sorted == [sorted[0]] + sorted[1..];
      assert rest[0].points <= sorted[0].points;
      [sorted[0]] + rest
  }

  /** Players in non-increasing order of points. */
  function SortByPoints(ps: seq<Player>): (r: seq<Player>)
    ensures SortedByPoints(r)
    ensures multiset(r) == multiset(ps)
    ensures |r| == |ps|
  {
    if |ps| == 0 then []
    else
      assert ps == [ps[0]] + ps[1..];
      InsertByPoints(ps[0], SortByPoints(ps[1..]))
  }

  /** Cutting a sorted sequence after `k` players leaves out only players with
      no more points than the last one kept. */
  lemma SortedPrefixDominates(sorted: seq<Player>, k: nat)
    requires SortedByPoints(sorted) && k <= |sorted|
    ensures SortedByPoints(sorted[..k])
    ensures multiset(sorted[..k]) <= multiset(sorted)
    ensures multiset(sorted) - multiset(sorted[..k]) == multiset(sorted[k..])
    ensures k > 0 ==> forall p :: p in multiset(sorted) - multiset(sorted[..k]) ==> p.points <= sorted[k - 1].points
  {
    assert sorted == sorted[..k] + sorted[k..];
    assert multiset(sorted) == multiset(sorted[..k]) + multiset(sorted[k..]);
    if k > 0 {
      forall p | p in multiset(sorted[k..])
        ensures p.points <= sorted[k - 1].points
      {
        var j :| 0 <= j < |sorted[k..]| && sorted[k..][j] == p;
        assert sorted[k + j] == p;
      }
    }
  }

  /** `obtener_ranking`: the players with the most points, at most three of them. */
  function Ranking(ps: seq<Player>): (r: seq<Player>)
    ensures |r| == if |ps| < RankingSize then |ps| else RankingSize
    ensures SortedByPoints(r)
    ensures multiset(r) <= multiset(ps)
    ensures |r| > 0 ==> forall p :: p in multiset(ps) - multiset(r) ==> p.points <= r[|r| - 1].points
  {
    var sorted := SortByPoints(ps);
    var k := if |ps| < RankingSize then |ps| else RankingSize;
    SortedPrefixDominates(sorted, k);
    sorted[..k]
  }

  // ---------------------------------------------------------------------------
  // Players

  /** Position of the first player called `name`, as `.first()` of the filtered
      query returns. */
  function FindByName(ps: seq<Player>, name: string): (r: Option<nat>)
    ensures r.Some? ==> r.value < |ps| && ps[r.value].name == name
    ensures r.Some? ==> forall j :: 0 <= j < r.value ==> ps[j].name != name
    ensures r.None? ==> forall j :: 0 <= j < |ps| ==> ps[j].name != name
  {
    if |ps| == 0 then None
    else if ps[0].name == name then Some(0)
    else match FindByName(ps[1..], name)
      case None => None
      case Some(k) => Some(k + 1)
  }

  /** A store after a lookup, and the player found or created. */
  datatype Obtained = Obtained(store: Store, player: Player)

  /** `get_or_create`: the first player with this name, or a new one with score 0. */
  function GetOrCreate(s: Store, name: string, kind: PlayerKind): (r: Obtained)
    requires Valid(s)
    ensures Valid(r.store)
    ensures r.store.matches == s.matches && r.store.rounds == s.rounds
    ensures r.player.name == name
    ensures HasPlayer(r.store, r.player.id) && r.store.players[r.player.id - 1] == r.player
    ensures forall j :: 0 <= j < r.player.id - 1 ==> r.store.players[j].name != name
    ensures (exists j :: 0 <= j < |s.players| && s.players[j].name == name) ==> r.store == s
    ensures (forall j :: 0 <= j < |s.players| ==> s.players[j].name != name) ==>
              r.store.players == s.players + [r.player] && r.player == Player(|s.players| + 1, name, kind, 0)
  {
    match FindByName(s.players, name)
    case Some(i) => Obtained(s, s.players[i])
    case None =>
      var created := NewPlayer(name, kind).(id := |s.players| + 1);
      Obtained(s.(players := s.players + [created]), created)
  }

  /** Looking a name up again finds the same player and changes nothing, whatever
      kind the second call asks for. */
  lemma GetOrCreateIsIdempotent(s: Store, name: string, kind: PlayerKind, kind2: PlayerKind)
    requires Valid(s)
    ensures var first := GetOrCreate(s, name, kind);
            GetOrCreate(first.store, name, kind2) == first
  {
    var first := GetOrCreate(s, name, kind);
    var again := GetOrCreate(first.store, name, kind2);
    assert first.store.players[first.player.id - 1].name == name;
    assert again.store == first.store;
    assert again.player.id == first.player.id;
  }
}
