/** The console flows (console_game.py): the per-match loop that plays three
    rounds, tallies who won each, and hands the match to a winner. Typed lines,
    interrupts and the machine's random choices are parameters. */
module Console {
  import opened Wrappers
  import opened Seqs
  import opened Schemas
  import opened Models
  import opened Repositories
  import opened Services

  /** Rounds played per match in both modes. */
  const RoundsPerMatch: nat := 3

  const MachineName: string := "Máquina"
  const FirstMachineName: string := "Máquina 1"
  const SecondMachineName: string := "Máquina 2"

  // ---------------------------------------------------------------------------
  // Reading a move

  /** One console event: a line typed at the prompt, or an interrupt. */
  datatype Input = Typed(text: string) | Interrupt

  /** Lower-casing of one character; only ASCII letters change. */
  function LowerChar(c: char): char
  {
    if 'A' <= c <= 'Z' then (c as int + 32) as char else c
  }

  /** Python's `str.lower` restricted to ASCII: each upper-case letter becomes
      the same letter in lower case, no upper-case letter is left, and every
      other character is kept. */
  function Lower(s: string): (r: string)
    ensures |r| == |s|
    ensures forall i :: 0 <= i < |s| && 'A' <= s[i] <= 'Z' ==>
              'a' <= r[i] <= 'z' && r[i] as int - 'a' as int == s[i] as int - 'A' as int
    ensures forall i :: 0 <= i < |r| ==> !('A' <= r[i] <= 'Z')
    ensures forall i :: 0 <= i < |s| && !('A' <= s[i] <= 'Z') ==> r[i] == s[i]
  {
    seq(|s|, i requires 0 <= i < |s| => LowerChar(s[i]))
  }

  /** Lowering twice is lowering once. */
  lemma LowerIsIdempotent(s: string)
    ensures Lower(Lower(s)) == Lower(s)
  {
  }

  /** The move names are already in lower case. */
  lemma LowerKeepsMoveNames(m: Move)
    ensures Lower(MoveName(m)) == MoveName(m)
  {
  }

  /** The `opciones` lookup of a typed line after lower-casing it. */
  function ParseMove(text: string): (r: Option<Move>)
    ensures r.Some? ==> Lower(text) == MoveName(r.value)
    ensures r.None? <==> forall m: Move :: Lower(text) != MoveName(m)
  {
    var key := Lower(text);
    if key == MoveName(Rock) then Some(Rock)
    else if key == MoveName(Paper) then Some(Paper)
    else if key == MoveName(Scissors) then Some(Scissors)
    else None
  }

  /** Upper-casing of one character; only ASCII letters change. */
  function UpperChar(c: char): char
  {
    if 'a' <= c <= 'z' then (c as int - 32) as char else c
  }

  /** `text` spells `word` with each letter in either case. */
  predicate SpelledInAnyCase(text: string, word: string)
  {
    && |text| == |word|
    && forall i :: 0 <= i < |text| ==> text[i] == word[i] || text[i] == UpperChar(word[i])
  }

  /** A move's own name, with each letter in either case ("PIEDRA", "Papel",
      "tiJERA"), reads back as that move. */
  lemma ParseMoveReadsNames(m: Move, text: string)
    requires SpelledInAnyCase(text, MoveName(m))
    ensures ParseMove(text) == Some(m)
  {
    assert Lower(text) == MoveName(m);
  }

  /** What one console event means to the prompt loop: a move, a line to
      ignore, or an interrupt. */
  datatype Reading = Chosen(move: Move) | Ignored | Cancelled

  function Read(input: Input): (r: Reading)
    ensures r.Cancelled? <==> input.Interrupt?
    ensures r.Chosen? <==> input.Typed? && ParseMove(input.text).Some?
    ensures r.Chosen? ==> ParseMove(input.text) == Some(r.move)
  {
    match input
    case Interrupt => Cancelled
    case Typed(text) =>
      match ParseMove(text)
      case Some(m) => Chosen(m)
      case None => Ignored
  }

  /** The reading of every event, in order. */
  function Readings(inputs: seq<Input>): (r: seq<Reading>)
    ensures |r| == |inputs|
    ensures forall i :: 0 <= i < |inputs| ==> (r[i].Cancelled? <==> inputs[i] == Interrupt)
    ensures forall i :: 0 <= i < |inputs| ==> (r[i].Chosen? <==> inputs[i].Typed? && ParseMove(inputs[i].text).Some?)
    ensures forall i :: 0 <= i < |inputs| && r[i].Chosen? ==> ParseMove(inputs[i].text) == Some(r[i].move)
  {
    seq(|inputs|, i requires 0 <= i < |inputs| => Read(inputs[i]))
  }

  /** The moves chosen in the first `k` readings, in order: ignored lines and
      interrupts contribute nothing. */
  function ValidMoves(lines: seq<Reading>, k: nat): (r: seq<Move>)
    requires k <= |lines|
    ensures |r| <= k
  {
    if k == 0 then []
    else ValidMoves(lines, k - 1) + (if lines[k - 1].Chosen? then [lines[k - 1].move] else [])
  }

  /** None of the first `k` readings is an interrupt. */
  predicate NoCancel(lines: seq<Reading>, k: nat)
    requires k <= |lines|
  {
    k == 0 || (NoCancel(lines, k - 1) && !lines[k - 1].Cancelled?)
  }

  // ---------------------------------------------------------------------------
  // Tallies and the winner

  /** Outcomes of the rounds `mine[i]` against `theirs[i]`, from the point of view
      of the side that plays `mine`. */
  function Outcomes(mine: seq<Move>, theirs: seq<Move>): (r: seq<Outcome>)
    requires |mine| <= |theirs|
    ensures |r| == |mine|
    ensures forall i :: 0 <= i < |mine| ==> (r[i] == Draw <==> mine[i] == theirs[i])
    ensures forall i :: 0 <= i < |mine| ==> (r[i] == Won <==> mine[i] == Beater(theirs[i]))
    ensures forall i :: 0 <= i < |mine| ==> (r[i] == Lost <==> theirs[i] == Beater(mine[i]))
  {
    seq(|mine|, i requires 0 <= i < |mine| => ResolveRound(mine[i], theirs[i]))
  }

  predicate IsWin(o: Outcome)
  {
    o == Won
  }

  predicate IsLoss(o: Outcome)
  {
    o == Lost
  }

  /** The side handed the match: the first side when it won strictly more rounds,
      otherwise the second side, ties included. */
  function MatchWinner(firstWins: nat, secondWins: nat, firstId: nat, secondId: nat): nat
  {
    if firstWins > secondWins then firstId else secondId
  }

  /** For two distinct players the first one gets the match exactly when it won
      more rounds; an equal tally goes to the second. */
  lemma MatchWinnerIsFirstIffAhead(firstWins: nat, secondWins: nat, firstId: nat, secondId: nat)
    requires firstId != secondId
    ensures MatchWinner(firstWins, secondWins, firstId, secondId) == firstId <==> firstWins > secondWins
    ensures MatchWinner(firstWins, secondWins, firstId, secondId) == secondId <==> firstWins <= secondWins
  {
  }

  /** The rounds a match gets when `mine[i]` is played against `theirs[i]` for
      each `i`, recorded for `playerId` in match `matchId` with identities
      following `lastId`. */
  function ExpectedRounds(lastId: nat, matchId: nat, playerId: nat, mine: seq<Move>, theirs: seq<Move>): (r: seq<Round>)
    requires |mine| <= |theirs|
    ensures |r| == |mine|
  {
    seq(|mine|, i requires 0 <= i < |mine| =>
      Round(lastId + i + 1, matchId, playerId, mine[i], ResolveRound(mine[i], theirs[i])))
  }

  /** The store after `registrar_jugada` was called once per move of `mine`, in
      order, each against the matching move of `theirs`. */
  function PlayRounds(s: Store, matchId: nat, playerId: nat, mine: seq<Move>, theirs: seq<Move>): (r: Store)
    requires Valid(s) && |mine| <= |theirs|
    ensures Valid(r)
    ensures r.players == s.players && r.matches == s.matches
    ensures r.rounds == s.rounds + ExpectedRounds(|s.rounds|, matchId, playerId, mine, theirs)
    decreases |mine|
  {
    if |mine| == 0 then s
    else
      var n := |mine| - 1;
      var prev := PlayRounds(s, matchId, playerId, mine[..n], theirs);
      assert ExpectedRounds(|s.rounds|, matchId, playerId, mine, theirs)
          == ExpectedRounds(|s.rounds|, matchId, playerId, mine[..n], theirs)
             + [Round(|prev.rounds| + 1, matchId, playerId, mine[n], ResolveRound(mine[n], theirs[n]))];
      RecordRound(prev, matchId, playerId, mine[n], theirs[n]).store
  }

  /** One more move is one more `registrar_jugada`. */
  lemma PlayRoundsStep(s: Store, matchId: nat, playerId: nat, mine: seq<Move>, theirs: seq<Move>, m: Move)
    requires Valid(s) && |mine| < |theirs|
    ensures PlayRounds(s, matchId, playerId, mine + [m], theirs)
         == RecordRound(PlayRounds(s, matchId, playerId, mine, theirs), matchId, playerId, m, theirs[|mine|]).store
  {
    assert (mine + [m])[..|mine|] == mine;
  }

  /** `after` is `before` with one more point for player `winnerId`. */
  predicate Scored(before: seq<Player>, after: seq<Player>, winnerId: nat)
  {
    && 1 <= winnerId <= |before|
    && |after| == |before|
    && after[winnerId - 1] == before[winnerId - 1].(points := before[winnerId - 1].points + 1)
    && forall j :: 0 <= j < |before| && j != winnerId - 1 ==> after[j] == before[j]
  }

  /** Wins and losses among the outcomes never exceed the rounds played. */
  lemma {:induction false} WinsAndLossesWithinRounds(os: seq<Outcome>)
    ensures Count(os, IsWin) + Count(os, IsLoss) <= |os|
    decreases |os|
  {
    if |os| > 0 {
      WinsAndLossesWithinRounds(os[..|os| - 1]);
    }
  }

  /** Playing one more round adds its win or loss to the tallies. */
  lemma TallyExtend(mine: seq<Move>, theirs: seq<Move>, m: Move)
    requires |mine| < |theirs|
    ensures var o := ResolveRound(m, theirs[|mine|]);
            && Count(Outcomes(mine + [m], theirs), IsWin) == Count(Outcomes(mine, theirs), IsWin) + (if o == Won then 1 else 0)
            && Count(Outcomes(mine + [m], theirs), IsLoss) == Count(Outcomes(mine, theirs), IsLoss) + (if o == Lost then 1 else 0)
  {
    var o := ResolveRound(m, theirs[|mine|]);
    assert Outcomes(mine + [m], theirs) == Outcomes(mine, theirs) + [o];
    CountAppendOne(Outcomes(mine, theirs), o, IsWin);
    CountAppendOne(Outcomes(mine, theirs), o, IsLoss);
  }

  /** `cur` is `base` after the rounds `mine` against `theirs` were recorded,
      and `wins` and `losses` count the rounds `mine` won and lost. */
  predicate Played(base: Store, matchId: nat, playerId: nat, mine: seq<Move>, theirs: seq<Move>,
                   cur: Store, wins: nat, losses: nat)
    requires Valid(base) && |mine| <= |theirs|
  {
    && cur == PlayRounds(base, matchId, playerId, mine, theirs)
    && wins == Count(Outcomes(mine, theirs), IsWin)
    && losses == Count(Outcomes(mine, theirs), IsLoss)
  }

  /** One round of either console flow: `registrar_jugada`, then the tally of
      whichever side won it. `mine` are the moves already played in the match,
      so `cur` and the tallies describe exactly those rounds before the call and
      those rounds and `move` after it. */
  method PlayRound(ghost base: Store, ghost mine: seq<Move>, played: nat, cur: Store, matchId: nat, playerId: nat,
                   theirs: seq<Move>, move: Move, wins: nat, losses: nat)
    returns (next: Store, outcome: Outcome, wins': nat, losses': nat)
    requires Valid(base) && played == |mine| < |theirs|
    requires Played(base, matchId, playerId, mine, theirs, cur, wins, losses)
    ensures outcome == ResolveRound(move, theirs[|mine|])
    ensures Played(base, matchId, playerId, mine + [move], theirs, next, wins', losses')
  {
    var rec := RecordRound(cur, matchId, playerId, move, theirs[played]);
    PlayRoundsStep(base, matchId, playerId, mine, theirs, move);
    TallyExtend(mine, theirs, move);
    next, outcome, wins', losses' := rec.store, rec.outcome, wins, losses;
    if outcome == Won {
      wins' := wins + 1;
    } else if outcome == Lost {
      losses' := losses + 1;
    }
  }

  // ---------------------------------------------------------------------------
  // Setting up a session

  /** A store after two `get_or_create` calls, and the two players. */
  datatype Opponents = Opponents(store: Store, first: Player, second: Player)

  /** `after` is the players table `before` once `get_or_create` has found or
      created `first`, asking for kind `firstKind`, and then `second`, asking
      for `secondKind`. Each is the first player with its name; a player is
      created only when its name was absent, with the kind asked for and 0
      points; nothing else is added and the players already stored are kept. */
  predicate Joined(before: seq<Player>, after: seq<Player>, first: Player, firstKind: PlayerKind,
                   second: Player, secondKind: PlayerKind)
  {
    && |before| <= |after| <= |before| + 2 && after[..|before|] == before
    && 1 <= first.id <= |after| && after[first.id - 1] == first
    && 1 <= second.id <= |after| && after[second.id - 1] == second
    && (forall j :: 0 <= j < first.id - 1 ==> after[j].name != first.name)
    && (forall j :: 0 <= j < second.id - 1 ==> after[j].name != second.name)
    && (first.id > |before| ==> first == Player(first.id, first.name, firstKind, 0))
    && (second.id > |before| && second.id != first.id ==> second == Player(second.id, second.name, secondKind, 0))
    && (forall j :: |before| <= j < |after| ==> after[j] == first || after[j] == second)
    && (first.id > |before| && second.id > |before| ==> first.id <= second.id)
  }

  /** `o` is `s` after the two lookups of `Joined` for `firstName` and
      `secondName`; matches and rounds are untouched. */
  predicate Met(s: Store, firstName: string, firstKind: PlayerKind, secondName: string, secondKind: PlayerKind,
                o: Opponents)
  {
    && Valid(o.store)
    && o.store.matches == s.matches && o.store.rounds == s.rounds
    && Joined(s.players, o.store.players, o.first, firstKind, o.second, secondKind)
    && o.first.name == firstName && o.second.name == secondName
  }

  /** `after` is the players table `before` once `get_or_create` has found or
      created `p`, asking for kind `kind`. */
  predicate Obtains(before: seq<Player>, after: seq<Player>, p: Player, kind: PlayerKind)
  {
    && |before| <= |after| && after[..|before|] == before
    && 1 <= p.id <= |after| && after[p.id - 1] == p
    && (forall j :: 0 <= j < p.id - 1 ==> after[j].name != p.name)
    && (p.id <= |before| ==> after == before)
    && (p.id > |before| ==> after == before + [p] && p == Player(p.id, p.name, kind, 0))
  }

  /** One `get_or_create` is an `Obtains` step. */
  lemma GetOrCreateObtains(s: Store, name: string, kind: PlayerKind)
    requires Valid(s)
    ensures var r := GetOrCreate(s, name, kind);
            Obtains(s.players, r.store.players, r.player, kind)
  {
    var r := GetOrCreate(s, name, kind);
    if r.player.id <= |s.players| {
      assert s.players[r.player.id - 1].name == name;
    }
    assert r.store.players[..|s.players|] == s.players;
  }

  /** Two `Obtains` steps in a row make a `Joined` table. */
  lemma ObtainsTwice(before: seq<Player>, mid: seq<Player>, after: seq<Player>,
                     first: Player, firstKind: PlayerKind, second: Player, secondKind: PlayerKind)
    requires PlayerIds(after)
    requires Obtains(before, mid, first, firstKind) && Obtains(mid, after, second, secondKind)
    ensures Joined(before, after, first, firstKind, second, secondKind)
  {
    assert after[..|mid|] == mid;
    assert after[..|before|] == before;
  }

  /** The two `get_or_create` calls that open either console flow. */
  method GetOpponents(s: Store, firstName: string, firstKind: PlayerKind,
                      secondName: string, secondKind: PlayerKind) returns (o: Opponents)
    requires Valid(s)
    ensures Met(s, firstName, firstKind, secondName, secondKind, o)
    ensures firstName != secondName ==> o.first.id != o.second.id
    ensures (exists j :: 0 <= j < |s.players| && s.players[j].name == firstName)
         && (exists j :: 0 <= j < |s.players| && s.players[j].name == secondName)
         ==> o.store == s
  {
    var a := GetOrCreate(s, firstName, firstKind);
    var b := GetOrCreate(a.store, secondName, secondKind);
    GetOrCreateObtains(s, firstName, firstKind);
    GetOrCreateObtains(a.store, secondName, secondKind);
    ObtainsTwice(s.players, a.store.players, b.store.players, a.player, firstKind, b.player, secondKind);
    o := Opponents(b.store, a.player, b.player);
  }

  /** The human session before its first round: the human and the machine
      player, and a freshly started match. */
  datatype Session = Session(store: Store, human: Player, machine: Player, matchId: nat)

  /** `ses` is `s` after the lookups of `Joined` for the human `name` and the
      machine player, and after starting one in-progress match without a
      winner. */
  predicate SessionOpened(s: Store, name: string, ses: Session)
  {
    && Valid(ses.store)
    && Joined(s.players, ses.store.players, ses.human, Human, ses.machine, Machine)
    && ses.human.name == name && ses.machine.name == MachineName
    && ses.matchId == |s.matches| + 1
    && ses.store.matches == s.matches + [Match(ses.matchId, InProgress, None)]
    && ses.store.rounds == s.rounds
  }

  /** The start of the human flow: both players, then `iniciar_partida`. */
  method OpenHumanSession(s: Store, name: string) returns (ses: Session)
    requires Valid(s)
    ensures SessionOpened(s, name, ses)
    ensures name != MachineName ==> ses.human.id != ses.machine.id
    ensures (exists j :: 0 <= j < |s.players| && s.players[j].name == name)
         && (exists j :: 0 <= j < |s.players| && s.players[j].name == MachineName)
         ==> ses.store.players == s.players
  {
    var o := GetOpponents(s, name, Human, MachineName, Machine);
    var st := StartMatch(o.store);
    ses := Session(st.store, o.first, o.second, st.started.id);
  }

  // ---------------------------------------------------------------------------
  // Human against machine

  /** How a human session ended: three rounds played and the match finished, an
      interrupt that abandoned it, or no more input (the match stays in
      progress). */
  datatype SessionEnd = Completed | Interrupted | InputExhausted

  /** How the prompt loop left the lines: `consumed` of them were taken, at
      most three of those name a move, and `end` says why the loop stopped. It
      completed exactly when three moves were chosen, the last line taken being
      the third; otherwise it stopped at an interrupt, the last line taken, or
      at the end of the input. No line before the last one taken is an
      interrupt. */
  predicate PromptEnded(lines: seq<Reading>, consumed: nat, end: SessionEnd)
  {
    && consumed <= |lines|
    && |ValidMoves(lines, consumed)| <= RoundsPerMatch
    && (end == Completed <==> |ValidMoves(lines, consumed)| == RoundsPerMatch)
    && (end != Interrupted ==> NoCancel(lines, consumed))
    && (end == Interrupted ==> consumed > 0 && lines[consumed - 1].Cancelled? && NoCancel(lines, consumed - 1))
    && (end == InputExhausted ==> consumed == |lines|)
    && (end == Completed ==> consumed > 0 && lines[consumed - 1].Chosen?)
  }

  /** The prompt loop of the human flow, inside its `try`: reads lines until
      three moves were played, an interrupt arrives or the input runs out. Lines
      that do not name a move are skipped without recording a round; each valid
      line is played against the next machine move. */
  method HumanRounds(ses: Session, lines: seq<Reading>, machineMoves: seq<Move>)
    returns (cur: Store, end: SessionEnd, consumed: nat, humanWins: nat, machineWins: nat)
    requires Valid(ses.store)
    requires |machineMoves| >= RoundsPerMatch
    ensures PromptEnded(lines, consumed, end)
    ensures Played(ses.store, ses.matchId, ses.human.id, ValidMoves(lines, consumed), machineMoves, cur, humanWins, machineWins)
  {
    cur := ses.store;
    ghost var mine: seq<Move> := [];
    var played := 0;
    consumed, humanWins, machineWins := 0, 0, 0;
    while true
      invariant consumed <= |lines|
      invariant NoCancel(lines, consumed)
      invariant mine == ValidMoves(lines, consumed)
      invariant played == |mine| < RoundsPerMatch
      invariant Played(ses.store, ses.matchId, ses.human.id, mine, machineMoves, cur, humanWins, machineWins)
      decreases RoundsPerMatch - played, |lines| - consumed
    {
      if consumed == |lines| {
        end := InputExhausted;
        return;
      }
      var line := lines[consumed];
      consumed := consumed + 1;
      match line
      case Cancelled =>
        assert ValidMoves(lines, consumed) == mine;
        end := Interrupted;
        return;
      case Ignored =>
        assert ValidMoves(lines, consumed) == mine;
      case Chosen(move) =>
        var outcome;
        cur, outcome, humanWins, machineWins :=
          PlayRound(ses.store, mine, played, cur, ses.matchId, ses.human.id, machineMoves, move, humanWins, machineWins);
        mine := mine + [move];
        played := played + 1;
        if played == RoundsPerMatch {
          end := Completed;
          return;
        }
    }
  }

  /** `jugar_partida_humano_vs_maquina`: opens the session, runs the prompt
      loop, then finishes the match after three rounds or abandons it on an
      interrupt. When the input runs out the match stays in progress. */
  method PlayHumanVsMachine(s: Store, name: string, inputs: seq<Input>, machineMoves: seq<Move>)
    returns (ses: Session, r: Store, end: SessionEnd, consumed: nat, humanWins: nat, machineWins: nat)
    requires Valid(s)
    requires |machineMoves| >= RoundsPerMatch
    ensures SessionOpened(s, name, ses)
    ensures Valid(r)
    ensures consumed <= |inputs|
    ensures var mine := ValidMoves(Readings(inputs), consumed);
            && |mine| <= RoundsPerMatch
            && (end == Completed <==> |mine| == RoundsPerMatch)
            && r.rounds == ses.store.rounds + ExpectedRounds(|ses.store.rounds|, ses.matchId, ses.human.id, mine, machineMoves)
            && humanWins == Count(Outcomes(mine, machineMoves), IsWin)
            && machineWins == Count(Outcomes(mine, machineMoves), IsLoss)
            && humanWins + machineWins <= |mine|
    ensures humanWins + machineWins <= RoundsPerMatch
    ensures end != Interrupted ==> NoCancel(Readings(inputs), consumed)
    ensures end == Completed ==>
              var winner := MatchWinner(humanWins, machineWins, ses.human.id, ses.machine.id);
              && r.matches == ses.store.matches[ses.matchId - 1 := Match(ses.matchId, Finished, Some(winner))]
              && Scored(ses.store.players, r.players, winner)
    ensures end == Interrupted ==>
              && consumed > 0 && inputs[consumed - 1] == Interrupt && NoCancel(Readings(inputs), consumed - 1)
              && r.matches == ses.store.matches[ses.matchId - 1 := Match(ses.matchId, Abandoned, None)]
              && r.players == ses.store.players
    ensures end == Completed ==> consumed > 0 && inputs[consumed - 1].Typed? && ParseMove(inputs[consumed - 1].text).Some?
    ensures end == InputExhausted ==>
              && consumed == |inputs|
              && r.matches == ses.store.matches
              && r.players == ses.store.players
  {
    ses := OpenHumanSession(s, name);
    var cur;
    cur, end, consumed, humanWins, machineWins := HumanRounds(ses, Readings(inputs), machineMoves);
    ghost var mine := ValidMoves(Readings(inputs), consumed);
    WinsAndLossesWithinRounds(Outcomes(mine, machineMoves));
    if end == Completed {
      var winner := MatchWinner(humanWins, machineWins, ses.human.id, ses.machine.id);
      r := FinishMatch(cur, ses.matchId, winner);
    } else if end == Interrupted {
      AbandonRewritesOneRow(cur, ses.matchId);
      r := AbandonMatch(cur, ses.matchId);
    } else {
      r := cur;
    }
  }

  // ---------------------------------------------------------------------------
  // Machine against machine

  /** One match of the batch: start it, play three rounds from the first
      machine's point of view, and finish it. */
  method PlayMachineMatch(s: Store, first: nat, second: nat, moves1: seq<Move>, moves2: seq<Move>)
    returns (r: Store, matchId: nat, firstWins: nat, secondWins: nat)
    requires Valid(s) && HasPlayer(s, first) && HasPlayer(s, second)
    requires |moves1| == RoundsPerMatch && |moves2| == RoundsPerMatch
    ensures Valid(r)
    ensures matchId == |s.matches| + 1
    ensures firstWins == Count(Outcomes(moves1, moves2), IsWin)
    ensures secondWins == Count(Outcomes(moves1, moves2), IsLoss)
    ensures firstWins + secondWins <= RoundsPerMatch
    ensures r.matches == s.matches + [Match(matchId, Finished, Some(MatchWinner(firstWins, secondWins, first, second)))]
    ensures Scored(s.players, r.players, MatchWinner(firstWins, secondWins, first, second))
    ensures r.rounds == s.rounds + ExpectedRounds(|s.rounds|, matchId, first, moves1, moves2)
  {
    var st := StartMatch(s);
    matchId := st.started.id;
    var cur := st.store;
    var played := 0;
    firstWins, secondWins := 0, 0;
    while played < RoundsPerMatch
      invariant played <= RoundsPerMatch
      invariant Played(st.store, matchId, first, moves1[..played], moves2, cur, firstWins, secondWins)
    {
      PrefixGrows(moves1, played);
      var outcome;
      cur, outcome, firstWins, secondWins :=
        PlayRound(st.store, moves1[..played], played, cur, matchId, first, moves2, moves1[played], firstWins, secondWins);
      played := played + 1;
    }
    assert moves1[..played] == moves1;
    WinsAndLossesWithinRounds(Outcomes(moves1, moves2));
    var winner := MatchWinner(firstWins, secondWins, first, second);
    UpdateLast(s.matches, st.started, Match(matchId, Finished, Some(winner)));
    r := FinishMatch(cur, matchId, winner);
  }

  /** The moves both machines use in match `k` of a batch. */
  function MatchMoves(moves: seq<Move>, k: nat): (r: seq<Move>)
    requires RoundsPerMatch * (k + 1) <= |moves|
    ensures |r| == RoundsPerMatch
  {
    moves[RoundsPerMatch * k .. RoundsPerMatch * (k + 1)]
  }

  /** Winner of match `k` of a batch between players `first` and `second`. */
  function BatchWinner(moves1: seq<Move>, moves2: seq<Move>, k: nat, first: nat, second: nat): nat
    requires RoundsPerMatch * (k + 1) <= |moves1| && RoundsPerMatch * (k + 1) <= |moves2|
  {
    var os := Outcomes(MatchMoves(moves1, k), MatchMoves(moves2, k));
    MatchWinner(Count(os, IsWin), Count(os, IsLoss), first, second)
  }

  function IsId(id: nat): nat -> bool
  {
    (w: nat) => w == id
  }

  /** After `k` matches of a batch that started from `o`: the matches appended
      so far are finished with the winners computed from their moves, and three
      rounds each were recorded after the rounds already stored, which are
      kept. */
  predicate BatchMatches(o: Opponents, moves1: seq<Move>, moves2: seq<Move>, k: nat, cur: Store, winners: seq<nat>)
    requires RoundsPerMatch * k <= |moves1| && RoundsPerMatch * k <= |moves2|
  {
    var base := o.store;
    && |winners| == k
    && Valid(cur)
    && |cur.matches| == |base.matches| + k && cur.matches[..|base.matches|] == base.matches
    && (forall j :: 0 <= j < k ==>
          cur.matches[|base.matches| + j] == Match(|base.matches| + j + 1, Finished, Some(winners[j])))
    && (forall j :: 0 <= j < k ==> winners[j] == BatchWinner(moves1, moves2, j, o.first.id, o.second.id))
    && |cur.rounds| == |base.rounds| + RoundsPerMatch * k && cur.rounds[..|base.rounds|] == base.rounds
  }

  /** Every win of the batch so far gave its machine one point, and no other
      player changed. */
  predicate BatchPoints(o: Opponents, cur: Store, winners: seq<nat>)
    requires HasPlayer(o.store, o.first.id) && HasPlayer(o.store, o.second.id)
  {
    var base := o.store;
    && |cur.players| == |base.players|
    && cur.players[o.first.id - 1] == o.first.(points := o.first.points + Count(winners, IsId(o.first.id)))
    && cur.players[o.second.id - 1] == o.second.(points := o.second.points + Count(winners, IsId(o.second.id)))
    && (forall j :: 0 <= j < |base.players| && j != o.first.id - 1 && j != o.second.id - 1 ==>
          cur.players[j] == base.players[j])
  }

  /** One more finished match, won by `w`, extends the batch's matches. */
  lemma BatchMatchesStep(o: Opponents, moves1: seq<Move>, moves2: seq<Move>, k: nat, cur: Store, winners: seq<nat>,
                         next: Store, w: nat)
    requires RoundsPerMatch * (k + 1) <= |moves1| && RoundsPerMatch * (k + 1) <= |moves2|
    requires BatchMatches(o, moves1, moves2, k, cur, winners)
    requires Valid(next)
    requires next.matches == cur.matches + [Match(|cur.matches| + 1, Finished, Some(w))]
    requires |next.rounds| == |cur.rounds| + RoundsPerMatch && next.rounds[..|cur.rounds|] == cur.rounds
    requires w == BatchWinner(moves1, moves2, k, o.first.id, o.second.id)
    ensures BatchMatches(o, moves1, moves2, k + 1, next, winners + [w])
  {
    assert next.matches[..|o.store.matches|] == cur.matches[..|o.store.matches|];
    assert next.rounds[..|o.store.rounds|] == cur.rounds[..|o.store.rounds|];
  }

  /** A point for the winner `w` of one more match extends the batch's points. */
  lemma BatchPointsStep(o: Opponents, cur: Store, winners: seq<nat>, next: Store, w: nat)
    requires HasPlayer(o.store, o.first.id) && HasPlayer(o.store, o.second.id)
    requires o.store.players[o.first.id - 1] == o.first && o.store.players[o.second.id - 1] == o.second
    requires o.first.id != o.second.id
    requires w == o.first.id || w == o.second.id
    requires BatchPoints(o, cur, winners)
    requires Scored(cur.players, next.players, w)
    ensures BatchPoints(o, next, winners + [w])
  {
    CountAppendOne(winners, w, IsId(o.first.id));
    CountAppendOne(winners, w, IsId(o.second.id));
  }

  /** Number of values Python's `range(n)` yields: none for a negative `n`. */
  function RangeLength(n: int): nat
  {
    if n < 0 then 0 else n
  }

  /** `jugar_partida_maquina_vs_maquina`: `range(n)` matches between "Máquina 1"
      and "Máquina 2", each started, played for three rounds and finished with
      one winner. The count comes from the command line unchecked, so a
      negative `n` plays no match after the two lookups. */
  method PlayMachineVsMachine(s: Store, n: int, moves1: seq<Move>, moves2: seq<Move>)
    returns (o: Opponents, r: Store, winners: seq<nat>)
    requires Valid(s)
    requires RoundsPerMatch * RangeLength(n) <= |moves1| && RoundsPerMatch * RangeLength(n) <= |moves2|
    ensures Met(s, FirstMachineName, Machine, SecondMachineName, Machine, o) && o.first.id != o.second.id
    ensures BatchMatches(o, moves1, moves2, RangeLength(n), r, winners)
    ensures BatchPoints(o, r, winners)
  {
    o := GetOpponents(s, FirstMachineName, Machine, SecondMachineName, Machine);
    var m1, m2 := o.first.id, o.second.id;
    var cur := o.store;
    winners := [];
    var count := RangeLength(n);
    var k := 0;
    while k < count
      invariant k <= count
      invariant BatchMatches(o, moves1, moves2, k, cur, winners)
      invariant BatchPoints(o, cur, winners)
    {
      var mv1, mv2 := MatchMoves(moves1, k), MatchMoves(moves2, k);
      var next, matchId, wins1, wins2 := PlayMachineMatch(cur, m1, m2, mv1, mv2);
      var w := MatchWinner(wins1, wins2, m1, m2);
      BatchMatchesStep(o, moves1, moves2, k, cur, winners, next, w);
      BatchPointsStep(o, cur, winners, next, w);
      cur := next;
      winners := winners + [w];
      k := k + 1;
    }
    r := cur;
  }
}
