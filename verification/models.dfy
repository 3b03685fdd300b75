/** The three persisted entities (app/models.py) and the in-memory store that
    stands for the relational database: one table per entity, rows in
    insertion order, identities handed out by autoincrement from 1. */
module Models {
  import opened Wrappers
  import opened Schemas

  /** Identity of a record that has not been saved yet (Python's `None` id). */
  const Unsaved: nat := 0

  /** A player (Jugador): the score starts at 0 and only finishing a match
      raises it. */
  datatype Player = Player(id: nat, name: string, kind: PlayerKind, points: nat)

  /** A match (Partida): the winner is an optional reference to a player id. */
  datatype Match = Match(id: nat, status: Status, winnerId: Option<nat>)

  /** A round (Jugada): one match, one player, one move and its outcome from that
      player's point of view. */
  datatype Round = Round(id: nat, matchId: nat, playerId: nat, move: Move, outcome: Outcome)

  /** The database: the players, matches and rounds tables. */
  datatype Store = Store(players: seq<Player>, matches: seq<Match>, rounds: seq<Round>)

  /** A player as built before saving: score defaults to 0. */
  function NewPlayer(name: string, kind: PlayerKind): Player
  {
    Player(Unsaved, name, kind, 0)
  }

  /** A match as built before saving: status defaults to in progress, no winner. */
  function NewMatch(): Match
  {
    Match(Unsaved, InProgress, None)
  }

  function NewRound(matchId: nat, playerId: nat, move: Move, outcome: Outcome): Round
  {
    Round(Unsaved, matchId, playerId, move, outcome)
  }

  lemma NewRecordDefaults(name: string, kind: PlayerKind)
    ensures NewPlayer(name, kind).points == 0
    ensures NewMatch().status == InProgress && NewMatch().winnerId == None
  {
  }

  /** Autoincrement identities with no deletions: row i has id i + 1. */
  predicate PlayerIds(ps: seq<Player>)
  {
    forall i :: 0 <= i < |ps| ==> ps[i].id == i + 1
  }

  predicate MatchIds(ms: seq<Match>)
  {
    forall i :: 0 <= i < |ms| ==> ms[i].id == i + 1
  }

  predicate RoundIds(rs: seq<Round>)
  {
    forall i :: 0 <= i < |rs| ==> rs[i].id == i + 1
  }

  /** Representation invariant of the store. */
  predicate Valid(s: Store)
  {
    PlayerIds(s.players) && MatchIds(s.matches) && RoundIds(s.rounds)
  }

  /** `id` names a stored player. */
  predicate HasPlayer(s: Store, id: nat)
  {
    1 <= id <= |s.players|
  }

  /** `id` names a stored match. */
  predicate HasMatch(s: Store, id: nat)
  {
    1 <= id <= |s.matches|
  }

  /** The rule that a match has a winner exactly when it is finished. The tables
      do not enforce it; the services keep it except when abandoning a finished
      match. */
  predicate WinnerIffFinished(m: Match)
  {
    m.winnerId.Some? <==> m.status == Finished
  }

  predicate AllWinnerIffFinished(s: Store)
  {
    forall i :: 0 <= i < |s.matches| ==> WinnerIffFinished(s.matches[i])
  }
}
