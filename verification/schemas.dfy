/** The closed value sets of the game and the response shapes built from them
    (app/schemas.py). Each enumeration's string value is given by its `...Name`
    function. */
module Schemas {
  import opened Wrappers

  /** A hand: piedra, papel or tijera. */
  datatype Move = Rock | Paper | Scissors

  /** Whether a player is a person at the console or the computer. */
  datatype PlayerKind = Human | Machine

  /** Result of one round, from the point of view of the player who made it. */
  datatype Outcome = Won | Lost | Draw

  /** Lifecycle status of a match. */
  datatype Status = InProgress | Finished | Abandoned

  /** Every move, in declaration order. */
  const AllMoves: seq<Move> := [Rock, Paper, Scissors]

  function MoveName(m: Move): string
  {
    match m
    case Rock => "piedra"
    case Paper => "papel"
    case Scissors => "tijera"
  }

  function KindName(k: PlayerKind): string
  {
    match k
    case Human => "humano"
    case Machine => "maquina"
  }

  function OutcomeName(o: Outcome): string
  {
    match o
    case Won => "ganada"
    case Lost => "perdida"
    case Draw => "empate"
  }

  function StatusName(s: Status): string
  {
    match s
    case InProgress => "en curso"
    case Finished => "finalizada"
    case Abandoned => "abandonada"
  }

  /** The move set has exactly three distinct members, all listed in `AllMoves`. */
  lemma MovesAreClosed()
    ensures |AllMoves| == 3
    ensures forall m: Move :: m in AllMoves
    ensures forall i, j :: 0 <= i < j < |AllMoves| ==> AllMoves[i] != AllMoves[j]
  {
    forall m: Move
      ensures m in AllMoves
    {
      match m
      case Rock => assert AllMoves[0] == m;
      case Paper => assert AllMoves[1] == m;
      case Scissors => assert AllMoves[2] == m;
    }
  }

  /** Distinct values of each enumeration are stored as distinct literals, so the
      string form identifies the value. */
  lemma NamesAreInjective()
    ensures forall a: Move, b: Move :: MoveName(a) == MoveName(b) ==> a == b
    ensures forall a: PlayerKind, b: PlayerKind :: KindName(a) == KindName(b) ==> a == b
    ensures forall a: Outcome, b: Outcome :: OutcomeName(a) == OutcomeName(b) ==> a == b
    ensures forall a: Status, b: Status :: StatusName(a) == StatusName(b) ==> a == b
  {
  }

  /** Response shape of a player (JugadorBase). */
  datatype PlayerSummary = PlayerSummary(name: string, kind: PlayerKind)

  /** Response shape of a match (PartidaBase): the winner is optional. */
  datatype MatchSummary = MatchSummary(status: string, winner: Option<PlayerSummary>)

  /** Builds a match summary; the winner defaults to none, as the schema's
      field default does. */
  function NewMatchSummary(status: string, winner: Option<PlayerSummary> := None): MatchSummary
  {
    MatchSummary(status, winner)
  }

  lemma SummaryWithoutWinner(status: string)
    ensures NewMatchSummary(status).winner == None
    ensures NewMatchSummary(status).status == status
  {
  }
}
