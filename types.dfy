/** Value types shared by the pieces, the decision functions and the board. */
module GameTypes {

  /** Starting energy of an agent placed by population (Game::STARTING_AGENT_ENERGY). */
  const StartingAgentEnergy: real := 20.0
  /** Declared capacity of a resource placed by population (Game::STARTING_RESOURCE_CAPACITY). */
  const StartingResourceCapacity: real := 10.0

  /** A cell coordinate: row, then column, both counted from 0. */
  datatype Position = Position(row: nat, col: nat)

  /** What an observer can see in one of the nine cells around it. */
  datatype PieceType = Empty | Self | Inaccessible | Simple | Strategic | Food | Advantage

  /** The nine moves: the eight directions and staying put. */
  datatype ActionType = NW | N | NE | W | Stay | E | SW | S | SE

  /** The 3×3 block of cell types around an observer, row-major (a fixed-size array of 9). */
  type Surroundings = s: seq<PieceType> | |s| == 9
    witness [Empty, Empty, Empty, Empty, Self, Empty, Empty, Empty, Empty]

  /** Game status. */
  datatype Status = NotStarted | Playing | Over

  /** The switch every decision function ends with: a row-major cell index
      becomes the move toward that cell; any other index becomes Stay. */
  function ActionOf(i: int): ActionType
  {
    match i
    case 0 => NW
    case 1 => N
    case 2 => NE
    case 3 => W
    case 4 => Stay
    case 5 => E
    case 6 => SW
    case 7 => S
    case 8 => SE
    case _ => Stay
  }

  /** The cell a move points to: the inverse of the switch. */
  function IndexOf(a: ActionType): (i: nat)
    ensures i < 9 && ActionOf(i) == a
  {
    match a
    case NW => 0
    case N => 1
    case NE => 2
    case W => 3
    case Stay => 4
    case E => 5
    case SW => 6
    case S => 7
    case SE => 8
  }

  /** The switch is one-to-one on the nine cell indices. */
  lemma ActionOfIsInjective(i: int)
    requires 0 <= i < 9
    ensures IndexOf(ActionOf(i)) == i
  {
  }
}
