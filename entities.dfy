/** The values a game board is made of: positions and cell contents. */
module Entities {
  /** A cell coordinate: column `x`, row `y`; grids are indexed `[y][x]`. */
  datatype Position = Position(x: int, y: int)

  /** The content of one grid cell. `Unset` is the null slot of a freshly
      allocated `Entity[][]` that nothing has been put into yet. */
  datatype Entity = Unset | Empty | Wall | Player(id: int) | Box(playerId: int)

  /** A Java `char`, a 16-bit code unit. */
  newtype Char16 = c: int | 0 <= c < 0x1_0000

  /** The key of player `id` in the player-position index: `(char)('A' + id)`,
      which keeps the low 16 bits of the sum. */
  function PlayerKey(id: int): (k: Char16)
    ensures 0 <= id < 26 ==> k as int == 'A' as int + id
  {
    ((65 + id) % 0x1_0000) as Char16
  }
}

/** The actions a player can request and what processing one reports. */
module Actions {
  import opened Entities

  datatype Direction = Up | Down | Left | Right

  /** The cell one step away from `p` in direction `d` (`y` grows downwards). */
  function Step(p: Position, d: Direction): (q: Position)
    ensures q != p
    ensures (q.x - p.x) * (q.x - p.x) + (q.y - p.y) * (q.y - p.y) == 1
  {
    match d
    case Up => Position(p.x, p.y - 1)
    case Down => Position(p.x, p.y + 1)
    case Left => Position(p.x - 1, p.y)
    case Right => Position(p.x + 1, p.y)
  }

  /** Two steps in one direction never come back to the start. */
  lemma StepTwiceMovesOn(p: Position, d: Direction)
    ensures Step(Step(p, d), d) != p
  {
  }

  datatype Action =
    | Move(dir: Direction, initiator: int)
    | Undo(initiator: int)
    | Exit(initiator: int)
    | InvalidInput(initiator: int, message: string)

  datatype ActionResult = Success(action: Action) | Failed(action: Action, reason: string)

  // The texts of the three shared messages live in StringResources, which is
  // not part of this model; each constant holds the name it stands for.
  const UndoQuotaRunOut: string := "UNDO_QUOTA_RUN_OUT"
  const PlayerNotFound: string := "PLAYER_NOT_FOUND"
  const InvalidInputMessage: string := "INVALID_INPUT_MESSAGE"

  const HitPlayer: string := "You hit another player."
  const HitWall: string := "You hit a wall"
  const PushBlocked: string := "Failed to push the box."
}
