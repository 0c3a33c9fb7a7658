/** The vocabulary shared by the board and the turn engine: tiles, players,
    the phase of a turn, the game state and the five actions a player issues. */
module Types {

  datatype Option<T> = None | Some(value: T)

  /** The six kinds of board square. */
  datatype TileType = Go | Property | Tax | Jail | GoToJail | Free

  /** A tile's optional, nullable owner: the field may be missing, present
      and null (unowned), or hold the id of the owning player. */
  datatype OwnerField = Absent | NoOwner | OwnedBy(id: int)
  {
    /** A loose comparison with null succeeds for a missing field and for null. */
    predicate IsNullish() { !OwnedBy? }
  }

  /** A board square. Its layout coordinates are left out. */
  datatype Tile = Tile(
    id: int,
    name: string,
    kind: TileType,
    price: Option<int>,
    rent: Option<int>,
    ownerId: OwnerField)

  /** A participant. A missing bot flag reads as false. */
  datatype Player = Player(
    id: int,
    name: string,
    position: int,
    cash: int,
    inJailTurns: int,
    bankrupt: bool,
    color: Option<string>,
    isBot: bool)

  /** The sub-state of a single turn. */
  datatype Phase = Idle | BuyPrompt | End

  /** The last roll shown to the players, or none. */
  datatype Dice = NoDice | Rolled(d1: int, d2: int)

  /** One line of the game log. The rendered text is left out; each entry keeps
      the values its message is formatted from. */
  datatype LogEntry =
    | GameStarted
    | OfferedTile(player: string, tile: string, asking: Option<int>)
    | PaidRent(player: string, amount: int, owner: string, tile: string)
    | PaidTax(player: string)
    | SentToJail(player: string)
    | WentBankrupt(player: string)
    | SkippedMoveInJail(player: string)
    | PassedGo(player: string, amount: int)
    | Bought(player: string, tile: string, price: int)
    | CouldNotBuy(player: string, tile: string)
    | SkippedBuying(player: string)

  /** The aggregate the reducer maps to its successor. The log is newest first. */
  datatype GameState = GameState(
    tiles: seq<Tile>,
    players: seq<Player>,
    currentPlayer: int,
    dice: Dice,
    phase: Phase,
    log: seq<LogEntry>,
    boardSize: int)

  /** The closed set of actions; none carries a payload. */
  datatype Action = Roll | Buy | SkipBuy | EndTurn | Reset
}
