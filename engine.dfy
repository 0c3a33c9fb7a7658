/** The reducer as it is written: copy the incoming state, then change the
    copy step by step through small mutating helpers. Each step is proved to
    agree with the pure rules in module Rules. */
module Engine {
  import opened Types
  import opened Rules

  /** The rotation scan: offsets 1..n after `idx`, the first solvent seat wins,
      `idx` itself when there is none. */
  method FindNextAlive(players: seq<Player>, idx: nat) returns (r: int)
    ensures r == NextAlive(players, idx)
  {
    var n := |players|;
    for i := 1 to n + 1
      invariant ScanAlive(players, idx, i) == NextAlive(players, idx)
    {
      var j := (idx + i) % n;
      if !players[j].bankrupt {
        return j;
      }
    }
    return idx;
  }

  /** The reducer's private working copy of the game state. */
  class Game {
    var tiles: seq<Tile>
    var players: seq<Player>
    var currentPlayer: int
    var dice: Dice
    var phase: Phase
    var log: seq<LogEntry>
    var boardSize: int

    /** The value the copy holds. */
    function State(): GameState
      reads this
    {
      GameState(tiles, players, currentPlayer, dice, phase, log, boardSize)
    }

    /** The copy made before anything is changed. */
    constructor Copy(gs: GameState)
      ensures State() == gs
    {
      tiles, players, currentPlayer, dice := gs.tiles, gs.players, gs.currentPlayer, gs.dice;
      phase, log, boardSize := gs.phase, gs.log, gs.boardSize;
    }

    method Pay(who: nat, amount: int)
      requires who < |players|
      modifies this
      ensures State() == old(State()).(players := old(players)[who := Rules.Pay(old(players)[who], amount)])
    {
      players := players[who := players[who].(cash := players[who].cash - amount)];
    }

    method Credit(who: nat, amount: int)
      requires who < |players|
      modifies this
      ensures State() == old(State()).(players := old(players)[who := Rules.Credit(old(players)[who], amount)])
    {
      players := players[who := players[who].(cash := players[who].cash + amount)];
    }

    method SendToJail(who: nat)
      requires who < |players|
      modifies this
      ensures State() == old(State()).(players := old(players)[who := Rules.SendToJail(old(tiles), old(players)[who])])
    {
      var jailIdx := IndexOfKind(tiles, Jail);
      var p := players[who];
      players := players[who := p.(position := if jailIdx >= 0 then jailIdx else p.position)];
      players := players[who := players[who].(inJailTurns := JailSentence)];
    }

    method Log(e: LogEntry)
      modifies this
      ensures State() == Rules.Log(old(State()), e)
    {
      log := ([e] + log)[..Min(LogLimit, |log| + 1)];
    }

    /** The switch on the landed square's kind. */
    method Land(who: nat, tile: Tile)
      requires who < |players| && OwnerInRange(tile, |players|)
      modifies this
      ensures State() == LandingEffect(old(State()), who, tile)
    {
      match tile.kind {
        case Go =>
        case Property =>
          if tile.ownerId.IsNullish() {
            phase := BuyPrompt;
            Log(OfferedTile(players[who].name, tile.name, tile.price));
          } else if tile.ownerId.id != players[who].id {
            var o := tile.ownerId.id;
            var name, ownerName := players[who].name, players[o].name;
            if !players[o].bankrupt && tile.rent.Some? {
              Pay(who, tile.rent.value);
              Credit(o, tile.rent.value);
              Log(PaidRent(name, tile.rent.value, ownerName, tile.name));
            }
          }
        case Tax =>
          Pay(who, TaxAmount);
          Log(PaidTax(players[who].name));
        case GoToJail =>
          SendToJail(who);
          Log(SentToJail(players[who].name));
        case Jail =>
        case Free =>
      }
    }

    /** The bankruptcy check that follows every landing. */
    method Settle(who: nat)
      requires who < |players|
      modifies this
      ensures State() == SettleDebt(old(State()), who)
    {
      if players[who].cash < 0 {
        players := players[who := players[who].(bankrupt := true)];
        tiles := Release(tiles, players[who].id);
        Log(WentBankrupt(players[who].name));
      }
    }

    method ResolveLanding(who: nat, tile: Tile)
      requires who < |players| && OwnerInRange(tile, |players|)
      modifies this
      ensures State() == Rules.ResolveLanding(old(State()), who, tile)
    {
      Land(who, tile);
      Settle(who);
    }

    /** The ROLL branch, after the guard on a bankrupt current player. */
    method Roll(d1: int, d2: int)
      requires Playable(State()) && IsDie(d1) && IsDie(d2)
      modifies this
      ensures State() == RollDice(old(State()), d1, d2)
    {
      var c := currentPlayer;
      if phase != Idle {
        return;
      }
      if players[c].inJailTurns > 0 {
        players := players[c := players[c].(inJailTurns := players[c].inJailTurns - 1)];
        Log(SkippedMoveInJail(players[c].name));
        phase := End;
        dice := NoDice;
        return;
      }
      dice := Rolled(d1, d2);
      var m := MovePlayer(players[c], d1 + d2, tiles);
      if m.passedGo {
        Credit(c, PassGoAmount);
        Log(PassedGo(players[c].name, PassGoAmount));
      }
      players := players[c := players[c].(position := m.newPos)];
      var tile := tiles[m.newPos];
      ResolveLanding(c, tile);
      if phase == BuyPrompt {
        return;
      }
      phase := End;
    }

    /** The BUY branch, after the guard on a bankrupt current player. */
    method Buy()
      requires Playable(State())
      modifies this
      ensures State() == BuyTile(old(State()))
    {
      var c := currentPlayer;
      if phase != BuyPrompt {
        return;
      }
      var pos := players[c].position;
      var tile := tiles[pos];
      if tile.kind == Property && tile.ownerId.IsNullish() && tile.price.Some? && players[c].cash >= tile.price.value {
        Pay(c, tile.price.value);
        tiles := tiles[pos := tile.(ownerId := OwnedBy(players[c].id))];
        Log(Bought(players[c].name, tile.name, tile.price.value));
      } else {
        Log(CouldNotBuy(players[c].name, tile.name));
      }
      phase := End;
    }
  }

  /** The reducer: `d1` and `d2` stand for the two throws of the random dice,
      `board` for the layout generated on a reset. */
  method Reducer(gs: GameState, action: Action, d1: int, d2: int, board: seq<Tile>) returns (next: GameState)
    requires Playable(gs) && IsDie(d1) && IsDie(d2)
    ensures next == Transition(gs, action, d1, d2, board)
  {
    var g := new Game.Copy(gs);
    var c := g.currentPlayer;
    if g.players[c].bankrupt {
      g.currentPlayer := FindNextAlive(g.players, g.currentPlayer);
      g.phase := Idle;
      g.dice := NoDice;
      return g.State();
    }
    match action {
      case Roll =>
        g.Roll(d1, d2);
        return g.State();
      case Buy =>
        g.Buy();
        return g.State();
      case SkipBuy =>
        if g.phase != BuyPrompt {
          return g.State();
        }
        g.Log(SkippedBuying(g.players[c].name));
        g.phase := End;
        return g.State();
      case EndTurn =>
        g.currentPlayer := FindNextAlive(g.players, g.currentPlayer);
        g.phase := Idle;
        g.dice := NoDice;
        return g.State();
      case Reset =>
        var ps := g.players;
        var names := seq(|ps|, i requires 0 <= i < |ps| => NameOnly(ps[i].name));
        return InitialState(board, names);
    }
  }
}
