/** The rules of the turn engine as pure functions.

    The reducer starts by copying the state it is given and only ever mutates
    that copy, so what a caller observes is a function of the old state, the
    action and two values from outside the engine: the two dice and, for a
    reset, the board the layout generator produces. Those are parameters here.
    The imperative reducer in module Engine is proved to compute `Transition`. */
module Rules {
  import opened Types

  const StartCash := 1500
  const PassGoAmount := 200
  const TaxAmount := 100
  const LogLimit := 50
  const DefaultBoardSize := 6
  /** Turns a jailed player sits out; the engine sets exactly one. */
  const JailSentence := 1

  /** A value the dice source can produce. */
  predicate IsDie(d: int) { 1 <= d <= 6 }

  function Min(a: int, b: int): int { if a <= b then a else b }

  // ----- arithmetic -----

  /** Euclidean remainders are unique. */
  lemma ModUnique(a: int, n: int, q: int, r: int)
    requires n > 0 && a == q * n + r && 0 <= r < n
    ensures a % n == r
  {
    var q', r' := a / n, a % n;
    assert a == q' * n + r';
    assert (q - q') * n == r' - r;
    MulSign(q - q', n);
  }

  /** A nonzero multiple of `n` is at least `n` away from zero. */
  lemma MulSign(x: int, n: int)
    requires n > 0
    ensures x >= 1 ==> x * n >= n
    ensures x <= -1 ==> x * n <= -n
  {
    if x >= 1 {
      MulAtLeast(x, n);
    } else if x <= -1 {
      MulAtLeast(-x, n);
      assert (-x) * n == -(x * n);
    }
  }

  lemma MulAtLeast(x: int, n: int)
    requires x >= 1 && n > 0
    ensures x * n >= n
  {
  }

  // ----- turn rotation -----

  /** The seat `k` places after `idx` round a table of `n`. */
  function Seat(idx: int, k: int, n: int): int
    requires n > 0
  {
    (idx + k) % n
  }

  /** `k` is the smallest offset in `i..|players|` whose seat holds a solvent player. */
  ghost predicate FirstSolventAt(players: seq<Player>, idx: nat, i: nat, k: int)
  {
    && 1 <= i <= k <= |players|
    && !players[Seat(idx, k, |players|)].bankrupt
    && forall m :: i <= m < k ==> players[Seat(idx, m, |players|)].bankrupt
  }

  /** The scan of offsets `i, i+1, ..., |players|` after `idx`. */
  function ScanAlive(players: seq<Player>, idx: nat, i: nat): (r: int)
    requires 1 <= i
    decreases |players| + 1 - i
    ensures r == idx || 0 <= r < |players|
    ensures (forall k :: i <= k <= |players| ==> players[Seat(idx, k, |players|)].bankrupt) ==> r == idx
    ensures (exists k :: i <= k <= |players| && !players[Seat(idx, k, |players|)].bankrupt) ==>
              exists k :: FirstSolventAt(players, idx, i, k) && r == Seat(idx, k, |players|)
  {
    if i > |players| then idx
    else if !players[Seat(idx, i, |players|)].bankrupt then Seat(idx, i, |players|)
    else ScanAlive(players, idx, i + 1)
  }

  /** Every player index is the seat of some offset `1..n` after `idx`. */
  lemma {:induction false} SeatCovers(idx: nat, j: int, n: int)
    requires 0 <= j < n
    ensures exists k :: 1 <= k <= n && Seat(idx, k, n) == j
  {
    var q, r := (j - idx) / n, (j - idx) % n;
    assert j - idx == q * n + r;
    if r == 0 {
      ModUnique(idx + n, n, 1 - q, j);
      assert Seat(idx, n, n) == j;
    } else {
      ModUnique(idx + r, n, -q, j);
      assert Seat(idx, r, n) == j;
    }
  }

  /** The next solvent player after `idx`, scanning round the table and
      ending at `idx` itself; `idx` when every player is bankrupt. */
  function NextAlive(players: seq<Player>, idx: nat): (r: int)
    ensures idx < |players| ==> 0 <= r < |players|
    ensures (forall j :: 0 <= j < |players| ==> players[j].bankrupt) ==> r == idx
    ensures (exists j :: 0 <= j < |players| && !players[j].bankrupt) ==>
              && 0 <= r < |players| && !players[r].bankrupt
              && exists k :: FirstSolventAt(players, idx, 1, k) && r == Seat(idx, k, |players|)
  {
    SolventSeat(players, idx);
    ScanAlive(players, idx, 1)
  }

  /** A solvent player sits at some offset `1..n` after `idx`. */
  lemma SolventSeat(players: seq<Player>, idx: nat)
    ensures (exists j :: 0 <= j < |players| && !players[j].bankrupt) ==>
              exists k :: 1 <= k <= |players| && !players[Seat(idx, k, |players|)].bankrupt
  {
    if j :| 0 <= j < |players| && !players[j].bankrupt {
      SeatCovers(idx, j, |players|);
    }
  }

  // ----- movement -----

  /** The remainder of JavaScript's `%`: it takes the sign of the dividend. */
  function JsRem(a: int, b: int): (r: int)
    requires b > 0
    ensures -b < r < b
    ensures a >= 0 ==> r == a % b
    ensures a < 0 ==> r <= 0
    ensures (a - r) % b == 0
  {
    if a >= 0 then
      ModUnique(a - a % b, b, a / b, 0);
      a % b
    else
      var r := -((-a) % b);
      ModUnique(a - r, b, -((-a) / b), 0);
      r
  }

  /** The remainder JavaScript defines is the only one with the dividend's
      sign, a magnitude below the divisor and a multiple of the divisor as
      the difference from the dividend. */
  lemma JsRemUnique(a: int, b: int, r: int)
    requires b > 0 && -b < r < b && (a - r) % b == 0
    requires a >= 0 ==> r >= 0
    requires a < 0 ==> r <= 0
    ensures r == JsRem(a, b)
  {
    var s := JsRem(a, b);
    var q, q' := (a - r) / b, (a - s) / b;
    assert a - r == q * b;
    assert a - s == q' * b;
    assert s - r == (q - q') * b;
    MulSign(q - q', b);
  }

  datatype Move = Move(newPos: int, passedGo: bool)

  /** Moving `steps` squares forward from the player's square on a ring of
      `|tiles|` squares. */
  function MovePlayer(p: Player, steps: int, tiles: seq<Tile>): (m: Move)
    requires |tiles| > 0
    ensures m.passedGo <==> p.position + steps >= |tiles|
    ensures -|tiles| < m.newPos < |tiles| && (p.position + steps - m.newPos) % |tiles| == 0
    ensures 0 <= p.position + steps ==> 0 <= m.newPos
  {
    var raw := p.position + steps;
    Move(JsRem(raw, |tiles|), raw >= |tiles|)
  }

  // ----- money, jail, log -----

  /** Paying takes the amount from the player's cash and nothing else;
      crediting the same amount undoes it. */
  function Pay(p: Player, amount: int): (r: Player)
    ensures r.cash == p.cash - amount
    ensures Credit(r, amount) == p
  {
    p.(cash := p.cash - amount)
  }

  /** Crediting adds the amount to the player's cash and changes nothing else. */
  function Credit(p: Player, amount: int): (r: Player)
    ensures r.cash == p.cash + amount
    ensures r.(cash := p.cash) == p
  {
    p.(cash := p.cash + amount)
  }

  /** The first index of a tile of the given kind, or -1 when there is none. */
  function IndexOfKind(tiles: seq<Tile>, kind: TileType): (r: int)
    ensures -1 <= r < |tiles|
    ensures r == -1 <==> forall i :: 0 <= i < |tiles| ==> tiles[i].kind != kind
    ensures r >= 0 ==> tiles[r].kind == kind && forall i :: 0 <= i < r ==> tiles[i].kind != kind
  {
    if |tiles| == 0 then -1
    else if tiles[0].kind == kind then 0
    else
      var r := IndexOfKind(tiles[1..], kind);
      if r == -1 then -1 else r + 1
  }

  /** The player moved to the jail square (kept in place when the board has
      none) and given a sentence. */
  function SendToJail(tiles: seq<Tile>, p: Player): (r: Player)
    ensures r == p.(position := r.position, inJailTurns := JailSentence)
    ensures (exists i :: 0 <= i < |tiles| && tiles[i].kind == Jail) ==>
      && 0 <= r.position < |tiles| && tiles[r.position].kind == Jail
      && forall i :: 0 <= i < r.position ==> tiles[i].kind != Jail
    ensures (forall i :: 0 <= i < |tiles| ==> tiles[i].kind != Jail) ==> r.position == p.position
  {
    var j := IndexOfKind(tiles, Jail);
    p.(position := if j >= 0 then j else p.position, inJailTurns := JailSentence)
  }

  /** The log with `e` in front, cut to the newest `LogLimit` entries. */
  function AddLog(log: seq<LogEntry>, e: LogEntry): (r: seq<LogEntry>)
    ensures |r| == Min(LogLimit, |log| + 1)
    ensures r[0] == e
    ensures r[1..] == log[..|r| - 1]
  {
    ([e] + log)[..Min(LogLimit, |log| + 1)]
  }

  /** Logging puts the entry in front of the capped log and changes nothing else. */
  function Log(gs: GameState, e: LogEntry): (r: GameState)
    ensures r == gs.(log := r.log)
    ensures |r.log| == Min(LogLimit, |gs.log| + 1) && r.log[0] == e && r.log[1..] == gs.log[..|r.log| - 1]
  {
    gs.(log := AddLog(gs.log, e))
  }

  // ----- initial state -----

  /** What a caller names a player by: a bare name, or a name with the
      presentation settings chosen at setup. */
  datatype Seed = NameOnly(name: string) | Profile(name: string, color: Option<string>, isBot: bool)

  function Enrol(s: Seed, i: int): Player {
    match s
    case NameOnly(name) => Player(i, name, 0, StartCash, 0, false, None, false)
    case Profile(name, color, isBot) => Player(i, name, 0, StartCash, 0, false, color, isBot)
  }

  /** The argument used when none is given. */
  const DefaultSeeds: seq<Seed> := [NameOnly("You"), NameOnly("Bot")]

  /** The players used when the list given is empty. */
  function DefaultPlayers(): seq<Player> {
    [ Player(0, "You", 0, StartCash, 0, false, None, false),
      Player(1, "Bot", 0, StartCash, 0, false, None, true) ]
  }

  /** The default argument names both seats without any bot flag, so neither
      default player is a bot; the built-in pair with its bot is used only
      for an empty list. */
  lemma DefaultArgumentHasNoBot(board: seq<Tile>)
    ensures var gs := InitialState(board, DefaultSeeds);
      && |gs.players| == 2 && gs.players[0].name == "You" && gs.players[1].name == "Bot"
      && !gs.players[0].isBot && !gs.players[1].isBot
      && gs.players != DefaultPlayers()
  {
  }

  /** A fresh game on `board` for the players named by `seeds`. */
  function InitialState(board: seq<Tile>, seeds: seq<Seed>): (gs: GameState)
    ensures |gs.players| == if |seeds| == 0 then 2 else |seeds|
    ensures forall i :: 0 <= i < |gs.players| ==>
      && gs.players[i].id == i
      && gs.players[i].position == 0
      && gs.players[i].cash == StartCash
      && gs.players[i].inJailTurns == 0
      && !gs.players[i].bankrupt
    ensures forall i :: 0 <= i < |seeds| ==> gs.players[i].name == seeds[i].name
    ensures |seeds| == 0 ==> gs.players == DefaultPlayers()
    ensures gs.tiles == board && gs.currentPlayer == 0 && gs.dice == NoDice && gs.phase == Idle
    ensures gs.log == [GameStarted] && gs.boardSize == DefaultBoardSize
  {
    var normalized := seq(|seeds|, i requires 0 <= i < |seeds| => Enrol(seeds[i], i));
    GameState(board, if |normalized| > 0 then normalized else DefaultPlayers(),
              0, NoDice, Idle, [GameStarted], DefaultBoardSize)
  }

  // ----- landing -----

  predicate OwnerInRange(t: Tile, n: int) {
    t.ownerId.OwnedBy? ==> 0 <= t.ownerId.id < n
  }

  /** What the reducer needs of a state to act on it at all: a current
      player, a board, the current player on it, and owners that are players. */
  predicate Playable(gs: GameState) {
    && 0 <= gs.currentPlayer < |gs.players|
    && |gs.tiles| > 0
    && 0 <= gs.players[gs.currentPlayer].position < |gs.tiles|
    && forall i :: 0 <= i < |gs.tiles| ==> OwnerInRange(gs.tiles[i], |gs.players|)
  }

  /** The effect of the landed tile on player `who`, before the bankruptcy check. */
  function LandingEffect(gs: GameState, who: nat, tile: Tile): (r: GameState)
    requires who < |gs.players| && OwnerInRange(tile, |gs.players|)
    ensures r.tiles == gs.tiles && |r.players| == |gs.players|
    ensures r.currentPlayer == gs.currentPlayer && r.dice == gs.dice && r.boardSize == gs.boardSize
    ensures r.phase == if tile.kind == Property && tile.ownerId.IsNullish() then BuyPrompt else gs.phase
    ensures r.players[who].id == gs.players[who].id && r.players[who].bankrupt == gs.players[who].bankrupt
    ensures forall j :: 0 <= j < |gs.players| && j != who ==>
      r.players[j] == gs.players[j] || (tile.rent.Some? && r.players[j] == Credit(gs.players[j], tile.rent.value))
  {
    var p := gs.players[who];
    match tile.kind
    case Go => gs
    case Property =>
      if tile.ownerId.IsNullish() then
        Log(gs.(phase := BuyPrompt), OfferedTile(p.name, tile.name, tile.price))
      else if tile.ownerId.id != p.id then
        var o := tile.ownerId.id;
        var owner := gs.players[o];
        if !owner.bankrupt && tile.rent.Some? then
          var paid := gs.players[who := Pay(p, tile.rent.value)];
          var settled := paid[o := Credit(paid[o], tile.rent.value)];
          Log(gs.(players := settled), PaidRent(p.name, tile.rent.value, owner.name, tile.name))
        else gs
      else gs
    case Tax => Log(gs.(players := gs.players[who := Pay(p, TaxAmount)]), PaidTax(p.name))
    case GoToJail =>
      Log(gs.(players := gs.players[who := SendToJail(gs.tiles, p)]), SentToJail(p.name))
    case Jail => gs
    case Free => gs
  }

  /** Every tile owned by player `id` made unowned. */
  function Release(tiles: seq<Tile>, id: int): (r: seq<Tile>)
    ensures |r| == |tiles|
    ensures forall i :: 0 <= i < |r| ==> r[i].ownerId != OwnedBy(id)
    ensures forall i :: 0 <= i < |r| && tiles[i].ownerId == OwnedBy(id) ==> r[i] == tiles[i].(ownerId := NoOwner)
    ensures forall i :: 0 <= i < |r| && tiles[i].ownerId != OwnedBy(id) ==> r[i] == tiles[i]
  {
    seq(|tiles|, i requires 0 <= i < |tiles| =>
      if tiles[i].ownerId == OwnedBy(id) then tiles[i].(ownerId := NoOwner) else tiles[i])
  }

  /** A mover left in debt goes bankrupt and loses every tile it owns. */
  function SettleDebt(gs: GameState, who: nat): (r: GameState)
    requires who < |gs.players|
    ensures |r.players| == |gs.players| && |r.tiles| == |gs.tiles|
    ensures r.currentPlayer == gs.currentPlayer && r.dice == gs.dice && r.phase == gs.phase
    ensures r.players[who] == gs.players[who].(bankrupt := gs.players[who].bankrupt || gs.players[who].cash < 0)
    ensures gs.players[who].cash < 0 ==>
      forall i :: 0 <= i < |r.tiles| ==> r.tiles[i].ownerId != OwnedBy(gs.players[who].id)
    ensures gs.players[who].cash >= 0 ==> r == gs
  {
    var p := gs.players[who];
    if p.cash < 0 then
      Log(gs.(players := gs.players[who := p.(bankrupt := true)], tiles := Release(gs.tiles, p.id)),
          WentBankrupt(p.name))
    else gs
  }

  /** The landing effect followed by the bankruptcy check on the mover. */
  function ResolveLanding(gs: GameState, who: nat, tile: Tile): (r: GameState)
    requires who < |gs.players| && OwnerInRange(tile, |gs.players|)
    ensures |r.players| == |gs.players| && |r.tiles| == |gs.tiles|
    ensures r.currentPlayer == gs.currentPlayer && r.dice == gs.dice
    ensures r.players[who].bankrupt == (gs.players[who].bankrupt || r.players[who].cash < 0)
  {
    SettleDebt(LandingEffect(gs, who, tile), who)
  }

  // ----- the actions -----

  /** Play passes to the next solvent player; used by END_TURN and by the
      guard that skips a bankrupt current player. */
  function Rotate(gs: GameState): (r: GameState)
    requires 0 <= gs.currentPlayer
    ensures r == gs.(currentPlayer := r.currentPlayer, phase := Idle, dice := NoDice)
    ensures gs.currentPlayer < |gs.players| ==> 0 <= r.currentPlayer < |gs.players|
    ensures (exists j :: 0 <= j < |gs.players| && !gs.players[j].bankrupt) ==>
      0 <= r.currentPlayer < |gs.players| && !gs.players[r.currentPlayer].bankrupt
    ensures (forall j :: 0 <= j < |gs.players| ==> gs.players[j].bankrupt) ==> r.currentPlayer == gs.currentPlayer
  {
    gs.(currentPlayer := NextAlive(gs.players, gs.currentPlayer), phase := Idle, dice := NoDice)
  }

  /** The first half of a free roll: the dice are shown, a lap earns the
      pass-GO bonus, and the token moves. */
  function Advance(gs: GameState, d1: int, d2: int): (r: GameState)
    requires Playable(gs) && IsDie(d1) && IsDie(d2)
    ensures r.tiles == gs.tiles && r.currentPlayer == gs.currentPlayer && |r.players| == |gs.players|
    ensures r.players[r.currentPlayer].position == MovePlayer(gs.players[gs.currentPlayer], d1 + d2, gs.tiles).newPos
  {
    var c := gs.currentPlayer;
    var p := gs.players[c];
    var rolled := gs.(dice := Rolled(d1, d2));
    var m := MovePlayer(p, d1 + d2, gs.tiles);
    var credited :=
      if m.passedGo then
        Log(rolled.(players := rolled.players[c := Credit(p, PassGoAmount)]), PassedGo(p.name, PassGoAmount))
      else rolled;
    credited.(players := credited.players[c := credited.players[c].(position := m.newPos)])
  }

  function RollDice(gs: GameState, d1: int, d2: int): (r: GameState)
    requires Playable(gs) && IsDie(d1) && IsDie(d2)
    ensures |r.players| == |gs.players| && |r.tiles| == |gs.tiles| && r.currentPlayer == gs.currentPlayer
    ensures gs.phase != Idle ==> r == gs
    ensures gs.phase == Idle ==> r.phase == BuyPrompt || r.phase == End
    ensures gs.phase == Idle && gs.players[gs.currentPlayer].inJailTurns > 0 ==> r.dice == NoDice && r.tiles == gs.tiles
    ensures gs.phase == Idle && gs.players[gs.currentPlayer].inJailTurns <= 0 ==> r.dice == Rolled(d1, d2)
  {
    var c := gs.currentPlayer;
    var p := gs.players[c];
    if gs.phase != Idle then gs
    else if p.inJailTurns > 0 then
      Log(gs.(players := gs.players[c := p.(inJailTurns := p.inJailTurns - 1)]),
          SkippedMoveInJail(p.name)).(phase := End, dice := NoDice)
    else
      var moved := Advance(gs, d1, d2);
      var landed := ResolveLanding(moved, c, moved.tiles[moved.players[c].position]);
      if landed.phase == BuyPrompt then landed else landed.(phase := End)
  }

  function BuyTile(gs: GameState): (r: GameState)
    requires Playable(gs)
    ensures |r.players| == |gs.players| && |r.tiles| == |gs.tiles|
    ensures r.currentPlayer == gs.currentPlayer && r.dice == gs.dice
    ensures gs.phase != BuyPrompt ==> r == gs
    ensures gs.phase == BuyPrompt ==> r.phase == End
    ensures var c := gs.currentPlayer; r.players[c].cash == gs.players[c].cash || 0 <= r.players[c].cash
  {
    var c := gs.currentPlayer;
    var p := gs.players[c];
    if gs.phase != BuyPrompt then gs
    else
      var t := gs.tiles[p.position];
      var logged :=
        if t.kind == Property && t.ownerId.IsNullish() && t.price.Some? && p.cash >= t.price.value then
          Log(gs.(players := gs.players[c := Pay(p, t.price.value)],
                  tiles := gs.tiles[p.position := t.(ownerId := OwnedBy(p.id))]),
              Bought(p.name, t.name, t.price.value))
        else
          Log(gs, CouldNotBuy(p.name, t.name));
      logged.(phase := End)
  }

  function SkipBuying(gs: GameState): (r: GameState)
    requires Playable(gs)
    ensures gs.phase != BuyPrompt ==> r == gs
    ensures gs.phase == BuyPrompt ==>
      r == gs.(phase := End, log := r.log) && |r.log| > 0 && r.log[0] == SkippedBuying(gs.players[gs.currentPlayer].name)
  {
    if gs.phase != BuyPrompt then gs
    else Log(gs, SkippedBuying(gs.players[gs.currentPlayer].name)).(phase := End)
  }

  /** A fresh game on `board` for the same player names. */
  function ResetGame(gs: GameState, board: seq<Tile>): (r: GameState)
    ensures r.tiles == board && r.currentPlayer == 0 && r.phase == Idle && r.dice == NoDice
    ensures |gs.players| > 0 ==> |r.players| == |gs.players|
    ensures |gs.players| > 0 ==> forall i :: 0 <= i < |gs.players| ==>
      r.players[i] == Player(i, gs.players[i].name, 0, StartCash, 0, false, None, false)
  {
    InitialState(board, seq(|gs.players|, i requires 0 <= i < |gs.players| => NameOnly(gs.players[i].name)))
  }

  /** The reducer: `d1` and `d2` are the dice a roll would throw, `board` the
      layout a reset would generate. */
  function Transition(gs: GameState, action: Action, d1: int, d2: int, board: seq<Tile>): (r: GameState)
    requires Playable(gs) && IsDie(d1) && IsDie(d2)
    ensures 0 <= r.currentPlayer < |r.players|
    ensures action != Reset || gs.players[gs.currentPlayer].bankrupt ==>
      |r.players| == |gs.players| && |r.tiles| == |gs.tiles|
  {
    if gs.players[gs.currentPlayer].bankrupt then Rotate(gs)
    else
      match action
      case Roll => RollDice(gs, d1, d2)
      case Buy => BuyTile(gs)
      case SkipBuy => SkipBuying(gs)
      case EndTurn => Rotate(gs)
      case Reset => ResetGame(gs, board)
  }
}
