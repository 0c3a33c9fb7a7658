/** What each action does to a whole game state. */
module Turns {
  import opened Types
  import opened Rules
  import opened Invariants
  import opened Landing

  /** A roll of at most a full lap wraps at most once: the new square is the
      raw sum, less one lap exactly when GO was passed. */
  lemma MoveSingleLap(p: Player, steps: int, tiles: seq<Tile>)
    requires |tiles| > 0 && 0 <= p.position < |tiles| && 0 <= steps <= |tiles|
    ensures var m := MovePlayer(p, steps, tiles);
      m.newPos == if m.passedGo then p.position + steps - |tiles| else p.position + steps
  {
    var raw, n := p.position + steps, |tiles|;
    if raw >= n {
      ModUnique(raw, n, 1, raw - n);
    } else {
      ModUnique(raw, n, 0, raw);
    }
  }

  /** END_TURN, and any action while the current player is bankrupt, hand the
      turn to the next solvent player, reopen the turn and clear the dice,
      and change nothing else. */
  lemma TurnPasses(gs: GameState, action: Action, d1: int, d2: int, board: seq<Tile>)
    requires Playable(gs) && IsDie(d1) && IsDie(d2)
    requires action == EndTurn || gs.players[gs.currentPlayer].bankrupt
    ensures var r := Transition(gs, action, d1, d2, board);
      && r == gs.(currentPlayer := r.currentPlayer, phase := Idle, dice := NoDice)
      && r.currentPlayer == NextAlive(gs.players, gs.currentPlayer)
      && 0 <= r.currentPlayer < |gs.players|
      && ((exists j :: 0 <= j < |gs.players| && !gs.players[j].bankrupt) ==> !gs.players[r.currentPlayer].bankrupt)
      && ((forall j :: 0 <= j < |gs.players| ==> gs.players[j].bankrupt) ==> r.currentPlayer == gs.currentPlayer)
  {
  }

  /** An action offered outside the phase that accepts it returns the state unchanged. */
  lemma OutOfPhaseIsNoOp(gs: GameState, action: Action, d1: int, d2: int, board: seq<Tile>)
    requires Playable(gs) && IsDie(d1) && IsDie(d2) && !gs.players[gs.currentPlayer].bankrupt
    requires (action == Roll && gs.phase != Idle) || (action in {Buy, SkipBuy} && gs.phase != BuyPrompt)
    ensures Transition(gs, action, d1, d2, board) == gs
  {
  }

  /** A jailed player's roll only serves a turn of the sentence: the token
      and the money stay, the turn ends and no dice are shown. */
  lemma JailedRoll(gs: GameState, d1: int, d2: int, board: seq<Tile>)
    requires Playable(gs) && IsDie(d1) && IsDie(d2)
    requires !gs.players[gs.currentPlayer].bankrupt && gs.phase == Idle
    requires gs.players[gs.currentPlayer].inJailTurns > 0
    ensures var r := Transition(gs, Roll, d1, d2, board); var c := gs.currentPlayer;
      && r.players == gs.players[c := gs.players[c].(inJailTurns := gs.players[c].inJailTurns - 1)]
      && r.tiles == gs.tiles && r.currentPlayer == c
      && r.phase == End && r.dice == NoDice
      && r.log == AddLog(gs.log, SkippedMoveInJail(gs.players[c].name))
  {
  }

  /** The movement half of a free roll, stated against the state before it. */
  lemma AdvanceSummary(gs: GameState, d1: int, d2: int)
    requires Wf(gs) && IsDie(d1) && IsDie(d2)
    ensures var c := gs.currentPlayer; var p := gs.players[c]; var raw := p.position + d1 + d2;
      var r := Advance(gs, d1, d2);
      && r.players == gs.players[c := p.(cash := p.cash + (if raw >= |gs.tiles| then PassGoAmount else 0),
                                          position := raw % |gs.tiles|)]
      && r.tiles == gs.tiles && r.phase == gs.phase && r.dice == Rolled(d1, d2)
      && TotalCash(r.players) == TotalCash(gs.players) + (if raw >= |gs.tiles| then PassGoAmount else 0)
  {
    var c := gs.currentPlayer;
    var p := gs.players[c];
    var r := Advance(gs, d1, d2);
    TotalCashUpdate(gs.players, c, r.players[c]);
  }

  /** How a roll ends once the landing is settled: the buy prompt stays
      open, any other phase becomes the end of the turn. */
  function Finish(landed: GameState): GameState {
    if landed.phase == BuyPrompt then landed else landed.(phase := End)
  }

  /** A free roll is the move, then the landing on the square reached, then `Finish`. */
  lemma RollUnfold(gs: GameState, d1: int, d2: int, board: seq<Tile>)
    requires Wf(gs) && IsDie(d1) && IsDie(d2)
    requires !gs.players[gs.currentPlayer].bankrupt && gs.phase == Idle
    requires gs.players[gs.currentPlayer].inJailTurns <= 0
    ensures var c := gs.currentPlayer; var moved := Advance(gs, d1, d2);
      var dest := (gs.players[c].position + d1 + d2) % |gs.tiles|;
      && moved.players[c].position == dest
      && Transition(gs, Roll, d1, d2, board) == Finish(ResolveLanding(moved, c, gs.tiles[dest]))
  {
    AdvanceSummary(gs, d1, d2);
  }

  /** Landing with one player changed beforehand, stated against the state
      before that change: only the mover's own record differs, so the dues
      and the collecting owner are those of the earlier state. */
  lemma LandingAfterChange(gs: GameState, moved: GameState, c: nat, q: Player, t: Tile)
    requires Wf(gs) && Wf(moved) && c < |gs.players| && OwnerInRange(t, |gs.players|)
    requires moved.players == gs.players[c := q] && q.id == gs.players[c].id
    requires !q.bankrupt && !gs.players[c].bankrupt
    ensures var r := ResolveLanding(moved, c, t);
      && r.dice == moved.dice && r.currentPlayer == moved.currentPlayer
      && |r.players| == |gs.players|
      && r.players[c].cash == q.cash - Due(gs, c, t)
      && TotalCash(r.players) == TotalCash(moved.players) - (if t.kind == Tax then TaxAmount else 0)
      && r.players[c].bankrupt == (q.cash - Due(gs, c, t) < 0)
      && (t.kind != GoToJail ==> r.players[c].position == q.position)
      && (t.kind == GoToJail ==> r.players[c].inJailTurns == JailSentence)
      && (forall j :: 0 <= j < |gs.players| && j != c ==>
            r.players[j] == if Collects(gs, c, t, j) then Credit(gs.players[j], t.rent.value) else gs.players[j])
      && r.phase == (if t.kind == Property && t.ownerId.IsNullish() then BuyPrompt else moved.phase)
  {
    assert Due(moved, c, t) == Due(gs, c, t);
    assert forall j :: 0 <= j < |gs.players| && j != c ==> Collects(moved, c, t, j) == Collects(gs, c, t, j);
    LandingSummary(moved, c, t);
    if t.kind == GoToJail {
      LandingOnGoToJail(moved, c, t);
    }
  }

  /** The landing after the move, stated against the state before the move. */
  lemma LandingAfterMove(gs: GameState, d1: int, d2: int, dest: int)
    requires Wf(gs) && IsDie(d1) && IsDie(d2)
    requires !gs.players[gs.currentPlayer].bankrupt && gs.phase == Idle
    requires dest == (gs.players[gs.currentPlayer].position + d1 + d2) % |gs.tiles|
    ensures 0 <= dest < |gs.tiles|
    ensures var c := gs.currentPlayer; var p := gs.players[c]; var t := gs.tiles[dest];
      var bonus := if p.position + d1 + d2 >= |gs.tiles| then PassGoAmount else 0;
      var r := ResolveLanding(Advance(gs, d1, d2), c, t);
      && r.dice == Rolled(d1, d2) && r.currentPlayer == c
      && |r.players| == |gs.players|
      && r.players[c].cash == p.cash + bonus - Due(gs, c, t)
      && TotalCash(r.players) == TotalCash(gs.players) + bonus - (if t.kind == Tax then TaxAmount else 0)
      && r.players[c].bankrupt == (p.cash + bonus - Due(gs, c, t) < 0)
      && (t.kind != GoToJail ==> r.players[c].position == dest)
      && (t.kind == GoToJail ==> r.players[c].inJailTurns == JailSentence)
      && (forall j :: 0 <= j < |gs.players| && j != c ==>
            r.players[j] == if Collects(gs, c, t, j) then Credit(gs.players[j], t.rent.value) else gs.players[j])
      && r.phase == (if t.kind == Property && t.ownerId.IsNullish() then BuyPrompt else Idle)
  {
    var c := gs.currentPlayer;
    var moved := Advance(gs, d1, d2);
    AdvanceSummary(gs, d1, d2);
    AdvanceKeeps(gs, d1, d2);
    LandingAfterChange(gs, moved, c, moved.players[c], gs.tiles[dest]);
  }

  /** A free roll: the token moves the sum of the dice round the ring, a lap
      pays exactly the pass-GO bonus, the landed square settles what is due,
      a debt bankrupts the mover, and the turn waits for a buying decision
      exactly when the square is an unowned property. */
  lemma FreeRoll(gs: GameState, d1: int, d2: int, board: seq<Tile>)
    requires Wf(gs) && IsDie(d1) && IsDie(d2)
    requires !gs.players[gs.currentPlayer].bankrupt && gs.phase == Idle
    requires gs.players[gs.currentPlayer].inJailTurns <= 0
    ensures var c := gs.currentPlayer; var p := gs.players[c];
      var raw := p.position + d1 + d2; var dest := raw % |gs.tiles|; var t := gs.tiles[dest];
      var bonus := if raw >= |gs.tiles| then PassGoAmount else 0;
      var r := Transition(gs, Roll, d1, d2, board);
      && r.dice == Rolled(d1, d2) && r.currentPlayer == c
      && |r.players| == |gs.players|
      && r.players[c].cash == p.cash + bonus - Due(gs, c, t)
      && TotalCash(r.players) == TotalCash(gs.players) + bonus - (if t.kind == Tax then TaxAmount else 0)
      && r.players[c].bankrupt == (p.cash + bonus - Due(gs, c, t) < 0)
      && (t.kind != GoToJail ==> r.players[c].position == dest)
      && (t.kind == GoToJail ==> r.players[c].inJailTurns == JailSentence)
      && (forall j :: 0 <= j < |gs.players| && j != c ==>
            r.players[j] == if Collects(gs, c, t, j) then Credit(gs.players[j], t.rent.value) else gs.players[j])
      && r.phase == (if t.kind == Property && t.ownerId.IsNullish() then BuyPrompt else End)
  {
    RollUnfold(gs, d1, d2, board);
    LandingAfterMove(gs, d1, d2, (gs.players[gs.currentPlayer].position + d1 + d2) % |gs.tiles|);
  }

  /** BUY on the prompt: with an unowned, priced property underfoot and the
      cash for it, exactly the price is paid and the square becomes the
      buyer's; otherwise only the log changes. Either way the turn ends. */
  lemma BuyOutcome(gs: GameState, d1: int, d2: int, board: seq<Tile>)
    requires Wf(gs) && IsDie(d1) && IsDie(d2)
    requires !gs.players[gs.currentPlayer].bankrupt && gs.phase == BuyPrompt
    ensures var c := gs.currentPlayer; var p := gs.players[c]; var t := gs.tiles[p.position];
      var ok := t.kind == Property && t.ownerId.IsNullish() && t.price.Some? && p.cash >= t.price.value;
      var r := Transition(gs, Buy, d1, d2, board);
      && r.phase == End && r.dice == gs.dice && r.currentPlayer == c
      && (ok ==>
            && r.players == gs.players[c := p.(cash := p.cash - t.price.value)]
            && r.tiles == gs.tiles[p.position := t.(ownerId := OwnedBy(c))]
            && r.players[c].cash >= 0
            && TotalCash(r.players) == TotalCash(gs.players) - t.price.value)
      && (!ok ==> r == gs.(log := r.log, phase := End))
      && r.log == AddLog(gs.log, if ok then Bought(p.name, t.name, t.price.value) else CouldNotBuy(p.name, t.name))
  {
    var c := gs.currentPlayer;
    var p := gs.players[c];
    TotalCashUpdate(gs.players, c, Pay(p, if gs.tiles[p.position].price.Some? then gs.tiles[p.position].price.value else 0));
  }

  /** SKIP_BUY on the prompt ends the turn and logs the decision, nothing else. */
  lemma SkipOutcome(gs: GameState, d1: int, d2: int, board: seq<Tile>)
    requires Playable(gs) && IsDie(d1) && IsDie(d2)
    requires !gs.players[gs.currentPlayer].bankrupt && gs.phase == BuyPrompt
    ensures var r := Transition(gs, SkipBuy, d1, d2, board);
      r == gs.(phase := End, log := AddLog(gs.log, SkippedBuying(gs.players[gs.currentPlayer].name)))
  {
  }

  /** RESET starts over on the new board with the same names in the same
      seats; colours and bot flags are not carried over. */
  lemma ResetOutcome(gs: GameState, d1: int, d2: int, board: seq<Tile>)
    requires Playable(gs) && IsDie(d1) && IsDie(d2) && !gs.players[gs.currentPlayer].bankrupt
    ensures var r := Transition(gs, Reset, d1, d2, board);
      && r.tiles == board
      && |r.players| == |gs.players|
      && (forall i :: 0 <= i < |gs.players| ==>
            r.players[i] == Player(i, gs.players[i].name, 0, StartCash, 0, false, None, false))
      && r.currentPlayer == 0 && r.phase == Idle && r.dice == NoDice
      && r.log == [GameStarted] && r.boardSize == DefaultBoardSize
  {
  }

  /** `r` has the players of `gs` under the same ids and names, none of the
      bankrupt ones revived, and the squares of `gs` up to their owners. */
  predicate RosterAndBoardOf(gs: GameState, r: GameState) {
    && |r.players| == |gs.players| && |r.tiles| == |gs.tiles|
    && (forall i :: 0 <= i < |gs.players| ==>
          && r.players[i].id == gs.players[i].id && r.players[i].name == gs.players[i].name
          && (gs.players[i].bankrupt ==> r.players[i].bankrupt))
    && (forall i :: 0 <= i < |gs.tiles| ==> r.tiles[i] == gs.tiles[i].(ownerId := r.tiles[i].ownerId))
  }

  lemma RosterTrans(a: GameState, b: GameState, c: GameState)
    requires RosterAndBoardOf(a, b) && RosterAndBoardOf(b, c)
    ensures RosterAndBoardOf(a, c)
  {
    forall i | 0 <= i < |a.tiles|
      ensures c.tiles[i] == a.tiles[i].(ownerId := c.tiles[i].ownerId)
    {
      assert c.tiles[i] == b.tiles[i].(ownerId := c.tiles[i].ownerId);
      assert b.tiles[i] == a.tiles[i].(ownerId := b.tiles[i].ownerId);
    }
  }

  /** Landing, bankruptcy check included, keeps the roster and the squares
      up to their owners. */
  lemma LandingKeepsRoster(gs: GameState, who: nat, tile: Tile)
    requires Wf(gs) && who < |gs.players| && OwnerInRange(tile, |gs.players|)
    ensures RosterAndBoardOf(gs, ResolveLanding(gs, who, tile))
  {
    var after := LandingEffect(gs, who, tile);
    EffectSummary(gs, who, tile);
    SettleSummary(after, who);
  }

  lemma RollKeepsRoster(gs: GameState, d1: int, d2: int)
    requires Wf(gs) && IsDie(d1) && IsDie(d2)
    ensures RosterAndBoardOf(gs, RollDice(gs, d1, d2))
  {
    var c := gs.currentPlayer;
    if gs.phase == Idle && gs.players[c].inJailTurns <= 0 {
      var moved := Advance(gs, d1, d2);
      AdvanceSummary(gs, d1, d2);
      AdvanceKeeps(gs, d1, d2);
      assert RosterAndBoardOf(gs, moved);
      var landed := ResolveLanding(moved, c, moved.tiles[moved.players[c].position]);
      LandingKeepsRoster(moved, c, moved.tiles[moved.players[c].position]);
      RosterTrans(gs, moved, landed);
      assert RollDice(gs, d1, d2) == Finish(landed);
    }
  }

  /** Apart from RESET, no action adds or removes players or squares, renames
      or renumbers a player, revives a bankrupt player, or changes a square
      other than its owner. */
  lemma RosterAndBoardKept(gs: GameState, action: Action, d1: int, d2: int, board: seq<Tile>)
    requires Wf(gs) && IsDie(d1) && IsDie(d2)
    requires action != Reset || gs.players[gs.currentPlayer].bankrupt
    ensures RosterAndBoardOf(gs, Transition(gs, action, d1, d2, board))
  {
    if !gs.players[gs.currentPlayer].bankrupt && action == Roll {
      RollKeepsRoster(gs, d1, d2);
    }
  }
}
