/** What every state the engine produces satisfies, and the proofs that the
    initial state has it and that every transition keeps it. */
module Invariants {
  import opened Types
  import opened Rules
  import opened Tiles

  /** Structure: ids are seat numbers, the current player exists, every token
      stands on the board, owners are players, the log is capped and the dice
      show faces. */
  predicate Wf(gs: GameState) {
    && Playable(gs)
    && (forall i :: 0 <= i < |gs.players| ==> gs.players[i].id == i)
    && (forall i :: 0 <= i < |gs.players| ==> 0 <= gs.players[i].position < |gs.tiles|)
    && |gs.log| <= LogLimit
    && (gs.dice.Rolled? ==> IsDie(gs.dice.d1) && IsDie(gs.dice.d2))
  }

  /** Money and jail: a sentence is at most one turn, only a bankrupt player
      is in debt, rents are not negative, and a bankrupt player owns nothing. */
  predicate Solvent(gs: GameState) {
    && (forall i :: 0 <= i < |gs.players| ==> 0 <= gs.players[i].inJailTurns <= JailSentence)
    && (forall i :: 0 <= i < |gs.players| && !gs.players[i].bankrupt ==> gs.players[i].cash >= 0)
    && (forall i :: 0 <= i < |gs.tiles| && gs.tiles[i].rent.Some? ==> gs.tiles[i].rent.value >= 0)
    && (forall i :: 0 <= i < |gs.tiles| && gs.tiles[i].ownerId.OwnedBy? ==>
          0 <= gs.tiles[i].ownerId.id < |gs.players| && !gs.players[gs.tiles[i].ownerId.id].bankrupt)
  }

  predicate Consistent(gs: GameState) { Wf(gs) && Solvent(gs) }

  /** What a reset needs of the generated board: squares, none of them owned,
      no negative rent. */
  predicate FreshBoard(board: seq<Tile>) {
    && |board| > 0
    && forall i :: 0 <= i < |board| ==>
         board[i].ownerId.IsNullish() && (board[i].rent.Some? ==> board[i].rent.value >= 0)
  }

  lemma MakeTilesIsFresh()
    ensures FreshBoard(MakeTiles())
  {
  }

  lemma InitialStateIsConsistent(board: seq<Tile>, seeds: seq<Seed>)
    requires FreshBoard(board)
    ensures Consistent(InitialState(board, seeds))
  {
  }

  lemma RotateKeeps(gs: GameState)
    requires Wf(gs)
    ensures Wf(Rotate(gs))
    ensures Solvent(gs) ==> Solvent(Rotate(gs))
  {
  }

  lemma ResetKeeps(gs: GameState, board: seq<Tile>)
    requires FreshBoard(board)
    ensures Consistent(ResetGame(gs, board))
  {
    InitialStateIsConsistent(board, seq(|gs.players|, i requires 0 <= i < |gs.players| => NameOnly(gs.players[i].name)));
  }

  lemma SkipKeeps(gs: GameState)
    requires Wf(gs)
    ensures Wf(SkipBuying(gs))
    ensures Solvent(gs) ==> Solvent(SkipBuying(gs))
  {
  }

  lemma BuyKeeps(gs: GameState)
    requires Wf(gs) && !gs.players[gs.currentPlayer].bankrupt
    ensures Wf(BuyTile(gs))
    ensures Solvent(gs) ==> Solvent(BuyTile(gs))
  {
  }

  /** Release only takes ownership away. */
  lemma ReleaseShape(tiles: seq<Tile>, id: int)
    ensures |Release(tiles, id)| == |tiles|
    ensures forall i :: 0 <= i < |tiles| ==>
      && Release(tiles, id)[i] == tiles[i].(ownerId := Release(tiles, id)[i].ownerId)
      && Release(tiles, id)[i].ownerId != OwnedBy(id)
      && (Release(tiles, id)[i].ownerId.OwnedBy? ==> Release(tiles, id)[i].ownerId == tiles[i].ownerId)
  {
  }

  /** `Solvent`, except that player `who` may be in debt without being bankrupt. */
  predicate SolventBut(gs: GameState, who: nat) {
    && (forall i :: 0 <= i < |gs.players| ==> 0 <= gs.players[i].inJailTurns <= JailSentence)
    && (forall i :: 0 <= i < |gs.players| && i != who && !gs.players[i].bankrupt ==> gs.players[i].cash >= 0)
    && (forall i :: 0 <= i < |gs.tiles| && gs.tiles[i].rent.Some? ==> gs.tiles[i].rent.value >= 0)
    && (forall i :: 0 <= i < |gs.tiles| && gs.tiles[i].ownerId.OwnedBy? ==>
          0 <= gs.tiles[i].ownerId.id < |gs.players| && !gs.players[gs.tiles[i].ownerId.id].bankrupt)
  }

  lemma EffectKeeps(gs: GameState, who: nat, k: nat)
    requires Wf(gs) && who < |gs.players| && k < |gs.tiles|
    ensures LandingEffect(gs, who, gs.tiles[k]).tiles == gs.tiles
    ensures Wf(LandingEffect(gs, who, gs.tiles[k]))
    ensures Solvent(gs) ==> SolventBut(LandingEffect(gs, who, gs.tiles[k]), who)
  {
    var tile := gs.tiles[k];
    var after := LandingEffect(gs, who, tile);
    match tile.kind {
      case Go =>
      case Property =>
        if !tile.ownerId.IsNullish() && tile.ownerId.id != gs.players[who].id {
          var o := tile.ownerId.id;
          if !gs.players[o].bankrupt && tile.rent.Some? {
            assert o != who;
            assert after.players == gs.players[who := Pay(gs.players[who], tile.rent.value)][o := Credit(gs.players[o], tile.rent.value)];
          }
        }
      case Tax =>
      case GoToJail =>
      case Jail =>
      case Free =>
    }
  }

  lemma SettleKeeps(gs: GameState, who: nat)
    requires Wf(gs) && who < |gs.players|
    ensures Wf(SettleDebt(gs, who))
    ensures SolventBut(gs, who) ==> Solvent(SettleDebt(gs, who))
  {
    ReleaseShape(gs.tiles, gs.players[who].id);
  }

  lemma LandingKeeps(gs: GameState, who: nat, k: nat)
    requires Wf(gs) && who < |gs.players| && k < |gs.tiles|
    ensures Wf(ResolveLanding(gs, who, gs.tiles[k]))
    ensures Solvent(gs) ==> Solvent(ResolveLanding(gs, who, gs.tiles[k]))
  {
    EffectKeeps(gs, who, k);
    SettleKeeps(LandingEffect(gs, who, gs.tiles[k]), who);
  }

  lemma AdvanceKeeps(gs: GameState, d1: int, d2: int)
    requires Wf(gs) && IsDie(d1) && IsDie(d2)
    ensures Wf(Advance(gs, d1, d2))
    ensures Solvent(gs) ==> Solvent(Advance(gs, d1, d2))
  {
  }

  lemma RollKeeps(gs: GameState, d1: int, d2: int)
    requires Wf(gs) && IsDie(d1) && IsDie(d2)
    ensures Wf(RollDice(gs, d1, d2))
    ensures Solvent(gs) ==> Solvent(RollDice(gs, d1, d2))
  {
    var c := gs.currentPlayer;
    if gs.phase == Idle && gs.players[c].inJailTurns <= 0 {
      var moved := Advance(gs, d1, d2);
      AdvanceKeeps(gs, d1, d2);
      LandingKeeps(moved, c, moved.players[c].position);
    }
  }

  /** Every transition keeps the structure of the state. */
  lemma TransitionKeepsWf(gs: GameState, action: Action, d1: int, d2: int, board: seq<Tile>)
    requires Wf(gs) && IsDie(d1) && IsDie(d2) && FreshBoard(board)
    ensures Wf(Transition(gs, action, d1, d2, board))
  {
    if gs.players[gs.currentPlayer].bankrupt {
      RotateKeeps(gs);
    } else {
      match action
      case Roll => RollKeeps(gs, d1, d2);
      case Buy => BuyKeeps(gs);
      case SkipBuy => SkipKeeps(gs);
      case EndTurn => RotateKeeps(gs);
      case Reset => ResetKeeps(gs, board);
    }
  }

  /** Every transition keeps the money and jail invariants as well. */
  lemma TransitionKeepsConsistent(gs: GameState, action: Action, d1: int, d2: int, board: seq<Tile>)
    requires Consistent(gs) && IsDie(d1) && IsDie(d2) && FreshBoard(board)
    ensures Consistent(Transition(gs, action, d1, d2, board))
  {
    TransitionKeepsWf(gs, action, d1, d2, board);
    if gs.players[gs.currentPlayer].bankrupt {
      RotateKeeps(gs);
    } else {
      match action
      case Roll => RollKeeps(gs, d1, d2);
      case Buy => BuyKeeps(gs);
      case SkipBuy => SkipKeeps(gs);
      case EndTurn => RotateKeeps(gs);
      case Reset => ResetKeeps(gs, board);
    }
  }

  /** One move of play: the action and what the outside world supplies. */
  datatype Turn = Turn(action: Action, d1: int, d2: int, board: seq<Tile>)

  predicate ValidTurn(t: Turn) { IsDie(t.d1) && IsDie(t.d2) && FreshBoard(t.board) }

  /** The state after a whole sequence of moves; every state on the way is consistent. */
  function Play(gs: GameState, turns: seq<Turn>): (r: GameState)
    requires Consistent(gs) && forall i :: 0 <= i < |turns| ==> ValidTurn(turns[i])
    ensures Consistent(r)
    decreases |turns|
  {
    if |turns| == 0 then gs
    else
      var t := turns[0];
      assert ValidTurn(t);
      TransitionKeepsConsistent(gs, t.action, t.d1, t.d2, t.board);
      Play(Transition(gs, t.action, t.d1, t.d2, t.board), turns[1..])
  }

  /** Any game started on a fresh board stays consistent however it is played. */
  lemma GamesStayConsistent(board: seq<Tile>, seeds: seq<Seed>, turns: seq<Turn>)
    requires FreshBoard(board) && forall i :: 0 <= i < |turns| ==> ValidTurn(turns[i])
    ensures Consistent(InitialState(board, seeds)) && Consistent(Play(InitialState(board, seeds), turns))
  {
    InitialStateIsConsistent(board, seeds);
  }
}
