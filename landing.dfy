/** What landing on a square does to the players' money, position and
    holdings, and what the bankruptcy check that follows it does. */
module Landing {
  import opened Types
  import opened Rules
  import opened Invariants

  /** All the cash held by the players. */
  function TotalCash(ps: seq<Player>): int {
    if |ps| == 0 then 0 else ps[0].cash + TotalCash(ps[1..])
  }

  /** Changing one player changes the total by exactly that player's change. */
  lemma {:induction false} TotalCashUpdate(ps: seq<Player>, i: nat, q: Player)
    requires i < |ps|
    ensures TotalCash(ps[i := q]) == TotalCash(ps) - ps[i].cash + q.cash
  {
    if i == 0 {
      assert ps[i := q][1..] == ps[1..];
    } else {
      assert ps[i := q][1..] == ps[1..][i - 1 := q];
      TotalCashUpdate(ps[1..], i - 1, q);
    }
  }

  /** What the mover owes for a square: the rent of a property held by
      another solvent player, or the tax. */
  function Due(gs: GameState, who: nat, tile: Tile): int
    requires who < |gs.players| && OwnerInRange(tile, |gs.players|)
  {
    match tile.kind
    case Tax => TaxAmount
    case Property =>
      if tile.ownerId.OwnedBy? && tile.ownerId.id != gs.players[who].id
         && !gs.players[tile.ownerId.id].bankrupt && tile.rent.Some?
      then tile.rent.value else 0
    case _ => 0
  }

  /** The player who collects rent for a square, if anyone does. */
  predicate Collects(gs: GameState, who: nat, tile: Tile, o: int)
    requires who < |gs.players| && OwnerInRange(tile, |gs.players|)
  {
    tile.kind == Property && tile.ownerId == OwnedBy(o) && o != gs.players[who].id
    && !gs.players[o].bankrupt && tile.rent.Some?
  }

  /** The landing effect before the bankruptcy check: the mover pays what is
      due, a collecting owner receives exactly that rent, nobody else's money
      moves, and an unowned property opens the buy prompt. */
  lemma EffectSummary(gs: GameState, who: nat, tile: Tile)
    requires Wf(gs) && who < |gs.players| && OwnerInRange(tile, |gs.players|)
    ensures var r := LandingEffect(gs, who, tile);
      && r.tiles == gs.tiles
      && |r.players| == |gs.players|
      && r.players[who].cash == gs.players[who].cash - Due(gs, who, tile)
      && (forall j :: 0 <= j < |gs.players| && j != who ==>
            r.players[j] == if Collects(gs, who, tile, j) then Credit(gs.players[j], tile.rent.value) else gs.players[j])
      && (forall j :: 0 <= j < |gs.players| ==>
            r.players[j].id == gs.players[j].id && r.players[j].name == gs.players[j].name
            && r.players[j].bankrupt == gs.players[j].bankrupt)
      && TotalCash(r.players) == TotalCash(gs.players) - (if tile.kind == Tax then TaxAmount else 0)
      && r.phase == (if tile.kind == Property && tile.ownerId.IsNullish() then BuyPrompt else gs.phase)
      && r.currentPlayer == gs.currentPlayer && r.dice == gs.dice && r.boardSize == gs.boardSize
  {
    var p := gs.players[who];
    match tile.kind {
      case Go =>
      case Property =>
        if !tile.ownerId.IsNullish() && tile.ownerId.id != p.id {
          var o := tile.ownerId.id;
          if !gs.players[o].bankrupt && tile.rent.Some? {
            RentEffect(gs, who, tile, o);
          }
        }
      case Tax =>
        assert LandingEffect(gs, who, tile).players == gs.players[who := Pay(p, TaxAmount)];
        TotalCashUpdate(gs.players, who, Pay(p, TaxAmount));
      case GoToJail =>
        assert LandingEffect(gs, who, tile).players == gs.players[who := SendToJail(gs.tiles, p)];
        TotalCashUpdate(gs.players, who, SendToJail(gs.tiles, p));
      case Jail =>
      case Free =>
    }
  }

  /** Rent owed to a solvent owner leaves the mover short by the rent and the
      owner ahead by it, so the players together hold as much as before. */
  lemma RentEffect(gs: GameState, who: nat, tile: Tile, o: nat)
    requires Wf(gs) && who < |gs.players| && OwnerInRange(tile, |gs.players|)
    requires tile.kind == Property && tile.ownerId == OwnedBy(o) && o != gs.players[who].id
    requires !gs.players[o].bankrupt && tile.rent.Some?
    ensures var paid := gs.players[who := Pay(gs.players[who], tile.rent.value)];
      && o < |gs.players| && o != who
      && LandingEffect(gs, who, tile).players == paid[o := Credit(gs.players[o], tile.rent.value)]
      && TotalCash(LandingEffect(gs, who, tile).players) == TotalCash(gs.players)
  {
    var p := gs.players[who];
    var paid := gs.players[who := Pay(p, tile.rent.value)];
    assert o != who && paid[o] == gs.players[o];
    TotalCashUpdate(gs.players, who, Pay(p, tile.rent.value));
    TotalCashUpdate(paid, o, Credit(paid[o], tile.rent.value));
  }

  /** The bankruptcy check: a mover in debt becomes bankrupt and exactly the
      tiles it owned become unowned; a mover not in debt changes nothing. */
  lemma SettleSummary(gs: GameState, who: nat)
    requires who < |gs.players|
    ensures var r := SettleDebt(gs, who); var id := gs.players[who].id;
      && |r.players| == |gs.players|
      && (forall j :: 0 <= j < |gs.players| && j != who ==> r.players[j] == gs.players[j])
      && r.players[who] == gs.players[who].(bankrupt := gs.players[who].bankrupt || gs.players[who].cash < 0)
      && |r.tiles| == |gs.tiles|
      && (gs.players[who].cash < 0 ==>
            && (forall i :: 0 <= i < |r.tiles| ==> r.tiles[i].ownerId != OwnedBy(id))
            && (forall i :: 0 <= i < |gs.tiles| && gs.tiles[i].ownerId == OwnedBy(id) ==>
                  r.tiles[i] == gs.tiles[i].(ownerId := NoOwner))
            && (forall i :: 0 <= i < |gs.tiles| && gs.tiles[i].ownerId != OwnedBy(id) ==> r.tiles[i] == gs.tiles[i])
            && r.log == AddLog(gs.log, WentBankrupt(gs.players[who].name)))
      && (gs.players[who].cash >= 0 ==> r == gs)
  {
  }

  /** Landing, bankruptcy check included, stated against the state before it. */
  lemma LandingSummary(gs: GameState, who: nat, tile: Tile)
    requires Wf(gs) && who < |gs.players| && OwnerInRange(tile, |gs.players|)
    ensures var r := ResolveLanding(gs, who, tile); var id := gs.players[who].id;
      var inDebt := gs.players[who].cash - Due(gs, who, tile) < 0;
      && |r.players| == |gs.players|
      && r.players[who].cash == gs.players[who].cash - Due(gs, who, tile)
      && r.players[who].bankrupt == (gs.players[who].bankrupt || inDebt)
      && (forall j :: 0 <= j < |gs.players| && j != who ==>
            r.players[j] == if Collects(gs, who, tile, j) then Credit(gs.players[j], tile.rent.value) else gs.players[j])
      && TotalCash(r.players) == TotalCash(gs.players) - (if tile.kind == Tax then TaxAmount else 0)
      && r.phase == (if tile.kind == Property && tile.ownerId.IsNullish() then BuyPrompt else gs.phase)
      && |r.tiles| == |gs.tiles|
      && (inDebt ==>
            && (forall i :: 0 <= i < |r.tiles| ==> r.tiles[i].ownerId != OwnedBy(id))
            && (forall i :: 0 <= i < |gs.tiles| && gs.tiles[i].ownerId == OwnedBy(id) ==>
                  r.tiles[i] == gs.tiles[i].(ownerId := NoOwner))
            && (forall i :: 0 <= i < |gs.tiles| && gs.tiles[i].ownerId != OwnedBy(id) ==> r.tiles[i] == gs.tiles[i]))
      && (!inDebt ==> r.tiles == gs.tiles)
      && r.currentPlayer == gs.currentPlayer && r.dice == gs.dice && r.boardSize == gs.boardSize
  {
    var after := LandingEffect(gs, who, tile);
    EffectSummary(gs, who, tile);
    SettleSummary(after, who);
    var r := SettleDebt(after, who);
    TotalCashUpdate(after.players, who, r.players[who]);
    assert r.players == after.players[who := r.players[who]];
  }

  /** Rent moves exactly the rent from the mover to the owner; the pair
      holds as much as before and nobody else's money changes. */
  lemma LandingOnRentedProperty(gs: GameState, who: nat, tile: Tile)
    requires Wf(gs) && who < |gs.players| && OwnerInRange(tile, |gs.players|)
    requires tile.kind == Property && tile.ownerId.OwnedBy? && tile.ownerId.id != who
    requires !gs.players[tile.ownerId.id].bankrupt && tile.rent.Some?
    ensures var r := ResolveLanding(gs, who, tile); var o := tile.ownerId.id;
      && r.players[who].cash == gs.players[who].cash - tile.rent.value
      && r.players[o].cash == gs.players[o].cash + tile.rent.value
      && r.players[who].cash + r.players[o].cash == gs.players[who].cash + gs.players[o].cash
      && (forall j :: 0 <= j < |gs.players| && j != who && j != o ==> r.players[j] == gs.players[j])
      && TotalCash(r.players) == TotalCash(gs.players)
      && r.phase == gs.phase
  {
    LandingSummary(gs, who, tile);
  }

  /** The tax square takes exactly the tax from the mover and from nobody else. */
  lemma LandingOnTax(gs: GameState, who: nat, tile: Tile)
    requires Wf(gs) && who < |gs.players| && tile.kind == Tax && OwnerInRange(tile, |gs.players|)
    ensures var r := ResolveLanding(gs, who, tile);
      && r.players[who].cash == gs.players[who].cash - TaxAmount
      && (forall j :: 0 <= j < |gs.players| && j != who ==> r.players[j] == gs.players[j])
      && TotalCash(r.players) == TotalCash(gs.players) - TaxAmount
      && r.players[who].bankrupt == (gs.players[who].bankrupt || gs.players[who].cash < TaxAmount)
  {
    LandingSummary(gs, who, tile);
  }

  /** The go-to-jail square puts the mover on the board's first jail square
      (where it stands, if the board has none) with a one-turn sentence, and
      costs nothing. */
  lemma LandingOnGoToJail(gs: GameState, who: nat, tile: Tile)
    requires Wf(gs) && who < |gs.players| && tile.kind == GoToJail && OwnerInRange(tile, |gs.players|)
    ensures var r := ResolveLanding(gs, who, tile); var at := r.players[who].position;
      && r.players[who].inJailTurns == JailSentence
      && r.players[who].cash == gs.players[who].cash
      && ((exists i :: 0 <= i < |gs.tiles| && gs.tiles[i].kind == Jail) ==>
            && 0 <= at < |r.tiles| && r.tiles[at].kind == Jail
            && forall i :: 0 <= i < at ==> r.tiles[i].kind != Jail)
      && ((forall i :: 0 <= i < |gs.tiles| ==> gs.tiles[i].kind != Jail) ==> at == gs.players[who].position)
  {
    LandingSummary(gs, who, tile);
  }

  /** GO, jail, free parking and one's own property move no money; with the
      mover not in debt they change nothing at all. */
  lemma LandingWithoutEffect(gs: GameState, who: nat, tile: Tile)
    requires Wf(gs) && who < |gs.players| && OwnerInRange(tile, |gs.players|)
    requires tile.kind in {Go, Jail, Free} || (tile.kind == Property && tile.ownerId == OwnedBy(gs.players[who].id))
    ensures var r := ResolveLanding(gs, who, tile);
      && |r.players| == |gs.players|
      && (forall j :: 0 <= j < |gs.players| ==> r.players[j].cash == gs.players[j].cash)
      && (gs.players[who].cash >= 0 ==> r == gs)
  {
    LandingSummary(gs, who, tile);
  }
}
