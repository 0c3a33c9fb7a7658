/** Short concrete games on the stock board, as the two default seats play them. */
module Scenarios {
  import opened Types
  import opened Rules
  import opened Tiles
  import opened Invariants
  import opened Landing
  import opened Turns

  /** Rolling 1 and 2 from GO reaches Oak Street, which is offered for sale;
      buying it costs its price of 60 and makes the first seat its owner. */
  lemma FirstPurchase()
    ensures var g0 := InitialState(MakeTiles(), []);
      var g1 := Transition(g0, Roll, 1, 2, MakeTiles());
      && g1.players[0].position == 3 && g1.phase == BuyPrompt && g1.dice == Rolled(1, 2)
      && Playable(g1)
      && var g2 := Transition(g1, Buy, 1, 2, MakeTiles());
         && g2.players[0].cash == StartCash - 60
         && g2.tiles[3].ownerId == OwnedBy(0)
         && g2.phase == End
  {
  }

  /** With Oak Street held by the first seat, the second seat rolling 1 and 2
      from GO pays the rent of 6 to it. */
  lemma RentToOwner()
    ensures var g := GameState(MakeTiles()[3 := MakeTiles()[3].(ownerId := OwnedBy(0))], DefaultPlayers(),
                               1, NoDice, Idle, [GameStarted], DefaultBoardSize);
      var g1 := Transition(g, Roll, 1, 2, MakeTiles());
      && g1.players[1].cash == StartCash - 6
      && g1.players[0].cash == StartCash + 6
      && g1.phase == End
      && g1.log[0] == PaidRent("Bot", 6, "You", "Oak Street")
  {
  }

  /** Rolling 1 and 1 from GO lands on Income Tax and costs 100. */
  lemma IncomeTax()
    ensures var g1 := Transition(InitialState(MakeTiles(), []), Roll, 1, 1, MakeTiles());
      && g1.players[0].position == 2 && g1.players[0].cash == StartCash - TaxAmount
      && !g1.players[0].bankrupt && g1.phase == End
  {
  }

  /** The stock board's jail is its fifth square. */
  lemma StockJail()
    ensures IndexOfKind(MakeTiles(), Jail) == 4
  {
    assert MakeTiles()[4].kind == Jail;
  }

  /** Rolling 4 and 4 from GO lands on Go To Jail: the token moves to the
      jail square with a sentence, and the turn ends without money changing. */
  lemma GoingToJail()
    ensures var g1 := Transition(InitialState(MakeTiles(), []), Roll, 4, 4, MakeTiles());
      && g1.players[0].position == 4 && g1.players[0].inJailTurns == JailSentence
      && g1.players[0].cash == StartCash && g1.phase == End
  {
    StockJail();
  }

  /** A jailed seat's roll serves the sentence: the token stays and no dice show. */
  lemma ServingTheSentence()
    ensures var g0 := InitialState(MakeTiles(), []);
      var g := g0.(players := g0.players[0 := g0.players[0].(position := 4, inJailTurns := JailSentence)]);
      Playable(g) &&
      var g1 := Transition(g, Roll, 6, 6, MakeTiles());
      && g1.players[0].position == 4 && g1.players[0].inJailTurns == 0
      && g1.dice == NoDice && g1.phase == End
  {
  }

  /** From Luxury Tax a roll of 2 and 3 passes GO, collects 200 and reaches Oak Street. */
  lemma PassingGo()
    ensures var g := GameState(MakeTiles(), DefaultPlayers()[0 := DefaultPlayers()[0].(position := 10)],
                               0, NoDice, Idle, [GameStarted], DefaultBoardSize);
      var g1 := Transition(g, Roll, 2, 3, MakeTiles());
      && g1.players[0].position == 3 && g1.players[0].cash == StartCash + PassGoAmount
      && g1.phase == BuyPrompt
  {
    var g := GameState(MakeTiles(), DefaultPlayers()[0 := DefaultPlayers()[0].(position := 10)],
                       0, NoDice, Idle, [GameStarted], DefaultBoardSize);
    MakeTilesIsFresh();
    assert Wf(g);
    FreeRoll(g, 2, 3, MakeTiles());
    assert (10 + 2 + 3) % 12 == 3;
    assert Due(g, 0, MakeTiles()[3]) == 0;
  }

  /** A player with 50 who lands on Income Tax goes bankrupt and loses the
      squares it held; play then passes over it. */
  lemma TaxBankrupts()
    ensures var g := GameState(MakeTiles()[3 := MakeTiles()[3].(ownerId := OwnedBy(0))],
                               DefaultPlayers()[0 := DefaultPlayers()[0].(cash := 50)],
                               0, NoDice, Idle, [GameStarted], DefaultBoardSize);
      var g1 := Transition(g, Roll, 1, 1, MakeTiles());
      && g1.players[0].bankrupt && g1.players[0].cash == -50
      && g1.tiles[3].ownerId == NoOwner
      && g1.log[0] == WentBankrupt("You")
      && Playable(g1)
      && var g2 := Transition(g1, EndTurn, 1, 1, MakeTiles());
         && g2.currentPlayer == 1
         && Playable(g2)
         && Transition(Transition(g2, EndTurn, 1, 1, MakeTiles()), EndTurn, 1, 1, MakeTiles()).currentPlayer == 1
  {
  }
}
