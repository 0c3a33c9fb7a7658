/** The fixed twelve-square board. */
module Tiles {
  import opened Types

  /** A square other than a property: it has no price, rent or owner field. */
  function Special(id: int, name: string, kind: TileType): Tile {
    Tile(id, name, kind, None, None, Absent)
  }

  /** A property square, unowned. */
  function Lot(id: int, name: string, price: int, rent: int): Tile {
    Tile(id, name, Property, Some(price), Some(rent), NoOwner)
  }

  /** The board: GO, jail, free parking and go-to-jail at the corners, two
      tax squares, six unowned properties whose rent is a tenth of the price. */
  function MakeTiles(): (ts: seq<Tile>)
    ensures |ts| == 12
    ensures forall i :: 0 <= i < |ts| ==> ts[i].id == i
    ensures forall i :: 0 <= i < |ts| ==>
      && (ts[i].kind == Go <==> i == 0)
      && (ts[i].kind == Jail <==> i == 4)
      && (ts[i].kind == Free <==> i == 6)
      && (ts[i].kind == GoToJail <==> i == 8)
      && (ts[i].kind == Tax <==> i == 2 || i == 10)
    ensures forall i :: 0 <= i < |ts| && ts[i].kind == Property ==>
      && ts[i].ownerId == NoOwner
      && ts[i].price.Some? && ts[i].price.value > 0
      && ts[i].rent == Some(ts[i].price.value / 10)
    ensures forall i :: 0 <= i < |ts| && ts[i].kind != Property ==>
      ts[i].price == None && ts[i].rent == None && ts[i].ownerId == Absent
  {
    [ Special(0, "GO", Go),
      Lot(1, "Maple Ave", 60, 6),
      Special(2, "Income Tax", Tax),
      Lot(3, "Oak Street", 60, 6),
      Special(4, "Jail / Just", Jail),
      Lot(5, "Pine Road", 100, 10),
      Special(6, "Free Parking", Free),
      Lot(7, "Birch Blvd", 100, 10),
      Special(8, "Go To Jail", GoToJail),
      Lot(9, "Elm Street", 140, 14),
      Special(10, "Luxury Tax", Tax),
      Lot(11, "Cedar Court", 140, 14) ]
  }
}
