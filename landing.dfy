/** The decision GameManager.showPopup offers when the current player lands on a
    space: the switch on the space index, then, on a property, the test on its owner. */
module Landing {
  import opened Wrappers
  import opened Board

  datatype Decision =
    | Payday                                    // GO: the popup announces the paycheck and credits nothing itself
    | Stranded                                  // deserted island, acknowledged with "SOS!"
    | WelfarePayout(amount: Money)              // the whole welfare pool
    | FreeStationEntry                          // the space-station pass is used: no popup
    | StationOffer(payee: Option<PlayerId>, fee: Money)  // enter for the fee, paid to the owner of space 32 or the bank
    | WelfareDonation(amount: Money)
    | DrawGoldenKey
    | OfferPurchase(price: Money)
    | OweRent(owner: PlayerId, rent: Money, ticketOffered: bool)
    | OfferConstruction(buildings: Buildings)   // the player's own RegularProperty
    | OwnedByPlayer                             // the player's own property without buildings
    | NoProperty                                // a lookup in spaceToProperty gives null

  /** The property a landing concerns, decided by who owns it. */
  function PropertyDecision(p: Property, current: PlayerId, tickets: nat): (d: Decision)
    ensures d.OfferPurchase? <==> p.owner.None?
    ensures d.OweRent? <==> p.owner.Some? && p.owner.value != current
    ensures d.OfferConstruction? || d.OwnedByPlayer? <==> p.owner == Some(current)
  {
    match p.owner
    case None => OfferPurchase(p.price)
    case Some(o) =>
      if o != current then OweRent(o, p.rent, tickets > 0)
      else if p.kind.Regular? then OfferConstruction(p.kind.buildings)
      else OwnedByPlayer
  }

  /** The switch on the space index. */
  function Dispatch(space: int, board: map<int, Property>, current: PlayerId, tickets: nat,
                    welfare: Money, freeSpaceStation: bool): (d: Decision)
    ensures d.Payday? <==> space == GoSpace
    ensures d.Stranded? <==> space == DesertedIslandSpace
    ensures d.DrawGoldenKey? <==> space in GoldenKeySpaces
    ensures d.WelfarePayout? <==> space == WelfareSpace
    ensures d.WelfarePayout? ==> d.amount == welfare
    ensures d.WelfareDonation? <==> space == WelfareTaxSpace
    ensures d.WelfareDonation? ==> d.amount == WelfareTax
    ensures d.StationOffer? <==> space == SpaceStationSpace && !freeSpaceStation && ShuttleSpace in board
    ensures d.StationOffer? ==> d.fee == EntryFee && d.payee == board[ShuttleSpace].owner
    ensures d.FreeStationEntry? <==> space == SpaceStationSpace && freeSpaceStation
    ensures d.NoProperty? <==>
      (!IsSpecialSpace(space) && space !in board)
      || (space == SpaceStationSpace && !freeSpaceStation && ShuttleSpace !in board)
  {
    if space == GoSpace then Payday
    else if space == DesertedIslandSpace then Stranded
    else if space == WelfareSpace then WelfarePayout(welfare)
    else if space == SpaceStationSpace then
      if freeSpaceStation then FreeStationEntry
      else if ShuttleSpace !in board then NoProperty
      else StationOffer(board[ShuttleSpace].owner, EntryFee)
    else if space == WelfareTaxSpace then WelfareDonation(WelfareTax)
    else if space in GoldenKeySpaces then DrawGoldenKey
    else if space !in board then NoProperty
    else PropertyDecision(board[space], current, tickets)
  }

  /** On a complete board every space on the board gives a decision. */
  lemma CompleteBoardAlwaysDecides(space: int, board: map<int, Property>, current: PlayerId,
                                   tickets: nat, welfare: Money, free: bool)
    requires BoardComplete(board) && 0 <= space < BoardSize
    ensures !Dispatch(space, board, current, tickets, welfare, free).NoProperty?
  {
    if space == SpaceStationSpace {
      assert !IsSpecialSpace(ShuttleSpace);
    }
  }

  /** Landing on an ordinary space: buy when nobody owns it, owe its rent (with a
      ticket offered exactly when the player holds one) when someone else does,
      and build or do nothing on one's own. */
  lemma OwnershipDecides(space: int, board: map<int, Property>, current: PlayerId,
                         tickets: nat, welfare: Money, free: bool)
    requires !IsSpecialSpace(space) && space in board
    ensures var d := Dispatch(space, board, current, tickets, welfare, free);
      var p := board[space];
      && (p.owner.None? ==> d == OfferPurchase(p.price))
      && (p.owner.Some? && p.owner.value != current ==> d == OweRent(p.owner.value, p.rent, tickets > 0))
      && (p.owner == Some(current) && p.kind.Regular? ==> d == OfferConstruction(p.kind.buildings))
      && (p.owner == Some(current) && p.kind.Special? ==> d == OwnedByPlayer)
  {
  }
}
