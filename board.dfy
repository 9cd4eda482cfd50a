/** The board, its properties and the per-player account that GameManager reads and updates.
    Player, Property, RegularProperty and ColumbiaSpaceShuttle are not part of this model:
    only the fields and the effects GameManager relies on are given here. */
module Board {
  import opened Wrappers

  /** Money counted in thousandths of $1M ($1,000 units): every constant amount of
      GameManager is a whole number of them. Half a property price is taken in
      whole units, so an odd price is halved rounding down. */
  type Money = int

  /** A player is known by identity, as Java compares Player references. */
  type PlayerId = nat

  const BoardSize: int := 40

  const GoSpace: int := 0
  const DesertedIslandSpace: int := 10
  const WelfareSpace: int := 20
  const SpaceStationSpace: int := 30
  const ShuttleSpace: int := 32
  const WelfareTaxSpace: int := 38

  /** The spaces where a Golden Key card is drawn. */
  const GoldenKeySpaces: set<int> := {2, 7, 12, 17, 22, 35}

  /** ColumbiaSpaceShuttle.ENTRY_FEE, $2.00M. */
  const EntryFee: Money := 2000
  /** The donation asked on space 38, $1.50M. */
  const WelfareTax: Money := 1500
  /** Turns a player stays on the deserted island. */
  const IslandTurns: nat := 3

  /** Building counts of a RegularProperty: getBuildings()[0], [1] and [2]. */
  datatype Buildings = Buildings(houses: nat, offices: nat, hotels: nat)

  const NoBuildings := Buildings(0, 0, 0)

  /** A RegularProperty carries buildings; every other property does not. */
  datatype Kind = Regular(buildings: Buildings) | Special

  datatype Property = Property(price: Money, rent: Money, owner: Option<PlayerId>, kind: Kind)

  /** The fields of a Player that GameManager reads or changes. */
  datatype Player = Player(
    money: Money,
    space: int,
    properties: seq<int>,      // the spaces of the properties the player holds, in list order
    onSpaceStation: bool,
    islandTurns: nat,
    escapeTicket: bool,
    tickets: nat)              // complimentary tickets

  /** A space that the landing switch handles by its index rather than by its property. */
  predicate IsSpecialSpace(space: int) {
    space == GoSpace || space == DesertedIslandSpace || space == WelfareSpace
    || space == SpaceStationSpace || space == WelfareTaxSpace || space in GoldenKeySpaces
  }

  /** The board maps every space that is not special to a property. */
  ghost predicate BoardComplete(board: map<int, Property>) {
    forall space :: 0 <= space < BoardSize && !IsSpecialSpace(space) ==> space in board
  }

  /** The property once it goes back to the bank: no owner and, if it is regular,
      no buildings (Property.owner = null followed by RegularProperty.deconstruct()). */
  function Released(p: Property): (r: Property)
    ensures r.owner.None? && r.price == p.price && r.rent == p.rent
    ensures r.kind.Regular? <==> p.kind.Regular?
    ensures r.kind.Regular? ==> r.kind.buildings == NoBuildings
  {
    var q := p.(owner := None);
    if q.kind.Regular? then q.(kind := Regular(NoBuildings)) else q
  }
}
