/** The Golden Key deck and what each card does. The deck is a queue of card ids
    drawn from the front and put back at the end (GameManager.drawGoldenKeyCard);
    the effect of each id is the switch run when the player acknowledges the card
    (GameManager.showPopup). */
module GoldenKeys {
  import opened Board
  import Fees

  const DeckSize: nat := 30

  /** The ids 0 .. n-1 in order, as the constructor adds them before shuffling. */
  function Ordered(n: nat): (r: seq<int>)
    ensures |r| == n && forall i :: 0 <= i < n ==> r[i] == i
  {
    seq(n, i => i)
  }

  /** A deck holds each of the ids 0 .. 29 exactly once, in some order. */
  ghost predicate IsDeck(d: seq<int>) {
    multiset(d) == multiset(Ordered(DeckSize))
  }

  /** A deck has thirty cards. */
  lemma DeckHasThirtyCards(d: seq<int>)
    requires IsDeck(d)
    ensures |d| == DeckSize
  {
    assert |d| == |multiset(d)| == |multiset(Ordered(DeckSize))| == DeckSize;
  }

  /** One draw: the head goes to the back. */
  function Rotate(d: seq<int>): (r: seq<int>)
    requires |d| > 0
    ensures |r| == |d|
  {
    d[1..] + [d[0]]
  }

  /** The deck after k draws. */
  function RotateN(d: seq<int>, k: nat): (r: seq<int>)
    requires |d| > 0
    ensures |r| == |d|
  {
    if k == 0 then d else Rotate(RotateN(d, k - 1))
  }

  /** The ids the first k draws return, in order. */
  function Draws(d: seq<int>, k: nat): seq<int>
    requires |d| > 0
  {
    if k == 0 then [] else Draws(d, k - 1) + [RotateN(d, k - 1)[0]]
  }

  /** A draw keeps the same cards: the old head is now last and the others
      moved one place up. */
  lemma RotateKeepsCards(d: seq<int>)
    requires |d| > 0
    ensures multiset(Rotate(d)) == multiset(d)
    ensures Rotate(d)[|d| - 1] == d[0] && Rotate(d)[..|d| - 1] == d[1..]
  {
    assert d == [d[0]] + d[1..];
  }

  /** After k draws (k at most the deck size) the deck is the old deck cut after
      its k-th card. */
  lemma {:induction false} RotateNCuts(d: seq<int>, k: nat)
    requires 0 < |d| && k <= |d|
    ensures RotateN(d, k) == d[k..] + d[..k]
  {
    if k > 0 {
      RotateNCuts(d, k - 1);
      var front, back := d[k - 1..], d[..k - 1];
      var prev := front + back;
      assert prev[0] == d[k - 1];
      assert prev[1..] == front[1..] + back;
      assert front[1..] == d[k..];
      calc {
        RotateN(d, k);
        prev[1..] + [prev[0]];
        (d[k..] + back) + [d[k - 1]];
        d[k..] + (back + [d[k - 1]]);
        { assert d[..k] == back + [d[k - 1]]; }
        d[k..] + d[..k];
      }
    }
  }

  /** The first k draws return the first k cards of the deck, in order. */
  lemma {:induction false} DrawsArePrefix(d: seq<int>, k: nat)
    requires 0 < |d| && k <= |d|
    ensures Draws(d, k) == d[..k]
  {
    if k > 0 {
      DrawsArePrefix(d, k - 1);
      RotateNCuts(d, k - 1);
      assert d[..k] == d[..k - 1] + [d[k - 1]];
    }
  }

  /** Drawing as many cards as the deck holds returns every card once, in deck
      order, leaves the deck as it was, and the next draw is the first card again. */
  lemma FullCycle(d: seq<int>)
    requires |d| > 0
    ensures Draws(d, |d|) == d
    ensures RotateN(d, |d|) == d
    ensures Draws(d, |d| + 1) == d + [d[0]]
  {
    DrawsArePrefix(d, |d|);
    RotateNCuts(d, |d|);
    assert d[..|d|] == d && d[|d|..] == [];
  }

  /** Each id below n appears once in Ordered(n). */
  lemma {:induction false} OrderedHasEachOnce(n: nat, id: int)
    requires 0 <= id < n
    ensures multiset(Ordered(n))[id] == 1
  {
    if id < n - 1 {
      OrderedHasEachOnce(n - 1, id);
    } else {
      assert id !in Ordered(n - 1);
    }
    assert Ordered(n) == Ordered(n - 1) + [n - 1];
  }

  /** For the 30-card deck: thirty draws return each id 0 .. 29 exactly once. */
  lemma DeckCycleDrawsEachIdOnce(d: seq<int>, id: int)
    requires IsDeck(d) && 0 <= id < DeckSize
    ensures |d| == DeckSize
    ensures multiset(Draws(d, DeckSize))[id] == 1
  {
    DeckHasThirtyCards(d);
    FullCycle(d);
    OrderedHasEachOnce(DeckSize, id);
  }

  // ---------------------------------------------------------------------------
  // The effect table.

  /** What a card does once the player acknowledges it. */
  datatype Effect =
    | CollectFromEach(amount: Money)     // every other player pays the drawer
    | PayBank(amount: Money)             // a bankruptcy here is only printed
    | Receive(amount: Money)
    | EscapeTicket                       // an "escape deserted island" key
    | Strand                             // straight to the deserted island
    | Teleport(dest: int)                // directlyMove to dest
    | StepBack(steps: nat)               // move backwards; the popup's close handler is emptied
    | ComplimentaryTicket
    | PayOwnerThenTeleport(space: int, amount: Money, dest: int)  // pay the owner of space, if any, then directlyMove
    | BuildingFee(weights: Fees.Weights) // pay the bank the fee; a bankruptcy here is only printed
    | WorldTour                          // go round the board and empty the welfare pool
    | SellMostExpensive                  // sell the dearest holding, paying back half its price
    | StationPass                        // to the space station, next entry free
    | NoEffect

  /** The switch on the card id. */
  function CardEffect(id: int): (e: Effect)
    ensures e == NoEffect <==> !(0 <= id < DeckSize)
    ensures e.Teleport? ==> 0 <= e.dest < BoardSize
    ensures e.PayOwnerThenTeleport? ==> 0 <= e.dest < BoardSize && !IsSpecialSpace(e.space)
  {
    match id
    case 0 => CollectFromEach(50)
    case 1 => PayBank(500)
    case 2 => Receive(1000)
    case 3 => Receive(2000)
    case 4 => EscapeTicket
    case 5 => Strand
    case 6 => Teleport(25)
    case 7 => Teleport(5)
    case 8 => PayBank(500)
    case 9 => PayBank(1000)
    case 10 => Receive(500)
    case 11 => StepBack(2)
    case 12 => StepBack(3)
    case 13 => Teleport(0)
    case 14 => ComplimentaryTicket
    case 15 => ComplimentaryTicket
    case 16 => PayOwnerThenTeleport(15, 3000, 1)
    case 17 => BuildingFee(Fees.Card17Weights)
    case 18 => Receive(1000)
    case 19 => WorldTour
    case 20 => BuildingFee(Fees.Card20Weights)
    case 21 => Receive(3000)
    case 22 => SellMostExpensive
    case 23 => SellMostExpensive
    case 24 => Teleport(39)
    case 25 => BuildingFee(Fees.Card25Weights)
    case 26 => Teleport(20)
    case 27 => StationPass
    case 28 => StationPass
    case 29 => PayOwnerThenTeleport(28, 2500, 3)
    case _ => NoEffect
  }

  /** The effects whose handler calls eliminate. */
  predicate MayEliminate(e: Effect) {
    e.CollectFromEach? || e.PayOwnerThenTeleport?
  }

  /** The effects that charge the drawer to the bank and swallow a bankruptcy. */
  predicate BankDebtIgnoringBankruptcy(e: Effect) {
    e.PayBank? || e.BuildingFee?
  }

  /** Exactly cards 0, 16 and 29 can eliminate a player; cards 1, 8, 9, 17, 20 and
      25 charge the bank but leave a bankrupt drawer in the game. */
  lemma EliminatingCards(id: int)
    ensures MayEliminate(CardEffect(id)) <==> id in {0, 16, 29}
    ensures BankDebtIgnoringBankruptcy(CardEffect(id)) <==> id in {1, 8, 9, 17, 20, 25}
  {
  }

  /** Every amount the table moves is positive. */
  lemma AmountsPositive(id: int)
    ensures var e := CardEffect(id);
      && (e.CollectFromEach? || e.PayBank? || e.Receive? || e.PayOwnerThenTeleport? ==> e.amount > 0)
      && (e.BuildingFee? ==> Fees.NonNegative(e.weights))
  {
  }

  /** The effects that touch nobody but the drawer, and the drawer's board
      piece and account only. */
  predicate OnDrawerOnly(e: Effect) {
    !(e.CollectFromEach? || e.PayOwnerThenTeleport? || e.SellMostExpensive? || e.NoEffect?)
  }

  /** What a card that touches only the drawer does to the drawer's account:
      payOther to the bank (refused, and swallowed, when the balance is short),
      changeMoney, the keys and tickets, and the moves (move is taken to wrap
      round the 40 spaces). */
  function OnDrawer(e: Effect, a: Player, fee: Money, welfare: Money): (r: Player)
    ensures r.properties == a.properties
    ensures a.money >= 0 && fee >= 0 && welfare >= 0 ==> r.money >= 0
    ensures !(BankDebtIgnoringBankruptcy(e) || e.Receive? || e.WorldTour?) ==> r.money == a.money
    ensures BankDebtIgnoringBankruptcy(e) && fee >= 0 && (e.PayBank? ==> e.amount >= 0) ==> r.money <= a.money
    ensures !OnDrawerOnly(e) ==> r == a
    ensures BankDebtIgnoringBankruptcy(e) ==>
      var debt := if e.PayBank? then e.amount else fee;
      && r.(money := a.money) == a
      && (debt >= 0 ==> 0 <= a.money - r.money <= debt)
      && (a.money >= debt ==> r.money == a.money - debt)
      && (a.money < debt ==> r == a)
    ensures e.Receive? ==> r.(money := a.money) == a
    ensures e.Receive? && e.amount >= 0 ==> r.money >= a.money
    ensures e.Receive? && a.money + e.amount >= 0 ==> r.money == a.money + e.amount
    ensures e.Receive? && a.money + e.amount < 0 ==> r == a
    ensures e.WorldTour? && welfare >= 0 ==> r.money >= a.money
    ensures e.WorldTour? && a.money + welfare >= 0 ==> r.money == a.money + welfare
  {
    match e
    case PayBank(amount) => if a.money >= amount then a.(money := a.money - amount) else a
    case BuildingFee(_) => if a.money >= fee then a.(money := a.money - fee) else a
    case Receive(amount) => if a.money + amount >= 0 then a.(money := a.money + amount) else a
    case EscapeTicket => a.(escapeTicket := true)
    case Strand => a.(islandTurns := IslandTurns)
    case Teleport(dest) => a.(space := dest)
    case StepBack(steps) => a.(space := (a.space - steps) % BoardSize)
    case ComplimentaryTicket => a.(tickets := a.tickets + 1)
    case WorldTour =>
      var moved := a.(space := (a.space + BoardSize) % BoardSize);
      if moved.money + welfare >= 0 then moved.(money := moved.money + welfare) else moved
    case StationPass => a.(space := SpaceStationSpace, onSpaceStation := true)
    case _ => a
  }
}
