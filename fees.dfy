/** The two accumulator scans GameManager.showPopup runs over the current player's
    holdings when a Golden Key card is drawn: the building fee of cards 17, 20 and
    25, and the most expensive property of cards 22 and 23. */
module Fees {
  import opened Wrappers
  import opened Board

  /** Per-building charge for houses, office buildings and hotels. */
  datatype Weights = Weights(house: Money, office: Money, hotel: Money)

  /** Card 17: $0.10M, $0.30M, $0.50M per building. */
  const Card17Weights := Weights(100, 300, 500)
  /** Card 20: $0.30M, $0.60M, $1.00M per building. */
  const Card20Weights := Weights(300, 600, 1000)
  /** Card 25: $0.50M, $1.00M, $1.50M per building. */
  const Card25Weights := Weights(500, 1000, 1500)

  predicate NonNegative(w: Weights) {
    w.house >= 0 && w.office >= 0 && w.hotel >= 0
  }

  predicate AtMost(w: Weights, v: Weights) {
    w.house <= v.house && w.office <= v.office && w.hotel <= v.hotel
  }

  /** What one property adds to the fee: only a RegularProperty has buildings. */
  function PropertyFee(p: Property, w: Weights): Money {
    match p.kind
    case Regular(b) => w.house * b.houses + w.office * b.offices + w.hotel * b.hotels
    case Special => 0
  }

  predicate HasNoBuildings(p: Property) {
    p.kind.Special? || p.kind.buildings == NoBuildings
  }

  /** The fee over a list of holdings, summed in list order. */
  function BuildingFee(ps: seq<Property>, w: Weights): Money
    decreases |ps|
  {
    if ps == [] then 0 else BuildingFee(ps[..|ps| - 1], w) + PropertyFee(ps[|ps| - 1], w)
  }

  /** The loop of showPopup: `fee[0] +=` one term per RegularProperty. */
  method ComputeFee(ps: seq<Property>, w: Weights) returns (fee: Money)
    ensures fee == BuildingFee(ps, w)
  {
    fee := 0;
    var i := 0;
    while i < |ps|
      invariant 0 <= i <= |ps|
      invariant fee == BuildingFee(ps[..i], w)
    {
      var property := ps[i];
      if property.kind.Regular? {
        var b := property.kind.buildings;
        fee := fee + w.house * b.houses + w.office * b.offices + w.hotel * b.hotels;
      }
      assert ps[..i + 1][..i] == ps[..i];
      i := i + 1;
    }
    assert ps[..|ps|] == ps;
  }

  /** With non-negative weights the fee is never negative. */
  lemma {:induction false} FeeNonNegative(ps: seq<Property>, w: Weights)
    requires NonNegative(w)
    ensures BuildingFee(ps, w) >= 0
    decreases |ps|
  {
    if ps != [] {
      FeeNonNegative(ps[..|ps| - 1], w);
    }
  }

  /** Holdings without buildings cost nothing, whatever the weights. */
  lemma {:induction false} FeeWithoutBuildings(ps: seq<Property>, w: Weights)
    requires forall i :: 0 <= i < |ps| ==> HasNoBuildings(ps[i])
    ensures BuildingFee(ps, w) == 0
    decreases |ps|
  {
    if ps != [] {
      FeeWithoutBuildings(ps[..|ps| - 1], w);
    }
  }

  /** Larger weights never give a smaller fee. */
  lemma {:induction false} FeeMonotone(ps: seq<Property>, w: Weights, v: Weights)
    requires AtMost(w, v)
    ensures BuildingFee(ps, w) <= BuildingFee(ps, v)
    decreases |ps|
  {
    if ps != [] {
      FeeMonotone(ps[..|ps| - 1], w, v);
      var p := ps[|ps| - 1];
      if p.kind.Regular? {
        var b := p.kind.buildings;
        assert w.house * b.houses <= v.house * b.houses;
        assert w.office * b.offices <= v.office * b.offices;
        assert w.hotel * b.hotels <= v.hotel * b.hotels;
      }
    }
  }

  /** The three cards are ordered: card 17 charges at most card 20, which charges
      at most card 25, and none of them charges a negative amount. */
  lemma CardFeesOrdered(ps: seq<Property>)
    ensures 0 <= BuildingFee(ps, Card17Weights)
    ensures BuildingFee(ps, Card17Weights) <= BuildingFee(ps, Card20Weights)
    ensures BuildingFee(ps, Card20Weights) <= BuildingFee(ps, Card25Weights)
  {
    FeeNonNegative(ps, Card17Weights);
    FeeMonotone(ps, Card17Weights, Card20Weights);
    FeeMonotone(ps, Card20Weights, Card25Weights);
  }

  /** The fee over a list is the fee over its parts. */
  lemma {:induction false} FeeAppend(ps: seq<Property>, qs: seq<Property>, w: Weights)
    ensures BuildingFee(ps + qs, w) == BuildingFee(ps, w) + BuildingFee(qs, w)
    decreases |qs|
  {
    if qs == [] {
      assert ps + qs == ps;
    } else {
      var last := |qs| - 1;
      assert (ps + qs)[..|ps + qs| - 1] == ps + qs[..last];
      assert (ps + qs)[|ps + qs| - 1] == qs[last];
      FeeAppend(ps, qs[..last], w);
    }
  }

  /** Position k holds a price no other holding beats, and every holding before
      it is strictly cheaper: the first maximum in list order. */
  predicate IsFirstMaximum(ps: seq<Property>, k: nat) {
    && k < |ps|
    && (forall j :: 0 <= j < |ps| ==> ps[j].price <= ps[k].price)
    && (forall j :: 0 <= j < k ==> ps[j].price < ps[k].price)
  }

  /** The scan of cards 22 and 23: the position of the first property whose
      price no other property beats, or None when the player holds nothing. */
  method MostExpensive(ps: seq<Property>) returns (r: Option<nat>)
    ensures r.None? <==> ps == []
    ensures r.Some? ==> IsFirstMaximum(ps, r.value)
  {
    if |ps| == 0 {
      return None;
    }
    var best := 0;
    var i := 1;
    while i < |ps|
      invariant 1 <= i <= |ps|
      invariant best < i
      invariant forall j :: 0 <= j < i ==> ps[j].price <= ps[best].price
      invariant forall j :: 0 <= j < best ==> ps[j].price < ps[best].price
    {
      if ps[best].price < ps[i].price {
        best := i;
      }
      i := i + 1;
    }
    r := Some(best);
  }
}
