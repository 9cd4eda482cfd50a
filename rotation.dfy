/** Turn order: the index arithmetic of GameManager.nextTurn and the removal of a
    player from the turn list by GameManager.eliminate. */
module Rotation {

  /** The turn index nextTurn moves to among n players: a double keeps the same
      index, otherwise it advances and wraps to 0 once it reaches n. */
  function NextIndex(turn: nat, gotDouble: bool, n: nat): (r: nat)
    ensures turn < n ==> r < n
    ensures gotDouble ==> r == turn
    ensures !gotDouble && turn < n ==> r == (turn + 1) % n
  {
    if gotDouble then turn else if turn + 1 >= n then 0 else turn + 1
  }

  /** The index after k turn changes without doubles. */
  function Advance(turn: nat, n: nat, k: nat): nat
    decreases k
  {
    if k == 0 then turn else Advance(NextIndex(turn, false, n), n, k - 1)
  }

  /** k changes followed by m more are k + m changes. */
  lemma {:induction false} AdvanceCompose(t: nat, n: nat, k: nat, m: nat)
    ensures Advance(t, n, k + m) == Advance(Advance(t, n, k), n, m)
    decreases k
  {
    if k > 0 {
      AdvanceCompose(NextIndex(t, false, n), n, k - 1, m);
    }
  }

  /** Before the wrap, each change moves the turn one seat on. */
  lemma {:induction false} AdvanceWithoutWrap(t: nat, n: nat, k: nat)
    requires t + k < n
    ensures Advance(t, n, k) == t + k
    decreases k
  {
    if k > 0 {
      AdvanceWithoutWrap(t + 1, n, k - 1);
    }
  }

  /** From the last seat the turn wraps to the first. */
  lemma WrapToFirst(n: nat)
    requires n > 0
    ensures Advance(n - 1, n, 1) == 0
  {
  }

  /** How many turn changes lead from index t to index target. */
  function Gap(t: nat, target: nat, n: nat): (k: nat)
    requires t < n && target < n
    ensures k < n
  {
    if target >= t then target - t else target + n - t
  }

  /** Without doubles the turn goes round the table: Gap(t, target, n) changes
      take the turn from any seat t to any seat target, and n changes bring it
      back to t, so every player plays exactly once per round. */
  lemma EveryPlayerGetsTheTurn(t: nat, n: nat, target: nat)
    requires t < n && target < n
    ensures Advance(t, n, Gap(t, target, n)) == target
    ensures Advance(t, n, n) == t
  {
    var toLast := n - 1 - t;
    AdvanceWithoutWrap(t, n, toLast);
    AdvanceCompose(t, n, toLast, 1);
    WrapToFirst(n);
    assert Advance(t, n, toLast + 1) == 0;
    AdvanceCompose(t, n, toLast + 1, t);
    AdvanceWithoutWrap(0, n, t);
    assert toLast + 1 + t == n;
    if target >= t {
      AdvanceWithoutWrap(t, n, target - t);
    } else {
      AdvanceCompose(t, n, toLast + 1, target);
      AdvanceWithoutWrap(0, n, target);
      assert toLast + 1 + target == Gap(t, target, n);
    }
  }

  ghost predicate Distinct<T>(s: seq<T>) {
    forall i, j :: 0 <= i < j < |s| ==> s[i] != s[j]
  }

  /** The position of the first occurrence of x. */
  function IndexOf<T(==)>(s: seq<T>, x: T): (i: nat)
    requires x in s
    ensures i < |s| && s[i] == x && x !in s[..i]
  {
    if s[0] == x then 0 else 1 + IndexOf(s[1..], x)
  }

  /** ArrayList.remove(Object): drop the first occurrence of x, if any. */
  function RemoveFirst<T(==)>(s: seq<T>, x: T): (r: seq<T>)
    ensures x in s ==> |r| == |s| - 1
    ensures x !in s ==> r == s
    ensures forall y :: y in r ==> y in s
  {
    if s == [] then []
    else if s[0] == x then s[1..]
    else [s[0]] + RemoveFirst(s[1..], x)
  }

  /** Removal cuts the list at the first occurrence and keeps the rest in order. */
  lemma {:induction false} RemoveFirstSplices<T>(s: seq<T>, x: T)
    requires x in s
    ensures RemoveFirst(s, x) == s[..IndexOf(s, x)] + s[IndexOf(s, x) + 1..]
  {
    if s[0] != x {
      var t := s[1..];
      RemoveFirstSplices(t, x);
      var k := IndexOf(t, x);
      calc {
        RemoveFirst(s, x);
        [s[0]] + RemoveFirst(t, x);
        [s[0]] + (t[..k] + t[k + 1..]);
        ([s[0]] + t[..k]) + t[k + 1..];
        { assert [s[0]] + t[..k] == s[..k + 1]; assert t[k + 1..] == s[k + 2..]; }
        s[..k + 1] + s[k + 2..];
      }
    }
  }

  /** After removing the member at index k, the elements before k keep their
      index and the later ones move one index down. */
  lemma RemoveFirstShifts<T>(s: seq<T>, x: T)
    requires x in s
    ensures |RemoveFirst(s, x)| == |s| - 1
    ensures forall i :: 0 <= i < IndexOf(s, x) ==> RemoveFirst(s, x)[i] == s[i]
    ensures forall i :: IndexOf(s, x) <= i < |s| - 1 ==> RemoveFirst(s, x)[i] == s[i + 1]
  {
    RemoveFirstSplices(s, x);
  }

  /** Removing from a list without repetitions leaves a list without repetitions. */
  lemma RemovedStaysDistinct<T>(s: seq<T>, x: T)
    requires Distinct(s) && x in s
    ensures Distinct(RemoveFirst(s, x)) && x !in RemoveFirst(s, x)
  {
    RemoveFirstShifts(s, x);
    var k := IndexOf(s, x);
    var r := RemoveFirst(s, x);
    forall i, j | 0 <= i < j < |r|
      ensures r[i] != r[j]
    {
      var i', j' := if i < k then i else i + 1, if j < k then j else j + 1;
      assert r[i] == s[i'] && r[j] == s[j'] && i' < j';
    }
    forall i | 0 <= i < |r|
      ensures r[i] != x
    {
      var i' := if i < k then i else i + 1;
      assert r[i] == s[i'] && i' != k;
    }
  }

  /** Removing x keeps every other member. */
  lemma RemovedKeepsOthers<T>(s: seq<T>, x: T, j: nat)
    requires x in s && j < |s| && s[j] != x
    ensures s[j] in RemoveFirst(s, x)
  {
    RemoveFirstShifts(s, x);
    var k := IndexOf(s, x);
    var r := RemoveFirst(s, x);
    var i := if j < k then j else j - 1;
    assert 0 <= i < |r| && r[i] == s[j];
  }

  /** In a list without repetitions, removing a member leaves exactly the others,
      still without repetitions and in their old relative order. */
  lemma RemoveFromDistinct<T>(s: seq<T>, x: T)
    requires Distinct(s) && x in s
    ensures var r := RemoveFirst(s, x);
      && Distinct(r)
      && x !in r
      && (forall y :: y in r <==> y in s && y != x)
      && (forall i :: 0 <= i < IndexOf(s, x) ==> r[i] == s[i])
      && (forall i :: IndexOf(s, x) <= i < |r| ==> r[i] == s[i + 1])
  {
    RemoveFirstShifts(s, x);
    RemovedStaysDistinct(s, x);
    forall y | y in s && y != x
      ensures y in RemoveFirst(s, x)
    {
      var j :| 0 <= j < |s| && s[j] == y;
      RemovedKeepsOthers(s, x, j);
    }
  }

  // ---------------------------------------------------------------------------
  // Elimination and the turn index.
  //
  // eliminate removes the loser from the list and leaves `turn` and `gotDouble`
  // as they were, so the next nextTurn works on shifted indices.

  /** The player who should play next once the player at index li is gone: the one
      nextTurn would pick in the old list, passing over the eliminated player.
      A double no longer counts once the player who threw it is eliminated. */
  function IntendedNext<T>(ps: seq<T>, t: nat, li: nat, gotDouble: bool): T
    requires |ps| >= 2 && t < |ps| && li < |ps|
  {
    var j := NextIndex(t, gotDouble && li != t, |ps|);
    if j == li then ps[NextIndex(j, false, |ps|)] else ps[j]
  }

  /** The source, as written: with players [0, 1, 2] and player 0 (whose turn it
      is) eliminated, the next nextTurn gives the turn to player 2, skipping
      player 1; and with players [0, 1, 2], a double pending for player 2 (whose
      turn it is) and player 2 eliminated, two players are left, so the game goes
      on, and the kept double leaves the turn index 2 outside the list of two. */
  lemma SourceSkipsSuccessor()
    ensures var ps := [0, 1, 2];
      var after := RemoveFirst(ps, 0);
      && after[NextIndex(0, false, |after|)] == 2
      && IntendedNext(ps, 0, 0, false) == 1
    ensures var after := RemoveFirst([0, 1, 2], 2);
      |after| == 2 && NextIndex(2, true, |after|) >= |after|
  {
    assert RemoveFirst([0, 1, 2], 0) == [1, 2];
    assert RemoveFirst([0, 1, 2], 2) == [0, 1] by {
      assert RemoveFirst([2], 2) == [];
      assert RemoveFirst([1, 2], 2) == [1];
    }
  }

  /** The turn index to keep after removing the player at index li from n players,
      so that the next nextTurn picks the right player in the shorter list. */
  function AdjustedTurn(t: nat, li: nat, n: nat): nat
    requires n >= 2
  {
    if li < t then t - 1
    else if li == t then (if t == 0 then n - 2 else t - 1)
    else t
  }

  /** Corrected: with the turn index adjusted and the double dropped when the
      current player is the one eliminated, the next turn goes to IntendedNext,
      and the index is inside the shorter list. */
  lemma EliminationKeepsRotation<T>(ps: seq<T>, t: nat, li: nat, gotDouble: bool)
    requires Distinct(ps) && |ps| >= 2 && t < |ps| && li < |ps|
    ensures var after := RemoveFirst(ps, ps[li]);
      var k := NextIndex(AdjustedTurn(t, li, |ps|), gotDouble && li != t, |after|);
      k < |after| && after[k] == IntendedNext(ps, t, li, gotDouble)
  {
    assert IndexOf(ps, ps[li]) == li;
    RemoveFirstShifts(ps, ps[li]);
  }
}
