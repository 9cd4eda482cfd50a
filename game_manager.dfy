/** The rule engine of GameManager: whose turn it is, the dice, the Golden Key
    deck, what a landing does once the player answers the popup, bankruptcy and
    elimination, and the end of the game. */
module Game {
  import opened Wrappers
  import opened Board
  import opened Rotation
  import opened GoldenKeys
  import opened Landing
  import Fees
  import Station

  /** An exception that ends a button handler early; the popup then stays open. */
  datatype Failure = ConcurrentModification | IndexOutOfBounds | NotEnoughMoney

  /** How a button handler ended. */
  datatype Outcome = Closed | Aborted(reason: Failure)

  /** What showPopup leads to. */
  datatype Popup =
    | TourFinished                        // a world tour was pending: no popup, the turn moves on
    | EnteredFree                         // the space-station pass was used: no popup, the turn moves on
    | Card(id: int, fee: Money, mostExpensive: Option<int>)  // a Golden Key popup, with its amounts worked out
    | Ask(decision: Decision)             // any other popup

  /** What the popup's on-hidden handler does. */
  datatype Closing =
    | Ignored                             // cards 11 and 12 emptied the handler
    | GameOver(winner: PlayerId)
    | TourPending                         // a world tour is under way: the turn waits for it
    | NextPlayer(player: Option<PlayerId>) // nextTurn ran; None when players.get(turn) throws

  /** What a card handler leaves behind: how it ended and the new turn list,
      accounts and board. */
  datatype Settlement = Settlement(outcome: Outcome, players: seq<PlayerId>,
                                   accounts: map<PlayerId, Player>, board: map<int, Property>)

  // ---------------------------------------------------------------------------
  // Accounts and the board, as values.

  /** Every listed space is a property of the board. */
  ghost predicate OnBoard(spaces: seq<int>, board: map<int, Property>) {
    forall i :: 0 <= i < |spaces| ==> spaces[i] in board
  }

  /** The invariant of the game's state: the turn list has no repeats and only
      players with accounts, no balance is negative, every holding is a space of
      the board, every owner has an account, and prices and rents are not negative. */
  ghost predicate Consistent(players: seq<PlayerId>, accounts: map<PlayerId, Player>,
                             board: map<int, Property>) {
    && Distinct(players)
    && (forall p :: p in players ==> p in accounts)
    && (forall p :: p in accounts ==> accounts[p].money >= 0)
    && (forall p, s :: p in accounts && s in accounts[p].properties ==> s in board)
    && (forall s :: s in board && board[s].owner.Some? ==> board[s].owner.value in accounts)
    && (forall s :: s in board ==> board[s].price >= 0 && board[s].rent >= 0)
    && BoardComplete(board)
  }

  /** Player.changeMoney applied to one account. */
  function WithMoney(accounts: map<PlayerId, Player>, p: PlayerId, delta: Money): (r: map<PlayerId, Player>)
    requires p in accounts
    ensures r.Keys == accounts.Keys
    ensures r[p].money == accounts[p].money + delta
    ensures r[p].properties == accounts[p].properties
    ensures forall q :: q in accounts && q != p ==> r[q] == accounts[q]
  {
    accounts[p := accounts[p].(money := accounts[p].money + delta)]
  }

  /** Player.payOther once it succeeds: the payer loses the amount and the payee,
      or the bank when there is none, gains it. */
  function Paid(accounts: map<PlayerId, Player>, payer: PlayerId, payee: Option<PlayerId>, amount: Money)
    : (r: map<PlayerId, Player>)
    requires payer in accounts && (payee.Some? ==> payee.value in accounts)
    ensures r.Keys == accounts.Keys
    ensures payee != Some(payer) ==> r[payer].money == accounts[payer].money - amount
    ensures payee == Some(payer) ==> r[payer] == accounts[payer]
    ensures payee.Some? && payee.value != payer ==> r[payee.value].money == accounts[payee.value].money + amount
    ensures forall q :: q in accounts ==> r[q].properties == accounts[q].properties
    ensures forall q :: q in accounts && q != payer && Some(q) != payee ==> r[q] == accounts[q]
  {
    var debited := WithMoney(accounts, payer, -amount);
    if payee.Some? then WithMoney(debited, payee.value, amount) else debited
  }

  /** The board after eliminate hands the listed spaces back to the bank. */
  function ReleaseAll(board: map<int, Property>, spaces: seq<int>): (r: map<int, Property>)
    ensures r.Keys == board.Keys
    ensures forall s :: s in board && s in spaces ==>
      r[s].owner.None? && r[s].price == board[s].price && r[s].rent == board[s].rent
      && (board[s].kind.Regular? <==> r[s].kind.Regular?)
      && (r[s].kind.Regular? ==> r[s].kind.buildings == NoBuildings)
    ensures forall s :: s in board && s !in spaces ==> r[s] == board[s]
  {
    map s | s in board :: if s in spaces then Released(board[s]) else board[s]
  }

  /** Releasing one more space of the board is one more update of the map. */
  lemma ReleaseOneMore(board: map<int, Property>, spaces: seq<int>, s: int)
    requires s in board
    ensures s in ReleaseAll(board, spaces)
    ensures ReleaseAll(board, spaces + [s]) == ReleaseAll(board, spaces)[s := Released(ReleaseAll(board, spaces)[s])]
  {
    var before := ReleaseAll(board, spaces);
    assert Released(before[s]) == Released(board[s]);
  }

  /** Handing spaces back to the bank keeps the game's state consistent. */
  lemma ReleaseAllKeepsConsistent(players: seq<PlayerId>, accounts: map<PlayerId, Player>,
                                  board: map<int, Property>, spaces: seq<int>)
    requires Consistent(players, accounts, board)
    ensures Consistent(players, accounts, ReleaseAll(board, spaces))
  {
  }

  /** The board after the shark takes over the listed spaces (Player.takeOver). */
  function Transfer(board: map<int, Property>, spaces: seq<int>, shark: PlayerId): (r: map<int, Property>)
    ensures r.Keys == board.Keys
    ensures forall s :: s in board && s in spaces ==> r[s] == board[s].(owner := Some(shark))
    ensures forall s :: s in board && s !in spaces ==> r[s] == board[s]
  {
    map s | s in board :: if s in spaces then board[s].(owner := Some(shark)) else board[s]
  }

  /** The accounts after the shark takes over the loser's holdings and then gains
      the loser's money (Player.takeOver followed by changeMoney(loser.getMoney())). */
  function TakenOver(accounts: map<PlayerId, Player>, loser: PlayerId, shark: PlayerId): (r: map<PlayerId, Player>)
    requires loser in accounts && shark in accounts
    ensures r.Keys == accounts.Keys
    ensures r[shark].properties == accounts[shark].properties + accounts[loser].properties
    ensures loser != shark ==> r[shark].money == accounts[shark].money + accounts[loser].money
    ensures forall q :: q in accounts && q != shark ==> r[q] == accounts[q]
  {
    var grown := accounts[shark := accounts[shark].(properties := accounts[shark].properties + accounts[loser].properties)];
    grown[shark := grown[shark].(money := grown[shark].money + grown[loser].money)]
  }

  /** Card 0 on the accounts: the listed payers, in order, each pay the drawer
      the amount when they can; the drawer and a payer who cannot pay are passed
      over here (the latter is eliminated by the caller). */
  function Collected(accounts: map<PlayerId, Player>, drawer: PlayerId, payers: seq<PlayerId>, amount: Money)
    : (r: map<PlayerId, Player>)
    requires drawer in accounts
    ensures r.Keys == accounts.Keys
    ensures forall q :: q in accounts ==> r[q].properties == accounts[q].properties
    decreases |payers|
  {
    if payers == [] then accounts
    else
      var before := Collected(accounts, drawer, payers[..|payers| - 1], amount);
      var q := payers[|payers| - 1];
      if q == drawer || q !in before || before[q].money < amount then before
      else Paid(before, q, Some(drawer), amount)
  }

  /** Someone who is not in the list of payers is not charged. */
  lemma {:induction false} CollectedSkipsOthers(accounts: map<PlayerId, Player>, drawer: PlayerId,
                                                payers: seq<PlayerId>, amount: Money, q: PlayerId)
    requires drawer in accounts && q in accounts && q != drawer && q !in payers
    ensures Collected(accounts, drawer, payers, amount)[q] == accounts[q]
    decreases |payers|
  {
    if payers != [] {
      CollectedSkipsOthers(accounts, drawer, payers[..|payers| - 1], amount, q);
    }
  }

  /** One more payer of the list is one more step of Collected. */
  lemma CollectedStep(accounts: map<PlayerId, Player>, drawer: PlayerId, payers: seq<PlayerId>,
                      amount: Money, i: nat)
    requires drawer in accounts && i < |payers|
    ensures var before := Collected(accounts, drawer, payers[..i], amount);
      var q := payers[i];
      Collected(accounts, drawer, payers[..i + 1], amount)
      == if q == drawer || q !in before || before[q].money < amount then before
         else Paid(before, q, Some(drawer), amount)
  {
    assert payers[..i + 1][..i] == payers[..i];
  }

  /** The number of players in the list other than the drawer. */
  function Opponents(payers: seq<PlayerId>, drawer: PlayerId): (n: nat)
    ensures n <= |payers|
  {
    if drawer in payers then |payers| - 1 else |payers|
  }

  /** The last member of a list without repetitions is not among the others,
      which have no repetitions either. */
  lemma LastIsNew(s: seq<PlayerId>)
    requires Distinct(s) && s != []
    ensures var init := s[..|s| - 1];
      && Distinct(init) && s[|s| - 1] !in init
      && (forall x :: x in init ==> x in s)
      && (forall x :: x in s <==> x in init || x == s[|s| - 1])
  {
    var init := s[..|s| - 1];
    assert s == init + [s[|s| - 1]];
  }

  lemma OneMore(amount: int, n: nat)
    ensures amount * (n + 1) == amount * n + amount
  {
  }

  /** When every opponent can pay, the drawer gains the amount once per opponent. */
  lemma {:induction false} CollectedByDrawer(accounts: map<PlayerId, Player>, drawer: PlayerId,
                                             payers: seq<PlayerId>, amount: Money)
    requires drawer in accounts && Distinct(payers)
    requires forall q :: q in payers ==> q in accounts && (q != drawer ==> accounts[q].money >= amount)
    ensures Collected(accounts, drawer, payers, amount)[drawer].money
            == accounts[drawer].money + amount * Opponents(payers, drawer)
    decreases |payers|
  {
    if payers != [] {
      var init, q := payers[..|payers| - 1], payers[|payers| - 1];
      LastIsNew(payers);
      CollectedByDrawer(accounts, drawer, init, amount);
      if q != drawer {
        CollectedSkipsOthers(accounts, drawer, init, amount, q);
        var n := Opponents(init, drawer);
        assert Opponents(payers, drawer) == n + 1;
        OneMore(amount, n);
      }
    }
  }

  /** When every opponent can pay, each of them pays the amount exactly once. */
  lemma {:induction false} CollectedFromEach(accounts: map<PlayerId, Player>, drawer: PlayerId,
                                             payers: seq<PlayerId>, amount: Money, p: PlayerId)
    requires drawer in accounts && Distinct(payers)
    requires forall q :: q in payers ==> q in accounts && (q != drawer ==> accounts[q].money >= amount)
    requires p in payers && p != drawer
    ensures Collected(accounts, drawer, payers, amount)[p].money == accounts[p].money - amount
    decreases |payers|
  {
    var init, q := payers[..|payers| - 1], payers[|payers| - 1];
    LastIsNew(payers);
    if p == q {
      CollectedSkipsOthers(accounts, drawer, init, amount, p);
    } else {
      CollectedFromEach(accounts, drawer, init, amount, p);
    }
  }


  /** Player.purchase: the buyer pays the price and the space joins the end of
      the buyer's holdings. */
  function Bought(accounts: map<PlayerId, Player>, buyer: PlayerId, space: int, price: Money)
    : (r: map<PlayerId, Player>)
    requires buyer in accounts
    ensures r.Keys == accounts.Keys
    ensures r[buyer].money == accounts[buyer].money - price
    ensures r[buyer].properties == accounts[buyer].properties + [space]
    ensures forall q :: q in accounts && q != buyer ==> r[q] == accounts[q]
  {
    accounts[buyer := accounts[buyer].(money := accounts[buyer].money - price,
                                       properties := accounts[buyer].properties + [space])]
  }

  /** Player.directlyMove on one account: only the player's space changes. */
  function Moved(accounts: map<PlayerId, Player>, p: PlayerId, dest: int): (r: map<PlayerId, Player>)
    requires p in accounts
    ensures r.Keys == accounts.Keys
    ensures r[p].space == dest && r[p].(space := accounts[p].space) == accounts[p]
    ensures forall q :: q in accounts && q != p ==> r[q] == accounts[q]
  {
    accounts[p := accounts[p].(space := dest)]
  }

  /** Player.directlyMove with its second argument true, used only where the
      player leaves the space station: the player goes to the destination and is
      no longer on the station; nothing else changes. */
  function Departed(accounts: map<PlayerId, Player>, p: PlayerId, dest: int): (r: map<PlayerId, Player>)
    requires p in accounts
    ensures r.Keys == accounts.Keys
    ensures r[p].space == dest && !r[p].onSpaceStation
    ensures r[p].(space := accounts[p].space, onSpaceStation := accounts[p].onSpaceStation) == accounts[p]
    ensures forall q :: q in accounts && q != p ==> r[q] == accounts[q]
  {
    accounts[p := accounts[p].(space := dest, onSpaceStation := false)]
  }

  /** Player.sell on one account: the space leaves the holdings and the proceeds
      are credited; nothing else about the player changes. */
  function Sold(accounts: map<PlayerId, Player>, p: PlayerId, space: int, proceeds: Money): (r: map<PlayerId, Player>)
    requires p in accounts
    ensures r.Keys == accounts.Keys
    ensures r[p].properties == RemoveFirst(accounts[p].properties, space)
    ensures r[p].money == accounts[p].money + proceeds
    ensures r[p].(properties := accounts[p].properties, money := accounts[p].money) == accounts[p]
    ensures forall q :: q in accounts && q != p ==> r[q] == accounts[q]
  {
    accounts[p := accounts[p].(properties := RemoveFirst(accounts[p].properties, space),
                               money := accounts[p].money + proceeds)]
  }

  /** An opponent of the drawer who cannot pay the amount. */
  predicate Short(accounts: map<PlayerId, Player>, q: PlayerId, drawer: PlayerId, amount: Money) {
    q != drawer && q in accounts && accounts[q].money < amount
  }

  /** The index of the first opponent in the list who cannot pay, or the length
      of the list when every opponent can. */
  function FirstShort(payers: seq<PlayerId>, accounts: map<PlayerId, Player>, drawer: PlayerId, amount: Money)
    : (k: nat)
    ensures k <= |payers|
    ensures k < |payers| ==> Short(accounts, payers[k], drawer, amount)
  {
    if payers == [] then 0
    else if Short(accounts, payers[0], drawer, amount) then 0
    else 1 + FirstShort(payers[1..], accounts, drawer, amount)
  }

  /** Every opponent before the first one who cannot pay can pay. */
  lemma {:induction false} FirstShortBefore(payers: seq<PlayerId>, accounts: map<PlayerId, Player>,
                                            drawer: PlayerId, amount: Money, j: nat)
    requires j < FirstShort(payers, accounts, drawer, amount)
    ensures !Short(accounts, payers[j], drawer, amount)
    decreases j
  {
    if j > 0 {
      FirstShortBefore(payers[1..], accounts, drawer, amount, j - 1);
    }
  }

  /** One more payer at the end of the list: the first short one stays where it
      was, or is the new payer, or there still is none. */
  lemma {:induction false} FirstShortSnoc(payers: seq<PlayerId>, accounts: map<PlayerId, Player>,
                                          drawer: PlayerId, amount: Money, x: PlayerId)
    ensures FirstShort(payers + [x], accounts, drawer, amount)
            == if FirstShort(payers, accounts, drawer, amount) < |payers| then FirstShort(payers, accounts, drawer, amount)
               else if Short(accounts, x, drawer, amount) then |payers| else |payers| + 1
    decreases |payers|
  {
    if payers != [] {
      assert (payers + [x])[1..] == payers[1..] + [x];
      FirstShortSnoc(payers[1..], accounts, drawer, amount, x);
    }
  }

  /** FirstShortSnoc on a prefix of the list. */
  lemma FirstShortStep(payers: seq<PlayerId>, accounts: map<PlayerId, Player>,
                       drawer: PlayerId, amount: Money, i: nat)
    requires i < |payers|
    ensures FirstShort(payers[..i + 1], accounts, drawer, amount)
            == if FirstShort(payers[..i], accounts, drawer, amount) < i then FirstShort(payers[..i], accounts, drawer, amount)
               else if Short(accounts, payers[i], drawer, amount) then i else i + 1
  {
    assert payers[..i + 1] == payers[..i] + [payers[i]];
    FirstShortSnoc(payers[..i], accounts, drawer, amount, payers[i]);
  }

  /** In a list without repetitions, no member occurs before its own index. */
  lemma NotBefore<T>(s: seq<T>, i: nat)
    requires Distinct(s) && i < |s|
    ensures s[i] !in s[..i]
  {
  }

  /** Nobody short among the first i payers, and the next one short or none left:
      the first short payer of the whole list is at i. */
  lemma {:induction false} FirstShortAt(payers: seq<PlayerId>, accounts: map<PlayerId, Player>,
                                        drawer: PlayerId, amount: Money, i: nat)
    requires i <= |payers| && FirstShort(payers[..i], accounts, drawer, amount) == i
    requires i < |payers| ==> Short(accounts, payers[i], drawer, amount)
    ensures FirstShort(payers, accounts, drawer, amount) == i
    decreases i
  {
    if i == |payers| {
      assert payers[..i] == payers;
    } else if i > 0 {
      assert payers[..i][1..] == payers[1..][..i - 1];
      FirstShortAt(payers[1..], accounts, drawer, amount, i - 1);
    }
  }

  /** Card 0 as a whole. The opponents, in list order, pay the drawer until the
      first one who cannot pay; that one is eliminated with the drawer as shark.
      The for-each loop over the list then throws ConcurrentModificationException
      at its next step, unless the eliminated opponent was second to last, where
      the loop simply ends and the last player pays nothing. */
  function CardZero(players: seq<PlayerId>, accounts: map<PlayerId, Player>, board: map<int, Property>,
                    drawer: PlayerId, amount: Money): (r: Settlement)
    requires drawer in accounts && forall q :: q in players ==> q in accounts
    ensures r.accounts.Keys == accounts.Keys && r.board.Keys == board.Keys
    ensures r.outcome.Aborted? ==> r.outcome.reason == ConcurrentModification
    ensures FirstShort(players, accounts, drawer, amount) == |players| ==>
      r.outcome == Closed && r.players == players && r.board == board
    ensures FirstShort(players, accounts, drawer, amount) < |players| ==>
      |r.players| == |players| - 1 && drawer in accounts
      && (r.outcome == Closed <==> FirstShort(players, accounts, drawer, amount) == |players| - 2)
  {
    var k := FirstShort(players, accounts, drawer, amount);
    if k == |players| then Settlement(Closed, players, Collected(accounts, drawer, players, amount), board)
    else
      var loser := players[k];
      Settlement(if k == |players| - 2 then Closed else Aborted(ConcurrentModification),
                 RemoveFirst(players, loser),
                 TakenOver(Collected(accounts, drawer, players[..k], amount), loser, drawer),
                 Transfer(board, accounts[loser].properties, drawer))
  }

  /** Card 0 when the opponent at index k is the first who cannot pay. */
  lemma CardZeroStopsAt(players: seq<PlayerId>, accounts: map<PlayerId, Player>, board: map<int, Property>,
                        drawer: PlayerId, amount: Money, k: nat)
    requires drawer in accounts && forall q :: q in players ==> q in accounts
    requires k < |players| && k == FirstShort(players, accounts, drawer, amount)
    ensures CardZero(players, accounts, board, drawer, amount)
            == Settlement(if k + 1 != |players| - 1 then Aborted(ConcurrentModification) else Closed,
                          RemoveFirst(players, players[k]),
                          TakenOver(Collected(accounts, drawer, players[..k], amount), players[k], drawer),
                          Transfer(board, accounts[players[k]].properties, drawer))
  {
  }

  /** Card 0 when every opponent can pay. */
  lemma CardZeroRunsThrough(players: seq<PlayerId>, accounts: map<PlayerId, Player>, board: map<int, Property>,
                            drawer: PlayerId, amount: Money)
    requires drawer in accounts && forall q :: q in players ==> q in accounts
    requires FirstShort(players, accounts, drawer, amount) == |players|
    ensures CardZero(players, accounts, board, drawer, amount)
            == Settlement(Closed, players, Collected(accounts, drawer, players, amount), board)
  {
  }

  /** Card 0 closes with nobody eliminated, every opponent paying the drawer,
      exactly when every opponent can pay. */
  lemma CardZeroAllPay(players: seq<PlayerId>, accounts: map<PlayerId, Player>, board: map<int, Property>,
                       drawer: PlayerId, amount: Money)
    requires drawer in accounts && forall q :: q in players ==> q in accounts
    ensures (forall q :: q in players && q != drawer ==> accounts[q].money >= amount)
            <==> CardZero(players, accounts, board, drawer, amount)
                 == Settlement(Closed, players, Collected(accounts, drawer, players, amount), board)
  {
    var k := FirstShort(players, accounts, drawer, amount);
    if k < |players| {
      assert Short(accounts, players[k], drawer, amount);
    } else {
      forall q | q in players && q != drawer
        ensures accounts[q].money >= amount
      {
        var j :| 0 <= j < |players| && players[j] == q;
        FirstShortBefore(players, accounts, drawer, amount, j);
      }
    }
  }

  /** Card 0's walk over the first k players, none of whom is short: each
      opponent among them has paid the amount once, the drawer has gained it
      once per opponent, and the players from k on have not been charged. */
  lemma PrefixPaid(players: seq<PlayerId>, accounts: map<PlayerId, Player>, drawer: PlayerId,
                   amount: Money, k: nat)
    requires Distinct(players) && drawer in accounts && forall q :: q in players ==> q in accounts
    requires k <= |players| && k <= FirstShort(players, accounts, drawer, amount)
    ensures var c := Collected(accounts, drawer, players[..k], amount);
      && c[drawer].money == accounts[drawer].money + amount * Opponents(players[..k], drawer)
      && (forall j :: 0 <= j < k && players[j] != drawer ==> c[players[j]].money == accounts[players[j]].money - amount)
      && (forall j :: k <= j < |players| && players[j] != drawer ==> c[players[j]] == accounts[players[j]])
  {
    var prefix := players[..k];
    forall q | q in prefix
      ensures q in accounts && (q != drawer ==> accounts[q].money >= amount)
    {
      var j :| 0 <= j < k && players[j] == q;
      FirstShortBefore(players, accounts, drawer, amount, j);
    }
    CollectedByDrawer(accounts, drawer, prefix, amount);
    forall j | 0 <= j < k && players[j] != drawer
      ensures Collected(accounts, drawer, prefix, amount)[players[j]].money == accounts[players[j]].money - amount
    {
      CollectedFromEach(accounts, drawer, prefix, amount, players[j]);
    }
    forall j | k <= j < |players| && players[j] != drawer
      ensures Collected(accounts, drawer, prefix, amount)[players[j]] == accounts[players[j]]
    {
      assert players[j] !in prefix;
      CollectedSkipsOthers(accounts, drawer, prefix, amount, players[j]);
    }
  }

  /** Card 0 when the opponent at index k is the first who cannot pay: that
      opponent leaves the turn list and the others keep their order. */
  lemma CardZeroRemovesFirstShort(players: seq<PlayerId>, accounts: map<PlayerId, Player>,
                                  board: map<int, Property>, drawer: PlayerId, amount: Money, k: nat)
    requires Distinct(players) && drawer in accounts && forall q :: q in players ==> q in accounts
    requires k < |players| && k == FirstShort(players, accounts, drawer, amount)
    ensures var r := CardZero(players, accounts, board, drawer, amount);
      && players[k] != drawer && accounts[players[k]].money < amount
      && (r.outcome == Closed <==> k == |players| - 2)
      && |r.players| == |players| - 1 && players[k] !in r.players
      && (forall j :: 0 <= j < k ==> r.players[j] == players[j])
      && (forall j :: k <= j < |r.players| ==> r.players[j] == players[j + 1])
  {
    CardZeroStopsAt(players, accounts, board, drawer, amount, k);
    NotBefore(players, k);
    RemoveFromDistinct(players, players[k]);
  }

  /** Card 0 when the opponent at index k is the first who cannot pay, on the
      accounts: every opponent before k has paid the amount once and every one
      after k pays nothing; the drawer gains those payments plus the loser's
      money, and the loser's holdings join the drawer's. */
  lemma CardZeroChargesBeforeFirstShort(players: seq<PlayerId>, accounts: map<PlayerId, Player>,
                                        board: map<int, Property>, drawer: PlayerId, amount: Money, k: nat)
    requires Distinct(players) && drawer in accounts && forall q :: q in players ==> q in accounts
    requires k < |players| && k == FirstShort(players, accounts, drawer, amount)
    ensures var r := CardZero(players, accounts, board, drawer, amount);
      && (forall j :: 0 <= j < k && players[j] != drawer ==>
            r.accounts[players[j]].money == accounts[players[j]].money - amount)
      && (forall j :: k < j < |players| && players[j] != drawer ==> r.accounts[players[j]] == accounts[players[j]])
      && r.accounts[drawer].money
         == accounts[drawer].money + amount * Opponents(players[..k], drawer) + accounts[players[k]].money
      && r.accounts[drawer].properties == accounts[drawer].properties + accounts[players[k]].properties
  {
    CardZeroStopsAt(players, accounts, board, drawer, amount, k);
    PrefixPaid(players, accounts, drawer, amount, k);
  }

  /** Card 0 when the opponent at index k is the first who cannot pay, on the
      board: the drawer owns the loser's spaces and every other space is as it was. */
  lemma CardZeroHandsOverFirstShort(players: seq<PlayerId>, accounts: map<PlayerId, Player>,
                                    board: map<int, Property>, drawer: PlayerId, amount: Money, k: nat)
    requires drawer in accounts && forall q :: q in players ==> q in accounts
    requires k < |players| && k == FirstShort(players, accounts, drawer, amount)
    ensures var r := CardZero(players, accounts, board, drawer, amount);
      && (forall s :: s in board && s in accounts[players[k]].properties ==> r.board[s].owner == Some(drawer))
      && (forall s :: s in board && s !in accounts[players[k]].properties ==> r.board[s] == board[s])
  {
    CardZeroStopsAt(players, accounts, board, drawer, amount, k);
  }

  /** Card 0 when every opponent can pay, field by field: nobody leaves, the
      board is untouched, each opponent pays the amount once and the drawer gains
      it once per opponent. */
  lemma CardZeroEveryonePays(players: seq<PlayerId>, accounts: map<PlayerId, Player>,
                             board: map<int, Property>, drawer: PlayerId, amount: Money)
    requires Distinct(players) && drawer in accounts && forall q :: q in players ==> q in accounts
    requires forall q :: q in players && q != drawer ==> accounts[q].money >= amount
    ensures var r := CardZero(players, accounts, board, drawer, amount);
      && r.outcome == Closed && r.players == players && r.board == board
      && (forall j :: 0 <= j < |players| && players[j] != drawer ==>
            r.accounts[players[j]].money == accounts[players[j]].money - amount
            && r.accounts[players[j]].properties == accounts[players[j]].properties)
      && r.accounts[drawer].money == accounts[drawer].money + amount * Opponents(players, drawer)
      && r.accounts[drawer].properties == accounts[drawer].properties
  {
    CardZeroAllPay(players, accounts, board, drawer, amount);
    assert players[..|players|] == players;
    PrefixPaid(players, accounts, drawer, amount, |players|);
  }

  /** Cards 16 and 29 as a whole: the drawer pays the owner of the space, if it
      has one, and players.get(turn) then moves straight to dest. A drawer who
      cannot pay is eliminated with the owner as shark, so the move goes to
      whoever now sits at the drawer's index, or throws when nobody does. */
  function PayOwnerThenMove(players: seq<PlayerId>, accounts: map<PlayerId, Player>, board: map<int, Property>,
                            turn: nat, space: int, amount: Money, dest: int): (r: Settlement)
    requires turn < |players| && forall q :: q in players ==> q in accounts
    requires space in board && (board[space].owner.Some? ==> board[space].owner.value in accounts)
    ensures r.accounts.Keys == accounts.Keys && r.board.Keys == board.Keys
    ensures r.outcome.Aborted? ==> r.outcome.reason == IndexOutOfBounds
    ensures board[space].owner.None? || accounts[players[turn]].money >= amount ==>
      r.outcome == Closed && r.players == players && r.board == board
      && r.accounts[players[turn]].space == dest
    ensures board[space].owner.Some? && accounts[players[turn]].money < amount ==>
      r.players == RemoveFirst(players, players[turn])
      && (r.outcome == Closed <==> turn < |r.players|)
  {
    MovedAt(OwnerPaid(players, accounts, board, players[turn], space, amount), turn, dest)
  }

  /** The first half of cards 16 and 29: the player pays the owner of the space,
      if it has one, or is eliminated with the owner as shark. */
  function OwnerPaid(players: seq<PlayerId>, accounts: map<PlayerId, Player>, board: map<int, Property>,
                     p: PlayerId, space: int, amount: Money): (r: Settlement)
    requires p in accounts && space in board
    requires board[space].owner.Some? ==> board[space].owner.value in accounts
    ensures r.outcome == Closed && r.accounts.Keys == accounts.Keys && r.board.Keys == board.Keys
    ensures board[space].owner.None? ==> r == Settlement(Closed, players, accounts, board)
    ensures board[space].owner.Some? && accounts[p].money >= amount ==>
      r == Settlement(Closed, players, Paid(accounts, p, board[space].owner, amount), board)
    ensures board[space].owner.Some? && accounts[p].money < amount ==>
      && r.players == RemoveFirst(players, p)
      && r.accounts == TakenOver(accounts, p, board[space].owner.value)
      && r.board == Transfer(board, accounts[p].properties, board[space].owner.value)
    ensures board[space].owner.Some? && board[space].owner.value != p && accounts[p].money >= amount ==>
      var o := board[space].owner.value;
      && r.accounts[p].money == accounts[p].money - amount
      && r.accounts[o].money == accounts[o].money + amount
      && (forall q :: q in accounts ==> r.accounts[q].properties == accounts[q].properties)
      && (forall q :: q in accounts && q != p && q != o ==> r.accounts[q] == accounts[q])
    ensures board[space].owner.Some? && board[space].owner.value != p && accounts[p].money < amount ==>
      var o := board[space].owner.value;
      && r.accounts[o].money == accounts[o].money + accounts[p].money
      && r.accounts[o].properties == accounts[o].properties + accounts[p].properties
      && (forall q :: q in accounts && q != o ==> r.accounts[q] == accounts[q])
      && (forall s :: s in board && s in accounts[p].properties ==> r.board[s].owner == Some(o))
      && (forall s :: s in board && s !in accounts[p].properties ==> r.board[s] == board[s])
    ensures board[space].owner == Some(p) && accounts[p].money >= amount ==>
      r.players == players && r.board == board && forall q :: q in accounts ==> r.accounts[q] == accounts[q]
    ensures board[space].owner == Some(p) && accounts[p].money < amount ==>
      && r.accounts[p].money == 2 * accounts[p].money
      && r.accounts[p].properties == accounts[p].properties + accounts[p].properties
      && (forall q :: q in accounts && q != p ==> r.accounts[q] == accounts[q])
  {
    var owner := board[space].owner;
    if owner.None? || accounts[p].money >= amount then
      Settlement(Closed, players, if owner.None? then accounts else Paid(accounts, p, owner, amount), board)
    else
      Settlement(Closed, RemoveFirst(players, p), TakenOver(accounts, p, owner.value),
                 Transfer(board, accounts[p].properties, owner.value))
  }

  /** The second half of cards 16 and 29: players.get(turn) moves straight to
      dest, or the lookup throws when the index is past the end of the list. */
  function MovedAt(s: Settlement, turn: nat, dest: int): (r: Settlement)
    requires forall q :: q in s.players ==> q in s.accounts
    ensures r.players == s.players && r.board == s.board && r.accounts.Keys == s.accounts.Keys
    ensures r.outcome == (if turn < |s.players| then s.outcome else Aborted(IndexOutOfBounds))
    ensures turn < |s.players| ==> r.accounts == Moved(s.accounts, s.players[turn], dest)
    ensures turn >= |s.players| ==> r.accounts == s.accounts
    ensures turn < |s.players| ==>
      var p := s.players[turn];
      && r.accounts[p].space == dest
      && r.accounts[p].(space := s.accounts[p].space) == s.accounts[p]
      && (forall q :: q in s.accounts && q != p ==> r.accounts[q] == s.accounts[q])
  {
    if turn < |s.players| then s.(accounts := Moved(s.accounts, s.players[turn], dest))
    else s.(outcome := Aborted(IndexOutOfBounds))
  }

  /** When the drawer of card 16 or 29 cannot pay and is not last in the list,
      the player after the drawer is the one moved. */
  lemma InsolventDrawerMovesNext(players: seq<PlayerId>, accounts: map<PlayerId, Player>, board: map<int, Property>,
                                 turn: nat, space: int, amount: Money, dest: int)
    requires Distinct(players) && turn + 1 < |players| && forall q :: q in players ==> q in accounts
    requires space in board && board[space].owner.Some? && board[space].owner.value in accounts
    requires accounts[players[turn]].money < amount
    ensures var r := PayOwnerThenMove(players, accounts, board, turn, space, amount, dest);
      r.outcome == Closed && r.players[turn] == players[turn + 1]
      && players[turn + 1] in r.accounts && r.accounts[players[turn + 1]].space == dest
  {
    assert IndexOf(players, players[turn]) == turn;
    RemoveFirstShifts(players, players[turn]);
  }

  /** Cards 22 and 23 as a whole, given the holding to sell: Player.sell, after
      which the bank owns the property, then changeMoney(-price / 2), which
      throws NotEnoughMoneyException, changing nothing, on a short balance. */
  function SellHalf(players: seq<PlayerId>, accounts: map<PlayerId, Player>, board: map<int, Property>,
                    p: PlayerId, space: int, proceeds: Money): (r: Settlement)
    requires p in accounts && space in board
    ensures r.players == players && r.accounts.Keys == accounts.Keys
    ensures r.board == board[space := board[space].(owner := None)]
    ensures r.outcome == Closed <==> accounts[p].money + proceeds >= board[space].price / 2
    ensures r.outcome.Aborted? ==> r.outcome.reason == NotEnoughMoney
    ensures r.accounts[p].properties == RemoveFirst(accounts[p].properties, space)
    ensures r.accounts[p].money
      == accounts[p].money + proceeds - (if r.outcome == Closed then board[space].price / 2 else 0)
    ensures r.accounts[p].(properties := accounts[p].properties, money := accounts[p].money) == accounts[p]
    ensures forall q :: q in accounts && q != p ==> r.accounts[q] == accounts[q]
  {
    var sold := Sold(accounts, p, space, proceeds);
    var unowned := board[space := board[space].(owner := None)];
    var half := board[space].price / 2;
    if sold[p].money - half >= 0 then Settlement(Closed, players, WithMoney(sold, p, -half), unowned)
    else Settlement(Aborted(NotEnoughMoney), players, sold, unowned)
  }

  /** SellHalf as its two steps: Player.sell, then changeMoney(-price / 2) on
      the seller's new balance. */
  lemma SellHalfSteps(players: seq<PlayerId>, accounts: map<PlayerId, Player>, board: map<int, Property>,
                      p: PlayerId, space: int, proceeds: Money)
    requires p in accounts && space in board
    ensures var sold := Sold(accounts, p, space, proceeds);
      var half := board[space].price / 2;
      SellHalf(players, accounts, board, p, space, proceeds)
      == Settlement(if sold[p].money + -half >= 0 then Closed else Aborted(NotEnoughMoney), players,
                    if sold[p].money + -half >= 0 then WithMoney(sold, p, -half) else sold,
                    board[space := board[space].(owner := None)])
  {
  }

  /** Player.enterSpaceStation. */
  function Boarded(accounts: map<PlayerId, Player>, p: PlayerId): (r: map<PlayerId, Player>)
    requires p in accounts
    ensures r.Keys == accounts.Keys && r[p].onSpaceStation
    ensures r[p] == accounts[p].(onSpaceStation := true)
    ensures forall q :: q in accounts && q != p ==> r[q] == accounts[q]
  {
    accounts[p := accounts[p].(onSpaceStation := true)]
  }

  lemma HoldingsOnBoard(players: seq<PlayerId>, accounts: map<PlayerId, Player>, board: map<int, Property>, p: PlayerId)
    requires Consistent(players, accounts, board) && p in accounts
    ensures OnBoard(accounts[p].properties, board)
  {
    var spaces := accounts[p].properties;
    forall i | 0 <= i < |spaces|
      ensures spaces[i] in board
    {
      var s := spaces[i];
      assert s in accounts[p].properties;
    }
  }

  /** The current player's holdings, in list order. */
  function Holdings(spaces: seq<int>, board: map<int, Property>): (r: seq<Property>)
    requires OnBoard(spaces, board)
    ensures |r| == |spaces| && forall i :: 0 <= i < |spaces| ==> r[i] == board[spaces[i]]
  {
    seq(|spaces|, i requires 0 <= i < |spaces| => board[spaces[i]])
  }

  /** The amounts a Golden Key popup carries agree with the card and with the
      holdings (listed by space) of the player who drew it. */
  ghost predicate CardPrepared(id: int, fee: Money, most: Option<int>, spaces: seq<int>, board: map<int, Property>)
    requires OnBoard(spaces, board)
  {
    var holdings := Holdings(spaces, board);
    && fee >= 0
    && (CardEffect(id).BuildingFee? ==> fee == Fees.BuildingFee(holdings, CardEffect(id).weights))
    && (!CardEffect(id).BuildingFee? ==> fee == 0)
    && (most.Some? <==> CardEffect(id).SellMostExpensive? && spaces != [])
    && (most.Some? ==> exists k :: 0 <= k < |spaces| && Fees.IsFirstMaximum(holdings, k) && spaces[k] == most.value)
  }

  /** What showPopup works out before a Golden Key popup is shown: the building
      fee of cards 17, 20 and 25, and the first most expensive holding of cards
      22 and 23 (None when the player holds nothing). */
  method CardAmounts(id: int, holdings: seq<Property>) returns (fee: Money, most: Option<nat>)
    ensures fee >= 0
    ensures CardEffect(id).BuildingFee? ==> fee == Fees.BuildingFee(holdings, CardEffect(id).weights)
    ensures !CardEffect(id).BuildingFee? ==> fee == 0
    ensures most.Some? <==> CardEffect(id).SellMostExpensive? && holdings != []
    ensures most.Some? ==> Fees.IsFirstMaximum(holdings, most.value)
  {
    fee, most := 0, None;
    if id == 22 || id == 23 {
      most := Fees.MostExpensive(holdings);
    } else if id == 17 {
      fee := Fees.ComputeFee(holdings, Fees.Card17Weights);
      Fees.FeeNonNegative(holdings, Fees.Card17Weights);
    } else if id == 20 {
      fee := Fees.ComputeFee(holdings, Fees.Card20Weights);
      Fees.FeeNonNegative(holdings, Fees.Card20Weights);
    } else if id == 25 {
      fee := Fees.ComputeFee(holdings, Fees.Card25Weights);
      Fees.FeeNonNegative(holdings, Fees.Card25Weights);
    }
  }

  // ---------------------------------------------------------------------------

  class GameManager {
    var players: seq<PlayerId>
    var turn: nat
    var rollingPhase: bool
    var gotDouble: bool
    var welfare: Money
    var freeSpaceStation: bool
    var worldTour: bool
    /** Set when a card replaced the popup's on-hidden handler by an empty one. */
    var closeIgnored: bool
    var accounts: map<PlayerId, Player>
    var spaceToProperty: map<int, Property>
    var goldenKeys: seq<int>

    ghost predicate Valid()
      reads this`players, this`accounts, this`spaceToProperty, this`welfare, this`goldenKeys
    {
      && welfare >= 0
      && IsDeck(goldenKeys)
      && Consistent(players, accounts, spaceToProperty)
    }

    /** players.get(turn) does not throw. */
    predicate HasCurrent()
      reads this`players, this`turn
    {
      turn < |players|
    }

    function Current(): PlayerId
      reads this`players, this`turn
      requires HasCurrent()
    {
      players[turn]
    }

    /** A fresh game: the roster in turn order, each player with the starting
        money on GO, the board with every property unowned, and the Golden Key
        deck as Collections.shuffle left it. */
    constructor (roster: seq<PlayerId>, startMoney: Money, board: map<int, Property>, shuffled: seq<int>)
      requires Distinct(roster) && startMoney >= 0
      requires BoardComplete(board)
      requires forall s :: s in board ==> board[s].owner.None? && board[s].price >= 0 && board[s].rent >= 0
      requires IsDeck(shuffled)
      ensures Valid()
      ensures players == roster && turn == 0 && spaceToProperty == board && goldenKeys == shuffled
      ensures !rollingPhase && !gotDouble && !freeSpaceStation && !worldTour && !closeIgnored && welfare == 0
      ensures forall p :: p in roster ==> p in accounts && accounts[p] == Player(startMoney, GoSpace, [], false, 0, false, 0)
    {
      players := roster;
      turn := 0;
      rollingPhase, gotDouble, freeSpaceStation, worldTour, closeIgnored := false, false, false, false, false;
      welfare := 0;
      accounts := map p | p in roster :: Player(startMoney, GoSpace, [], false, 0, false, 0);
      spaceToProperty := board;
      goldenKeys := shuffled;
    }

    /** nextTurn: a double keeps the turn (and is used up); otherwise the turn
        passes on and wraps to the first player. */
    method NextTurn() returns (r: Option<PlayerId>)
      modifies this`turn, this`gotDouble, this`rollingPhase
      ensures turn == NextIndex(old(turn), old(gotDouble), |players|)
      ensures !gotDouble && rollingPhase
      ensures r == if turn < |players| then Some(players[turn]) else None
    {
      if gotDouble {
        gotDouble := false;
      } else {
        turn := turn + 1;
        if turn >= |players| {
          turn := 0;
        }
      }
      rollingPhase := true;
      r := if turn < |players| then Some(players[turn]) else None;
    }

    /** beginGame: start from the seat the random draw picked and pass the turn on. */
    method BeginGame(first: nat) returns (p: PlayerId)
      requires first < |players|
      modifies this`turn, this`gotDouble, this`rollingPhase
      ensures HasCurrent() && p == Current()
      ensures turn == NextIndex(first, old(gotDouble), |players|)
      ensures !gotDouble && rollingPhase
    {
      turn := first;
      rollingPhase := true;
      var r := NextTurn();
      p := r.value;
    }

    /** rollDice: the two values come from the random source. */
    method RollDice(die1: int, die2: int) returns (sum: int)
      requires 1 <= die1 <= 6 && 1 <= die2 <= 6
      modifies this`gotDouble
      ensures gotDouble <==> die1 == die2
      ensures sum == die1 + die2 && 2 <= sum <= 12
    {
      gotDouble := die1 == die2;
      sum := die1 + die2;
    }

    /** drawGoldenKeyCard: the head of the deck is returned and goes to the back. */
    method DrawGoldenKeyCard() returns (id: int)
      requires Valid()
      modifies this`goldenKeys
      ensures Valid()
      ensures id == old(goldenKeys)[0] && goldenKeys == Rotate(old(goldenKeys))
      ensures 0 <= id < DeckSize
    {
      DeckHasThirtyCards(goldenKeys);
      id := goldenKeys[0];
      goldenKeys := goldenKeys[1..];
      goldenKeys := goldenKeys + [id];
      RotateKeepsCards(old(goldenKeys));
      assert id in multiset(Ordered(DeckSize));
    }

    // -------------------------------------------------------------------------
    // The Player methods GameManager calls, on the accounts.

    /** Player.changeMoney: refused with NotEnoughMoneyException when the balance
        would go negative. */
    method ChangeMoney(p: PlayerId, delta: Money) returns (ok: bool)
      requires Valid() && p in accounts
      modifies this`accounts
      ensures Valid()
      ensures ok <==> old(accounts[p].money) + delta >= 0
      ensures accounts == if ok then WithMoney(old(accounts), p, delta) else old(accounts)
    {
      ok := accounts[p].money + delta >= 0;
      if ok {
        accounts := WithMoney(accounts, p, delta);
      }
    }

    /** Player.payOther: BankruptcyException, with nothing paid, when the payer
        cannot cover the amount. */
    method PayOther(payer: PlayerId, payee: Option<PlayerId>, amount: Money) returns (bankrupt: bool)
      requires Valid() && payer in accounts && (payee.Some? ==> payee.value in accounts) && amount >= 0
      modifies this`accounts
      ensures Valid()
      ensures bankrupt <==> old(accounts[payer].money) < amount
      ensures accounts == if bankrupt then old(accounts) else Paid(old(accounts), payer, payee, amount)
    {
      bankrupt := accounts[payer].money < amount;
      if !bankrupt {
        accounts := Paid(accounts, payer, payee, amount);
      }
    }

    /** Player.directlyMove: straight to a space; with leavesStation (true only
        at the station exit) the player is also taken off the space station. */
    method DirectlyMove(p: PlayerId, dest: int, leavesStation: bool)
      requires Valid() && p in accounts
      modifies this`accounts
      ensures Valid()
      ensures accounts == if leavesStation then Departed(old(accounts), p, dest) else Moved(old(accounts), p, dest)
    {
      if leavesStation {
        accounts := accounts[p := accounts[p].(space := dest, onSpaceStation := false)];
      } else {
        accounts := accounts[p := accounts[p].(space := dest)];
      }
    }

    // -------------------------------------------------------------------------
    // Elimination.

    /** eliminate: a debt to the bank sends every holding of the loser back to the
        bank, unowned and without buildings; a debt to a player (the shark) hands
        the shark the holdings and then the loser's money. Either way the loser
        leaves the turn list and the others keep their order; the turn index is
        not touched. */
    method Eliminate(loser: PlayerId, shark: Option<PlayerId>)
      requires Valid() && loser in players && (shark.Some? ==> shark.value in accounts)
      modifies this`players, this`accounts, this`spaceToProperty
      ensures Valid()
      ensures players == RemoveFirst(old(players), loser)
      ensures shark.None? ==> accounts == old(accounts)
      ensures shark.None? ==>
        spaceToProperty == ReleaseAll(old(spaceToProperty), old(accounts[loser].properties))
      ensures shark.Some? ==> accounts == TakenOver(old(accounts), loser, shark.value)
      ensures shark.Some? ==>
        spaceToProperty == Transfer(old(spaceToProperty), old(accounts[loser].properties), shark.value)
    {
      if shark.None? {
        ReturnToBank(loser);
      } else {
        HandOver(loser, shark.value);
      }
      RemovePlayer(loser);
    }

    /** eliminate, debt to the bank: every holding of the loser, one by one, loses
        its owner and its buildings. */
    method ReturnToBank(loser: PlayerId)
      requires Valid() && loser in accounts
      modifies this`spaceToProperty
      ensures Valid()
      ensures spaceToProperty == ReleaseAll(old(spaceToProperty), accounts[loser].properties)
    {
      var holdings := accounts[loser].properties;
      var i := 0;
      while i < |holdings|
        invariant 0 <= i <= |holdings|
        invariant spaceToProperty == ReleaseAll(old(spaceToProperty), holdings[..i])
      {
        var s := holdings[i];
        ReleaseOneMore(old(spaceToProperty), holdings[..i], s);
        spaceToProperty := spaceToProperty[s := Released(spaceToProperty[s])];
        assert holdings[..i + 1] == holdings[..i] + [s];
        i := i + 1;
      }
      assert holdings[..|holdings|] == holdings;
      ReleaseAllKeepsConsistent(players, accounts, old(spaceToProperty), holdings);
    }

    /** eliminate, debt to a player: the shark takes over the loser's holdings
        (Player.takeOver) and then the loser's money. */
    method HandOver(loser: PlayerId, shark: PlayerId)
      requires Valid() && loser in accounts && shark in accounts
      modifies this`spaceToProperty, this`accounts
      ensures Valid()
      ensures spaceToProperty == Transfer(old(spaceToProperty), old(accounts[loser].properties), shark)
      ensures accounts == TakenOver(old(accounts), loser, shark)
    {
      spaceToProperty := Transfer(spaceToProperty, accounts[loser].properties, shark);
      accounts := TakenOver(accounts, loser, shark);
    }

    /** players.remove(loser). */
    method RemovePlayer(loser: PlayerId)
      requires Valid() && loser in players
      modifies this`players
      ensures Valid()
      ensures players == RemoveFirst(old(players), loser)
    {
      RemoveFromDistinct(players, loser);
      players := RemoveFirst(players, loser);
    }

    // -------------------------------------------------------------------------
    // Landing: showPopup and the buttons of its popups.

    /** showPopup. A pending world tour swallows the landing and passes the turn;
        otherwise the landing is decided (Land). */
    method ShowPopup(space: int) returns (popup: Popup)
      requires Valid() && HasCurrent()
      modifies this`worldTour, this`turn, this`gotDouble, this`rollingPhase, this`closeIgnored
      modifies this`accounts, this`freeSpaceStation, this`goldenKeys
      ensures Valid() && !worldTour
      ensures old(worldTour) ==>
        (&& popup == TourFinished
         && turn == NextIndex(old(turn), old(gotDouble), |players|) && !gotDouble
         && accounts == old(accounts) && goldenKeys == old(goldenKeys)
         && freeSpaceStation == old(freeSpaceStation) && closeIgnored == old(closeIgnored))
      ensures !old(worldTour) ==> !closeIgnored
      ensures !old(worldTour) && space == SpaceStationSpace && old(freeSpaceStation) ==>
        popup == EnteredFree && !freeSpaceStation
        && turn == NextIndex(old(turn), old(gotDouble), |players|) && !gotDouble
        && accounts == old(accounts)[old(Current()) := old(accounts[Current()]).(onSpaceStation := true)]
        && goldenKeys == old(goldenKeys)
      ensures !old(worldTour) && space in GoldenKeySpaces ==>
        popup.Card? && popup.id == old(goldenKeys)[0] && goldenKeys == Rotate(old(goldenKeys))
        && OnBoard(old(accounts[Current()].properties), spaceToProperty)
        && CardPrepared(popup.id, popup.fee, popup.mostExpensive, old(accounts[Current()].properties), spaceToProperty)
        && turn == old(turn) && gotDouble == old(gotDouble) && accounts == old(accounts)
        && freeSpaceStation == old(freeSpaceStation)
      ensures !old(worldTour) && !(space == SpaceStationSpace && old(freeSpaceStation)) && space !in GoldenKeySpaces ==>
        popup == Ask(Dispatch(space, spaceToProperty, old(Current()), old(accounts[Current()].tickets),
                              welfare, freeSpaceStation))
        && turn == old(turn) && gotDouble == old(gotDouble) && accounts == old(accounts)
        && goldenKeys == old(goldenKeys) && freeSpaceStation == old(freeSpaceStation)
    {
      if worldTour {
        worldTour := false;
        var _ := NextTurn();
        popup := TourFinished;
      } else {
        popup := Land(space);
      }
    }

    /** showPopup without a world tour: the popup's close handler is reset to the
        usual one and the landing is decided. The space-station pass is used at
        once and passes the turn; a Golden Key space draws a card and works out
        its amounts; any other space puts its decision to the player and changes
        nothing yet. */
    method Land(space: int) returns (popup: Popup)
      requires Valid() && HasCurrent()
      modifies this`turn, this`gotDouble, this`rollingPhase, this`closeIgnored
      modifies this`accounts, this`freeSpaceStation, this`goldenKeys
      ensures Valid() && !closeIgnored
      ensures space == SpaceStationSpace && old(freeSpaceStation) ==>
        popup == EnteredFree && !freeSpaceStation
        && turn == NextIndex(old(turn), old(gotDouble), |players|) && !gotDouble
        && accounts == old(accounts)[old(Current()) := old(accounts[Current()]).(onSpaceStation := true)]
        && goldenKeys == old(goldenKeys)
      ensures space in GoldenKeySpaces ==>
        popup.Card? && popup.id == old(goldenKeys)[0] && goldenKeys == Rotate(old(goldenKeys))
        && OnBoard(old(accounts[Current()].properties), spaceToProperty)
        && CardPrepared(popup.id, popup.fee, popup.mostExpensive, old(accounts[Current()].properties), spaceToProperty)
        && turn == old(turn) && gotDouble == old(gotDouble) && accounts == old(accounts)
        && freeSpaceStation == old(freeSpaceStation)
      ensures !(space == SpaceStationSpace && old(freeSpaceStation)) && space !in GoldenKeySpaces ==>
        popup == Ask(Dispatch(space, spaceToProperty, old(Current()), old(accounts[Current()].tickets),
                              welfare, freeSpaceStation))
        && turn == old(turn) && gotDouble == old(gotDouble) && accounts == old(accounts)
        && goldenKeys == old(goldenKeys) && freeSpaceStation == old(freeSpaceStation)
    {
      closeIgnored := false;
      var cur := players[turn];
      var decision := Dispatch(space, spaceToProperty, cur, accounts[cur].tickets, welfare, freeSpaceStation);
      if decision.FreeStationEntry? {
        UseStationPass(cur);
        var _ := NextTurn();
        popup := EnteredFree;
      } else if decision.DrawGoldenKey? {
        popup := DrawCardFor(cur);
      } else {
        popup := Ask(decision);
      }
    }

    /** The space-station pass is spent: the player boards for free. */
    method UseStationPass(p: PlayerId)
      requires Valid() && p in accounts
      modifies this`accounts, this`freeSpaceStation
      ensures Valid() && !freeSpaceStation
      ensures accounts == old(accounts)[p := old(accounts[p]).(onSpaceStation := true)]
    {
      accounts := accounts[p := accounts[p].(onSpaceStation := true)];
      freeSpaceStation := false;
    }

    /** A Golden Key space: draw the head of the deck and work out, from the
        drawer's holdings, the fee and the dearest holding the card may need. */
    method DrawCardFor(p: PlayerId) returns (popup: Popup)
      requires Valid() && p in accounts
      modifies this`goldenKeys
      ensures Valid()
      ensures popup.Card? && popup.id == old(goldenKeys)[0] && goldenKeys == Rotate(old(goldenKeys))
      ensures OnBoard(accounts[p].properties, spaceToProperty)
      ensures CardPrepared(popup.id, popup.fee, popup.mostExpensive, accounts[p].properties, spaceToProperty)
    {
      var id := DrawGoldenKeyCard();
      var spaces := accounts[p].properties;
      HoldingsOnBoard(players, accounts, spaceToProperty, p);
      var holdings := Holdings(spaces, spaceToProperty);
      var fee, most := CardAmounts(id, holdings);
      var mostSpace := if most.Some? then Some(spaces[most.value]) else None;
      popup := Card(id, fee, mostSpace);
    }

    /** "SOS!" on the deserted island: the double is forfeited and the player is
        held there (Player.landOnDesertedIsland). */
    method LandOnDesertedIsland()
      requires Valid() && HasCurrent()
      modifies this`gotDouble, this`accounts
      ensures Valid() && !gotDouble
      ensures accounts == old(accounts)[Current() := old(accounts[Current()]).(islandTurns := IslandTurns)]
    {
      var cur := players[turn];
      gotDouble := false;
      accounts := accounts[cur := accounts[cur].(islandTurns := IslandTurns)];
    }

    /** "Thank you, welfare!": the whole pool goes to the player and the pool is empty. */
    method CollectWelfare()
      requires Valid() && HasCurrent()
      modifies this`accounts, this`welfare
      ensures Valid() && welfare == 0
      ensures accounts == WithMoney(old(accounts), Current(), old(welfare))
    {
      var ok := ChangeMoney(players[turn], welfare);
      welfare := 0;
    }

    /** "YES" at the space station: the entry fee is taken from the player, even
        when the player owns space 32, and given to the owner of space 32 (the bank
        when it has none); the player then boards. Without the fee nothing changes. */
    method EnterSpaceStation() returns (entered: bool)
      requires Valid() && HasCurrent()
      modifies this`accounts
      ensures Valid()
      ensures entered <==> old(accounts[Current()].money) >= EntryFee
      ensures !entered ==> accounts == old(accounts)
      ensures entered ==>
        (&& ShuttleSpace in spaceToProperty
         && accounts == Boarded(Paid(old(accounts), Current(), spaceToProperty[ShuttleSpace].owner, EntryFee), Current()))
    {
      var cur := players[turn];
      assert !IsSpecialSpace(ShuttleSpace);
      entered := PayEntryFee(cur, spaceToProperty[ShuttleSpace].owner);
      if entered {
        EnterStation(cur);
      }
    }

    /** The entry fee: changeMoney(-ENTRY_FEE) on the player, refused when the
        balance is short, then changeMoney(ENTRY_FEE) on the owner of space 32 when
        it has one. */
    method PayEntryFee(p: PlayerId, owner: Option<PlayerId>) returns (paid: bool)
      requires Valid() && p in accounts && (owner.Some? ==> owner.value in accounts)
      modifies this`accounts
      ensures Valid()
      ensures paid <==> old(accounts[p].money) >= EntryFee
      ensures accounts == if paid then Paid(old(accounts), p, owner, EntryFee) else old(accounts)
    {
      paid := ChangeMoney(p, -EntryFee);
      if paid && owner.Some? {
        var credited := ChangeMoney(owner.value, EntryFee);
      }
    }

    /** Player.enterSpaceStation. */
    method EnterStation(p: PlayerId)
      requires Valid() && p in accounts
      modifies this`accounts
      ensures Valid()
      ensures accounts == Boarded(old(accounts), p)
    {
      accounts := Boarded(accounts, p);
    }

    /** "Donate $1.50M": the donation goes through payOther to the bank; a player
        who cannot pay is eliminated in favour of the bank; and the pool grows by
        the donation either way, the `finally` block running after a bankruptcy too. */
    method DonateWelfareTax()
      requires Valid() && HasCurrent()
      modifies this`accounts, this`welfare, this`players, this`spaceToProperty
      ensures Valid()
      ensures welfare == old(welfare) + WelfareTax
      ensures old(accounts[Current()].money) >= WelfareTax ==>
        players == old(players) && spaceToProperty == old(spaceToProperty)
        && accounts == Paid(old(accounts), old(Current()), None, WelfareTax)
      ensures old(accounts[Current()].money) < WelfareTax ==>
        players == RemoveFirst(old(players), old(Current())) && accounts == old(accounts)
        && spaceToProperty == ReleaseAll(old(spaceToProperty), old(accounts[Current()].properties))
    {
      var cur := players[turn];
      var bankrupt := PayOther(cur, None, WelfareTax);
      if bankrupt {
        Eliminate(cur, None);
      }
      welfare := welfare + WelfareTax;
    }

    /** "YES (for ...)" on an unowned property: Player.purchase at the list price;
        without the money nothing changes and the popup stays open. */
    method Purchase(space: int) returns (outcome: Outcome)
      requires Valid() && HasCurrent() && space in spaceToProperty && spaceToProperty[space].owner.None?
      modifies this`accounts, this`spaceToProperty
      ensures Valid()
      ensures outcome.Closed? <==> old(accounts[Current()].money) >= old(spaceToProperty[space].price)
      ensures outcome.Aborted? ==>
        (outcome.reason == NotEnoughMoney && accounts == old(accounts) && spaceToProperty == old(spaceToProperty))
      ensures outcome.Closed? ==>
        (&& spaceToProperty == old(spaceToProperty)[space := old(spaceToProperty[space]).(owner := Some(Current()))]
         && accounts == Bought(old(accounts), Current(), space, old(spaceToProperty[space].price)))
    {
      var cur := players[turn];
      var property := spaceToProperty[space];
      if accounts[cur].money < property.price {
        return Aborted(NotEnoughMoney);
      }
      accounts := Bought(accounts, cur, space, property.price);
      spaceToProperty := spaceToProperty[space := property.(owner := Some(cur))];
      outcome := Closed;
    }

    /** "Pay rent": payOther to the owner; a player who cannot pay is eliminated
        and the owner, as the shark, takes over. */
    method PayRent(space: int)
      requires Valid() && HasCurrent() && space in spaceToProperty
      requires spaceToProperty[space].owner.Some? && spaceToProperty[space].owner.value != Current()
      modifies this`accounts, this`players, this`spaceToProperty
      ensures Valid()
      ensures old(accounts[Current()].money) >= old(spaceToProperty[space].rent) ==>
        players == old(players) && spaceToProperty == old(spaceToProperty)
        && accounts == Paid(old(accounts), old(Current()), old(spaceToProperty[space].owner), old(spaceToProperty[space].rent))
      ensures old(accounts[Current()].money) < old(spaceToProperty[space].rent) ==>
        players == RemoveFirst(old(players), old(Current()))
        && accounts == TakenOver(old(accounts), old(Current()), old(spaceToProperty[space].owner.value))
        && spaceToProperty == Transfer(old(spaceToProperty), old(accounts[Current()].properties),
                                       old(spaceToProperty[space].owner.value))
    {
      var cur := players[turn];
      var property := spaceToProperty[space];
      var bankrupt := PayOther(cur, property.owner, property.rent);
      if bankrupt {
        Eliminate(cur, property.owner);
      }
    }

    /** "...or use Complimentary Ticket!": offered only to a player who holds one;
        the ticket is spent instead of the rent. */
    method UseComplimentaryTicket()
      requires Valid() && HasCurrent() && accounts[Current()].tickets > 0
      modifies this`accounts
      ensures Valid()
      ensures accounts == old(accounts)[Current() := old(accounts[Current()]).(tickets := old(accounts[Current()].tickets) - 1)]
    {
      var cur := players[turn];
      accounts := accounts[cur := accounts[cur].(tickets := accounts[cur].tickets - 1)];
    }

    // -------------------------------------------------------------------------
    // Golden Key effects.

    /** Card 0: every other player pays the drawer, in turn order; one who cannot
        is eliminated in the drawer's favour. The loop walks the live player list
        with an ArrayList iterator, so after an elimination the next step throws
        ConcurrentModificationException, unless the eliminated player was the
        second to last, in which case the walk just stops and the last player
        pays nothing. */
    method CollectFromEach(amount: Money) returns (outcome: Outcome)
      requires Valid() && HasCurrent() && amount >= 0
      modifies this`accounts, this`players, this`spaceToProperty
      ensures Valid()
      ensures old(Current()) in players
      ensures Settlement(outcome, players, accounts, spaceToProperty)
              == CardZero(old(players), old(accounts), old(spaceToProperty), old(Current()), amount)
    {
      var drawer := players[turn];
      ghost var start := accounts;
      var i, stopped := WalkOpponents(drawer, amount);
      if stopped {
        // The catch block: the opponent who could not pay is eliminated in
        // the drawer's favour.
        CardZeroStopsAt(players, start, spaceToProperty, drawer, amount, i);
        RemovedKeepsOthers(players, players[i], turn);
        Eliminate(players[i], Some(drawer));
      } else {
        assert players[..i] == players;
        CardZeroRunsThrough(players, start, spaceToProperty, drawer, amount);
      }
      // The iterator's hasNext compares its cursor, one past the eliminated
      // player, with the shortened size.
      outcome := if stopped && i + 1 != |players| then Aborted(ConcurrentModification) else Closed;
    }

    /** The for-each loop of card 0 up to the first opponent who cannot pay: each
        player other than players.get(turn) pays the drawer; payOther refuses, and
        the walk stops, at the first one whose balance is short. */
    method WalkOpponents(drawer: PlayerId, amount: Money) returns (i: nat, stopped: bool)
      requires Valid() && HasCurrent() && Current() == drawer && amount >= 0
      modifies this`accounts
      ensures Valid()
      ensures i == FirstShort(players, old(accounts), drawer, amount)
      ensures stopped <==> i < |players|
      ensures accounts == Collected(old(accounts), drawer, players[..i], amount)
    {
      ghost var start := accounts;
      i := 0;
      stopped := false;
      while i < |players|
        invariant Valid()
        invariant i <= |players| && FirstShort(players[..i], start, drawer, amount) == i
        invariant accounts == Collected(start, drawer, players[..i], amount)
      {
        stopped := PayAt(i, drawer, amount, start);
        if stopped {
          break;
        }
        i := i + 1;
      }
      FirstShortAt(players, start, drawer, amount, i);
    }

    /** One pass of card 0's loop: the player at index i, unless it is
        players.get(turn), pays the drawer; payOther refuses, changing nothing,
        when the balance is short. */
    method PayAt(i: nat, drawer: PlayerId, amount: Money, ghost start: map<PlayerId, Player>) returns (short: bool)
      requires Valid() && HasCurrent() && Current() == drawer && amount >= 0 && i < |players|
      requires drawer in start && accounts == Collected(start, drawer, players[..i], amount)
      requires FirstShort(players[..i], start, drawer, amount) == i
      modifies this`accounts
      ensures Valid()
      ensures short <==> Short(start, players[i], drawer, amount)
      ensures short ==> accounts == old(accounts)
      ensures !short ==> accounts == Collected(start, drawer, players[..i + 1], amount)
      ensures !short ==> FirstShort(players[..i + 1], start, drawer, amount) == i + 1
    {
      var p := players[i];
      NotBefore(players, i);
      CollectedStep(start, drawer, players, amount, i);
      FirstShortStep(players, start, drawer, amount, i);
      short := false;
      if p != players[turn] {
        CollectedSkipsOthers(start, drawer, players[..i], amount, p);
        short := PayOther(p, Some(drawer), amount);
      }
    }

    /** Cards 16 and 29: pay the owner of a space, if it has one, then move
        straight to a space. The move goes to players.get(turn): after the drawer
        is eliminated that is whoever now sits at the drawer's index, or nobody,
        and the handler throws. */
    method PayOwnerThenTeleport(space: int, amount: Money, dest: int) returns (outcome: Outcome)
      requires Valid() && HasCurrent() && space in spaceToProperty && amount >= 0
      modifies this`accounts, this`players, this`spaceToProperty
      ensures Valid()
      ensures Settlement(outcome, players, accounts, spaceToProperty)
              == PayOwnerThenMove(old(players), old(accounts), old(spaceToProperty), old(turn), space, amount, dest)
    {
      PayOwner(players[turn], space, amount);
      outcome := MoveAtTurn(dest);
    }

    /** The payment of cards 16 and 29: payOther to the owner of the space, if it
        has one, and elimination in the owner's favour when the balance is short. */
    method PayOwner(p: PlayerId, space: int, amount: Money)
      requires Valid() && p in players && space in spaceToProperty && amount >= 0
      modifies this`accounts, this`players, this`spaceToProperty
      ensures Valid()
      ensures Settlement(Closed, players, accounts, spaceToProperty)
              == OwnerPaid(old(players), old(accounts), old(spaceToProperty), p, space, amount)
    {
      var owner := spaceToProperty[space].owner;
      if owner.Some? {
        var bankrupt := PayOther(p, owner, amount);
        if bankrupt {
          Eliminate(p, owner);
        }
      }
    }

    /** The move of cards 16 and 29: players.get(turn) goes straight to dest; an
        index past the end of the list throws IndexOutOfBoundsException. */
    method MoveAtTurn(dest: int) returns (outcome: Outcome)
      requires Valid()
      modifies this`accounts
      ensures Valid()
      ensures Settlement(outcome, players, accounts, spaceToProperty)
              == MovedAt(Settlement(Closed, players, old(accounts), spaceToProperty), turn, dest)
    {
      if turn < |players| {
        DirectlyMove(players[turn], dest, false);
        outcome := Closed;
      } else {
        outcome := Aborted(IndexOutOfBounds);
      }
    }

    /** Cards 22 and 23: the most expensive holding is sold (Player.sell: it leaves
        the player's list and the bank owns it, for proceeds this model takes as
        given), then half its price is charged; without the money for that charge
        the handler throws and the popup stays open. */
    method SellMostExpensive(space: int, proceeds: Money) returns (outcome: Outcome)
      requires Valid() && HasCurrent() && space in spaceToProperty && proceeds >= 0
      modifies this`accounts, this`spaceToProperty
      ensures Valid()
      ensures Settlement(outcome, players, accounts, spaceToProperty)
              == SellHalf(old(players), old(accounts), old(spaceToProperty), old(Current()), space, proceeds)
    {
      SellHalfSteps(players, accounts, spaceToProperty, Current(), space, proceeds);
      var cur := players[turn];
      var halfPrice := spaceToProperty[space].price / 2;
      Sell(cur, space, proceeds);
      var ok := ChangeMoney(cur, -halfPrice);
      outcome := if ok then Closed else Aborted(NotEnoughMoney);
    }

    /** Player.sell: the space leaves the player's list, the player is credited
        the proceeds, and the property has no owner. */
    method Sell(p: PlayerId, space: int, proceeds: Money)
      requires Valid() && p in accounts && space in spaceToProperty && proceeds >= 0
      modifies this`accounts, this`spaceToProperty
      ensures Valid()
      ensures spaceToProperty == old(spaceToProperty)[space := old(spaceToProperty[space]).(owner := None)]
      ensures accounts == Sold(old(accounts), p, space, proceeds)
    {
      accounts := Sold(accounts, p, space, proceeds);
      spaceToProperty := spaceToProperty[space := spaceToProperty[space].(owner := None)];
    }

    /** A card that touches only the drawer, applied to the drawer's account. */
    method ApplyOnDrawer(e: Effect, fee: Money)
      requires Valid() && HasCurrent() && fee >= 0
      modifies this`accounts
      ensures Valid()
      ensures accounts == old(accounts)[Current() := OnDrawer(e, old(accounts[Current()]), fee, welfare)]
    {
      var cur := players[turn];
      accounts := accounts[cur := OnDrawer(e, accounts[cur], fee, welfare)];
    }

    /** The button of a Golden Key popup: the effect of the card drawn, with the
        fee and the most expensive holding showPopup worked out. Only cards 0, 16
        and 29 can take a player out of the game; the bank-debt cards leave a
        drawer who cannot pay in the game with nothing paid. */
    method ApplyGoldenKey(id: int, fee: Money, mostExpensive: Option<int>, saleProceeds: Money)
      returns (outcome: Outcome)
      requires Valid() && HasCurrent() && fee >= 0 && saleProceeds >= 0
      requires mostExpensive.Some? ==> mostExpensive.value in spaceToProperty
      modifies this`accounts, this`players, this`spaceToProperty, this`gotDouble, this`closeIgnored,
               this`worldTour, this`welfare, this`freeSpaceStation
      ensures Valid()
      ensures !MayEliminate(CardEffect(id)) ==> players == old(players)
      ensures outcome.Aborted? ==> MayEliminate(CardEffect(id)) || CardEffect(id).SellMostExpensive?
      ensures OnDrawerOnly(CardEffect(id)) ==>
        (&& outcome == Closed && spaceToProperty == old(spaceToProperty)
         && accounts == old(accounts)[old(Current()) := OnDrawer(CardEffect(id), old(accounts[Current()]), fee, old(welfare))])
      ensures CardEffect(id) == NoEffect ==> accounts == old(accounts) && spaceToProperty == old(spaceToProperty)
      ensures CardEffect(id).CollectFromEach? ==>
        Settlement(outcome, players, accounts, spaceToProperty)
        == CardZero(old(players), old(accounts), old(spaceToProperty), old(Current()), CardEffect(id).amount)
      ensures CardEffect(id).PayOwnerThenTeleport? ==>
        Settlement(outcome, players, accounts, spaceToProperty)
        == PayOwnerThenMove(old(players), old(accounts), old(spaceToProperty), old(turn),
                            CardEffect(id).space, CardEffect(id).amount, CardEffect(id).dest)
      ensures CardEffect(id).SellMostExpensive? && mostExpensive.Some? ==>
        Settlement(outcome, players, accounts, spaceToProperty)
        == SellHalf(old(players), old(accounts), old(spaceToProperty), old(Current()), mostExpensive.value, saleProceeds)
      ensures CardEffect(id).SellMostExpensive? && mostExpensive.None? ==>
        outcome == Closed && accounts == old(accounts) && spaceToProperty == old(spaceToProperty)
      ensures gotDouble == (old(gotDouble) && CardEffect(id) != Strand)
      ensures closeIgnored == (old(closeIgnored) || CardEffect(id).StepBack?)
      ensures worldTour == (old(worldTour) || CardEffect(id) == WorldTour)
      ensures welfare == if CardEffect(id) == WorldTour then 0 else old(welfare)
      ensures freeSpaceStation == (old(freeSpaceStation) || CardEffect(id) == StationPass)
    {
      var e := CardEffect(id);
      if OnDrawerOnly(e) {
        ApplyDrawerCard(e, fee);
        outcome := Closed;
      } else {
        AmountsPositive(id);
        if e.PayOwnerThenTeleport? {
          assert !IsSpecialSpace(e.space);
        }
        outcome := ApplyTableCard(e, mostExpensive, saleProceeds);
      }
    }

    /** A card that may touch other players or the board (cards 0, 16, 22, 23
        and 29), or an id without a card. */
    method ApplyTableCard(e: Effect, mostExpensive: Option<int>, saleProceeds: Money) returns (outcome: Outcome)
      requires Valid() && HasCurrent() && !OnDrawerOnly(e) && saleProceeds >= 0
      requires mostExpensive.Some? ==> mostExpensive.value in spaceToProperty
      requires e.CollectFromEach? ==> e.amount >= 0
      requires e.PayOwnerThenTeleport? ==> e.amount >= 0 && e.space in spaceToProperty
      modifies this`accounts, this`players, this`spaceToProperty
      ensures Valid()
      ensures e == NoEffect ==>
        outcome == Closed && players == old(players) && accounts == old(accounts) && spaceToProperty == old(spaceToProperty)
      ensures e.CollectFromEach? ==>
        Settlement(outcome, players, accounts, spaceToProperty)
        == CardZero(old(players), old(accounts), old(spaceToProperty), old(Current()), e.amount)
      ensures e.PayOwnerThenTeleport? ==>
        Settlement(outcome, players, accounts, spaceToProperty)
        == PayOwnerThenMove(old(players), old(accounts), old(spaceToProperty), old(turn), e.space, e.amount, e.dest)
      ensures e.SellMostExpensive? && mostExpensive.Some? ==>
        Settlement(outcome, players, accounts, spaceToProperty)
        == SellHalf(old(players), old(accounts), old(spaceToProperty), old(Current()), mostExpensive.value, saleProceeds)
      ensures e.SellMostExpensive? && mostExpensive.None? ==>
        outcome == Closed && players == old(players) && accounts == old(accounts) && spaceToProperty == old(spaceToProperty)
    {
      outcome := Closed;
      match e
      case CollectFromEach(amount) =>
        outcome := CollectFromEach(amount);
      case PayOwnerThenTeleport(space, amount, dest) =>
        outcome := PayOwnerThenTeleport(space, amount, dest);
      case SellMostExpensive =>
        if mostExpensive.Some? {
          outcome := SellMostExpensive(mostExpensive.value, saleProceeds);
        }
      case NoEffect =>
    }

    /** A card that touches only the drawer: the drawer's account changes as
        OnDrawer says, and the flags the card sets are set (card 5 forfeits the
        double, cards 11 and 12 empty the close handler, card 19 starts the world
        tour and empties the welfare pool, cards 27 and 28 make the next station
        entry free). */
    method ApplyDrawerCard(e: Effect, fee: Money)
      requires Valid() && HasCurrent() && fee >= 0 && OnDrawerOnly(e)
      modifies this`accounts, this`gotDouble, this`closeIgnored, this`worldTour, this`welfare, this`freeSpaceStation
      ensures Valid()
      ensures accounts == old(accounts)[Current() := OnDrawer(e, old(accounts[Current()]), fee, old(welfare))]
      ensures gotDouble == (old(gotDouble) && e != Strand)
      ensures closeIgnored == (old(closeIgnored) || e.StepBack?)
      ensures worldTour == (old(worldTour) || e == WorldTour)
      ensures welfare == if e == WorldTour then 0 else old(welfare)
      ensures freeSpaceStation == (old(freeSpaceStation) || e == StationPass)
    {
      ApplyOnDrawer(e, fee);
      match e
      case Strand =>
        gotDouble := false;
      case StepBack(_) =>
        closeIgnored := true;
      case WorldTour =>
        worldTour := true;
        welfare := 0;
      case StationPass =>
        freeSpaceStation := true;
      case _ =>
    }

    /** The popup's on-hidden handler: nothing when a card emptied it; the end of
        the game when one player is left; otherwise the next turn, unless a world
        tour is under way. */
    method PopupClosed() returns (c: Closing)
      modifies this`turn, this`gotDouble, this`rollingPhase
      ensures closeIgnored ==>
        (c == Ignored && turn == old(turn) && gotDouble == old(gotDouble) && rollingPhase == old(rollingPhase))
      ensures !closeIgnored && |players| == 1 ==>
        (c == GameOver(players[0]) && !rollingPhase && turn == old(turn) && gotDouble == old(gotDouble))
      ensures !closeIgnored && |players| != 1 && worldTour ==>
        (c == TourPending && turn == old(turn) && gotDouble == old(gotDouble) && rollingPhase == old(rollingPhase))
      ensures !closeIgnored && |players| != 1 && !worldTour ==>
        turn == NextIndex(old(turn), old(gotDouble), |players|) && !gotDouble && rollingPhase
        && c == NextPlayer(if turn < |players| then Some(players[turn]) else None)
    {
      if closeIgnored {
        c := Ignored;
      } else if |players| == 1 {
        rollingPhase := false;
        c := GameOver(players[0]);
      } else if worldTour {
        c := TourPending;
      } else {
        var next := NextTurn();
        c := NextPlayer(next);
      }
    }

    /** moveFromSpaceStation, once the player presses "MOVE!" with a line of the
        space list chosen: no roll this turn; the station's own line is refused;
        otherwise the player goes straight to the index at the head of the line. */
    method MoveFromSpaceStation(line: string) returns (r: Result<int, Station.ParseError>)
      requires Valid() && HasCurrent()
      modifies this`accounts, this`rollingPhase
      ensures Valid() && !rollingPhase
      ensures r == Station.ParseDestination(line)
      ensures r.Ok? ==> accounts == Departed(old(accounts), Current(), r.value)
      ensures r.Err? ==> accounts == old(accounts)
    {
      rollingPhase := false;
      r := Station.ParseDestination(line);
      if r.Ok? {
        DirectlyMove(players[turn], r.value, true);
      }
    }
  }
}
