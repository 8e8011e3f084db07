// The bets table and the sums the services take over it.
module Bets {
  import opened Types

  const WIN_PAYOUT_MULTIPLIER: int := 2

  datatype BetStatus = Pending | Won | Lost | Cancelled

  datatype Bet = Bet(
    user: UserId,
    round: RoundId,
    choice: Color,
    stake: int,
    clientKey: string,
    status: BetStatus,
    payout: int)

  datatype Measure =
    | Staked(user: UserId)                                     // every stake the user ever placed
    | Returned(user: UserId)                                   // payouts of won bets, stakes of cancelled ones
    | LiveOfUser(round: RoundId, user: UserId)                 // sumUserRoundStake
    | LiveOfColor(round: RoundId, color: Color)                // sumRoundColorExposure
    | Due(round: RoundId, result: Color, user: UserId)         // payout of the user's pending winners
    | PendingWins(round: RoundId, result: Color, user: UserId) // how many they are
    | WinnersIn(round: RoundId, result: Color)                 // pending winners of any user
    | PaidTo(round: RoundId, user: UserId)                     // payouts of the user's won bets in the round
    | PaidIn(round: RoundId)
    | AllIn(round: RoundId)
    | PendingIn(round: RoundId)
    | WonIn(round: RoundId)
    | LostIn(round: RoundId)

  predicate PendingWinner(bet: Bet, round: RoundId, result: Color, user: UserId) {
    bet.round == round && bet.user == user && bet.status == Pending && bet.choice == result
  }

  function Weight(m: Measure, bet: Bet): int {
    match m
    case Staked(u) => if bet.user == u then bet.stake else 0
    case Returned(u) =>
      if bet.user != u then 0
      else if bet.status == Won then bet.payout
      else if bet.status == Cancelled then bet.stake
      else 0
    case LiveOfUser(r, u) => if bet.round == r && bet.user == u && bet.status != Cancelled then bet.stake else 0
    case LiveOfColor(r, c) => if bet.round == r && bet.choice == c && bet.status != Cancelled then bet.stake else 0
    case Due(r, c, u) => if PendingWinner(bet, r, c, u) then WIN_PAYOUT_MULTIPLIER * bet.stake else 0
    case PendingWins(r, c, u) => if PendingWinner(bet, r, c, u) then 1 else 0
    case WinnersIn(r, c) => if PendingWinner(bet, r, c, bet.user) then 1 else 0
    case PaidTo(r, u) => if bet.round == r && bet.user == u && bet.status == Won then bet.payout else 0
    case PaidIn(r) => if bet.round == r && bet.status == Won then bet.payout else 0
    case AllIn(r) => if bet.round == r then 1 else 0
    case PendingIn(r) => if bet.round == r && bet.status == Pending then 1 else 0
    case WonIn(r) => if bet.round == r && bet.status == Won then 1 else 0
    case LostIn(r) => if bet.round == r && bet.status == Lost then 1 else 0
  }

  function Sum(m: Measure, bets: seq<Bet>): int {
    if |bets| == 0 then 0 else Sum(m, bets[..|bets| - 1]) + Weight(m, bets[|bets| - 1])
  }

  lemma SumAppend(m: Measure, bets: seq<Bet>, bet: Bet)
    ensures Sum(m, bets + [bet]) == Sum(m, bets) + Weight(m, bet)
  {
    assert (bets + [bet])[..|bets|] == bets;
  }

  lemma {:induction false} SumUpdate(m: Measure, bets: seq<Bet>, i: nat, bet: Bet)
    requires i < |bets|
    ensures Sum(m, bets[i := bet]) == Sum(m, bets) - Weight(m, bets[i]) + Weight(m, bet)
  {
    var n := |bets| - 1;
    if i == n {
      assert bets[i := bet][..n] == bets[..n];
    } else {
      assert bets[i := bet][..n] == bets[..n][i := bet];
      SumUpdate(m, bets[..n], i, bet);
    }
  }

  // Two tables of the same length whose weights differ row by row by a third measure.
  lemma {:induction false} SumShift(m': Measure, bets': seq<Bet>, m: Measure, d: Measure, bets: seq<Bet>, factor: int)
    requires |bets'| == |bets|
    requires forall i :: 0 <= i < |bets| ==> Weight(m', bets'[i]) == Weight(m, bets[i]) + factor * Weight(d, bets[i])
    ensures Sum(m', bets') == Sum(m, bets) + factor * Sum(d, bets)
  {
    var n := |bets| - 1;
    if n >= 0 {
      SumShift(m', bets'[..n], m, d, bets[..n], factor);
      assert factor * (Sum(d, bets[..n]) + Weight(d, bets[n])) == factor * Sum(d, bets[..n]) + factor * Weight(d, bets[n]);
    }
  }

  lemma {:induction false} SumSame(m: Measure, bets': seq<Bet>, bets: seq<Bet>)
    requires |bets'| == |bets|
    requires forall i :: 0 <= i < |bets| ==> Weight(m, bets'[i]) == Weight(m, bets[i])
    ensures Sum(m, bets') == Sum(m, bets)
  {
    SumShift(m, bets', m, m, bets, 0);
  }

  lemma {:induction false} SumBelow(m: Measure, m': Measure, bets: seq<Bet>, bets': seq<Bet>, factor: int)
    requires |bets'| == |bets|
    requires forall i :: 0 <= i < |bets| ==> Weight(m, bets[i]) <= factor * Weight(m', bets'[i])
    ensures Sum(m, bets) <= factor * Sum(m', bets')
  {
    var n := |bets| - 1;
    if n >= 0 {
      SumBelow(m, m', bets[..n], bets'[..n], factor);
      assert factor * (Sum(m', bets'[..n]) + Weight(m', bets'[n])) == factor * Sum(m', bets'[..n]) + factor * Weight(m', bets'[n]);
    }
  }

  predicate Positive(bets: seq<Bet>) {
    forall i :: 0 <= i < |bets| ==> bets[i].stake > 0 && bets[i].payout >= 0
  }

  lemma {:induction false} SumCoversBet(m: Measure, bets: seq<Bet>, i: nat)
    requires Positive(bets)
    ensures Sum(m, bets) >= 0
    ensures i < |bets| ==> Sum(m, bets) >= Weight(m, bets[i])
  {
    var n := |bets| - 1;
    if n >= 0 {
      SumCoversBet(m, bets[..n], i);
    }
  }

  lemma {:induction false} ZeroSumMeansNone(m: Measure, bets: seq<Bet>)
    requires Positive(bets)
    ensures Sum(m, bets) == 0 <==> forall i :: 0 <= i < |bets| ==> Weight(m, bets[i]) == 0
  {
    var n := |bets| - 1;
    if n >= 0 {
      ZeroSumMeansNone(m, bets[..n]);
      SumCoversBet(m, bets[..n], 0);
      SumCoversBet(m, bets, n);
      if Sum(m, bets) == 0 {
        forall i | 0 <= i < |bets| ensures Weight(m, bets[i]) == 0 {
          SumCoversBet(m, bets, i);
          if i < n { assert Weight(m, bets[..n][i]) == 0; }
        }
      }
      if forall i :: 0 <= i < |bets| ==> Weight(m, bets[i]) == 0 {
        assert forall i :: 0 <= i < n ==> Weight(m, bets[..n][i]) == Weight(m, bets[i]);
      }
    }
  }

  // ---------------------------------------------------------------- counting

  function InRound(bets: seq<Bet>, r: RoundId): set<BetId> {
    set i: BetId | i < |bets| && bets[i].round == r
  }

  function WithStatus(bets: seq<Bet>, r: RoundId, status: BetStatus): set<BetId> {
    set i: BetId | i < |bets| && Is(bets[i], r, status)
  }

  predicate Is(bet: Bet, r: RoundId, status: BetStatus) { bet.round == r && bet.status == status }

  // The counting measures count what their names say.
  lemma CountsAreCardinalities(bets: seq<Bet>, r: RoundId)
    ensures Sum(AllIn(r), bets) == |InRound(bets, r)|
    ensures Sum(WonIn(r), bets) == |WithStatus(bets, r, Won)|
    ensures Sum(LostIn(r), bets) == |WithStatus(bets, r, Lost)|
    ensures Sum(PendingIn(r), bets) == |WithStatus(bets, r, Pending)|
  {
    assert bets[..|bets|] == bets;
    RoundIsCounted(bets, r, |bets|);
    StatusIsCounted(bets, r, Won, WonIn(r), |bets|);
    StatusIsCounted(bets, r, Lost, LostIn(r), |bets|);
    StatusIsCounted(bets, r, Pending, PendingIn(r), |bets|);
  }

  lemma {:induction false} RoundIsCounted(bets: seq<Bet>, r: RoundId, k: nat)
    requires k <= |bets|
    ensures Sum(AllIn(r), bets[..k]) == |set i: BetId | i < k && bets[i].round == r|
  {
    if k > 0 {
      RoundIsCounted(bets, r, k - 1);
      assert bets[..k][..k - 1] == bets[..k - 1];
      assert (set i: BetId | i < k && bets[i].round == r) ==
             (set i: BetId | i < k - 1 && bets[i].round == r) + (if bets[k - 1].round == r then {k - 1} else {});
    }
  }

  lemma {:induction false} StatusIsCounted(bets: seq<Bet>, r: RoundId, status: BetStatus, m: Measure, k: nat)
    requires k <= |bets|
    requires forall i :: 0 <= i < |bets| ==> Weight(m, bets[i]) == (if Is(bets[i], r, status) then 1 else 0)
    ensures Sum(m, bets[..k]) == |set i: BetId | i < k && Is(bets[i], r, status)|
  {
    if k > 0 {
      StatusIsCounted(bets, r, status, m, k - 1);
      assert bets[..k] == bets[..k - 1] + [bets[k - 1]];
      SumAppend(m, bets[..k - 1], bets[k - 1]);
      OneMoreHit(bets, r, status, k - 1);
    }
  }

  lemma OneMoreHit(bets: seq<Bet>, r: RoundId, status: BetStatus, k: nat)
    requires k < |bets|
    ensures |set i: BetId | i < k + 1 && Is(bets[i], r, status)| ==
            |set i: BetId | i < k && Is(bets[i], r, status)| + (if Is(bets[k], r, status) then 1 else 0)
  {
    assert (set i: BetId | i < k + 1 && Is(bets[i], r, status)) ==
           (set i: BetId | i < k && Is(bets[i], r, status)) + (if Is(bets[k], r, status) then {k} else {});
  }

  // The stakes, and the payouts, of a set of bets.
  function StakesOf(bets: seq<Bet>, ids: set<BetId>): int {
    if |bets| == 0 then 0
    else
      var n := |bets| - 1;
      StakesOf(bets[..n], ids) + (if n in ids then bets[n].stake else 0)
  }

  function PayoutsOf(bets: seq<Bet>, ids: set<BetId>): int {
    if |bets| == 0 then 0
    else
      var n := |bets| - 1;
      PayoutsOf(bets[..n], ids) + (if n in ids then bets[n].payout else 0)
  }

  function LiveBetsOfUser(bets: seq<Bet>, r: RoundId, user: UserId): set<BetId> {
    set i: BetId | i < |bets| && bets[i].round == r && bets[i].user == user && bets[i].status in {Pending, Won, Lost}
  }

  function LiveBetsOnColor(bets: seq<Bet>, r: RoundId, color: Color): set<BetId> {
    set i: BetId | i < |bets| && bets[i].round == r && bets[i].choice == color && bets[i].status in {Pending, Won, Lost}
  }

  lemma {:induction false} OnlyOwnBetsCount(bets: seq<Bet>, ids: set<BetId>, ids': set<BetId>)
    requires forall i: BetId :: i < |bets| ==> (i in ids <==> i in ids')
    ensures StakesOf(bets, ids) == StakesOf(bets, ids') && PayoutsOf(bets, ids) == PayoutsOf(bets, ids')
  {
    if |bets| > 0 { OnlyOwnBetsCount(bets[..|bets| - 1], ids, ids'); }
  }

  // The stake measures add up the stakes of the bets their names say, and PaidIn the payouts of won bets.
  lemma {:induction false} MeasuresAreTotals(bets: seq<Bet>, r: RoundId, user: UserId, color: Color)
    ensures Sum(LiveOfUser(r, user), bets) == StakesOf(bets, LiveBetsOfUser(bets, r, user))
    ensures Sum(LiveOfColor(r, color), bets) == StakesOf(bets, LiveBetsOnColor(bets, r, color))
    ensures Sum(PaidIn(r), bets) == PayoutsOf(bets, WithStatus(bets, r, Won))
  {
    if |bets| > 0 {
      var before := bets[..|bets| - 1];
      MeasuresAreTotals(before, r, user, color);
      OnlyOwnBetsCount(before, LiveBetsOfUser(before, r, user), LiveBetsOfUser(bets, r, user));
      OnlyOwnBetsCount(before, LiveBetsOnColor(before, r, color), LiveBetsOnColor(bets, r, color));
      OnlyOwnBetsCount(before, WithStatus(before, r, Won), WithStatus(bets, r, Won));
    }
  }

  // ---------------------------------------------------------------- the bulk updates of settlement

  // markLosingBetsForRound
  function MarkLosers(bets: seq<Bet>, round: RoundId, result: Color): (r: seq<Bet>) {
    seq(|bets|, i requires 0 <= i < |bets| =>
      var b := bets[i];
      if b.round == round && b.status == Pending && b.choice != result then b.(status := Lost, payout := 0) else b)
  }

  // markWinnerBetsSettledInTx over the rows lockPendingWinnerBetsForUserInTx returned
  function MarkWinner(bets: seq<Bet>, round: RoundId, result: Color, user: UserId): (r: seq<Bet>) {
    seq(|bets|, i requires 0 <= i < |bets| =>
      var b := bets[i];
      if PendingWinner(b, round, result, user) then b.(status := Won, payout := b.stake * WIN_PAYOUT_MULTIPLIER) else b)
  }

  // What settlement is for, in one pass: every pending bet of the round is won or lost by its colour.
  function Decide(bets: seq<Bet>, round: RoundId, result: Color): (r: seq<Bet>) {
    seq(|bets|, i requires 0 <= i < |bets| =>
      var b := bets[i];
      if b.round != round || b.status != Pending then b
      else if b.choice == result then b.(status := Won, payout := b.stake * WIN_PAYOUT_MULTIPLIER)
      else b.(status := Lost, payout := 0))
  }
}
