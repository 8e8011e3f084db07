// The coin game as a state machine. One action is one transaction, one statement or one read made
// outside a transaction; several engines and administrators hold copies that may be out of date.
module Game {
  import opened Types
  import opened Ledger
  import opened Bets
  import opened Results

  type ProcessId = nat
  type Seed = int

  // hash is SHA-256 of the seed.
  datatype Config = Config(userCap: int, colorCap: int, hash: Seed -> Digest)

  datatype RoundStatus = Init | Open | Locked | Resolving | Completed | CancelledRound

  function Rank(status: RoundStatus): nat {
    match status
    case Init => 0
    case Open => 1
    case Locked => 2
    case Resolving => 3
    case Completed => 4
    case CancelledRound => 4
  }

  predicate Active(status: RoundStatus) { Rank(status) < 4 }

  // secret is the durable seed row of the round. decided and forced are history: the first result the
  // round was resolved with, and whether an administrator chose it.
  datatype Round = Round(
    number: int,
    status: RoundStatus,
    result: Option<Color>,
    hash: Digest,
    seedReveal: Option<Seed>,
    secret: Seed,
    decided: Option<Color>,
    forced: bool)

  datatype Stats = Stats(total: int, winning: int, losing: int, payout: int, pending: int)

  datatype Settlement = Settlement(result: Color, success: bool, stats: Stats)

  datatype Copy = Copy(round: RoundId, status: RoundStatus, result: Option<Color>, hash: Digest)

  datatype Stage = Beginning | Working | Counted(stats: Stats) | Settled

  // What a running tick or administrator call remembers between two of its steps.
  datatype Process =
    | Idle
    | Looked(found: Option<Copy>)
    | Numbering
    | Creating(latest: int)
    | Opening(round: RoundId)
    | ReadingBack(round: RoundId)
    | Driving(copy: Copy)
    | Recovering(round: RoundId)
    | CheckingSeed(round: RoundId, result: Color, hash: Digest)
    | Settling(round: RoundId, result: Color, seed: Seed, forcing: bool, stage: Stage)

  datatype State = State(
    rounds: seq<Round>,
    bets: seq<Bet>,
    settlements: map<RoundId, Settlement>,
    bank: Bank,
    paused: bool,
    processes: map<ProcessId, Process>)

  const EMPTY: State := State([], [], map[], Bank(map[], []), false, map[])

  datatype Action =
    | Register(user: UserId)
    | SetWalletActive(user: UserId, active: bool)
    | AdjustWallet(user: UserId, amount: int, direction: Direction, reference: nat, key: Key)
    | SetPaused(paused: bool)
    | PlaceBet(user: UserId, round: RoundId, choice: Color, stake: int, clientKey: string, beforeLock: bool)
    | LookForRound(pid: ProcessId)
    | CheckControl(pid: ProcessId)
    | ReadLatest(pid: ProcessId)
    | CreateRound(pid: ProcessId, seed: Seed)
    | OpenRound(pid: ProcessId)
    | ReadBack(pid: ProcessId)
    | LockRound(pid: ProcessId)
    | ResolveRound(pid: ProcessId, read: Option<Seed>)
    | RecoverRound(pid: ProcessId, order: seq<BetId>)
    | BeginSettlement(pid: ProcessId)
    | SettleLosers(round: RoundId, result: Color)
    | SettleWinner(round: RoundId, result: Color, user: UserId)
    | CountBets(pid: ProcessId)
    | CompleteSettlement(pid: ProcessId)
    | FinishRound(pid: ProcessId)
    | ForceStart(seed: Seed, order: seq<BetId>)
    | ForceStop(order: seq<BetId>)
    | ForceResult(pid: ProcessId, result: Color)
    | CheckSeed(pid: ProcessId, read: Option<Seed>)
    | Crash(pid: ProcessId)

  function ProcessOf(s: State, pid: ProcessId): Process {
    if pid in s.processes then s.processes[pid] else Idle
  }

  function Become(s: State, pid: ProcessId, p: Process): State {
    s.(processes := s.processes[pid := p])
  }

  // ---------------------------------------------------------------- rounds

  function FindActive(rounds: seq<Round>): (r: Option<RoundId>)
    ensures r.None? ==> forall i :: 0 <= i < |rounds| ==> !Active(rounds[i].status)
    ensures r.Some? ==> r.value < |rounds| && Active(rounds[r.value].status)
  {
    if |rounds| == 0 then None
    else if Active(rounds[|rounds| - 1].status) then Some(|rounds| - 1)
    else FindActive(rounds[..|rounds| - 1])
  }

  // max(round_number), 0 for an empty table
  function LatestNumber(rounds: seq<Round>): int {
    if |rounds| == 0 then 0
    else
      var n := LatestNumber(rounds[..|rounds| - 1]);
      if rounds[|rounds| - 1].number > n then rounds[|rounds| - 1].number else n
  }

  predicate NumberTaken(rounds: seq<Round>, number: int) {
    exists i :: 0 <= i < |rounds| && rounds[i].number == number
  }

  function CopyOf(s: State, r: RoundId): Copy
    requires r < |s.rounds|
  {
    Copy(r, s.rounds[r].status, s.rounds[r].result, s.rounds[r].hash)
  }

  // UPDATE game_rounds SET status = to WHERE id = r AND status = from
  function Transition(s: State, r: RoundId, from: RoundStatus, to: RoundStatus): State {
    if r < |s.rounds| && s.rounds[r].status == from then s.(rounds := s.rounds[r := s.rounds[r].(status := to)]) else s
  }

  function Decided(round: Round, result: Color, byForce: bool): Round {
    round.(status := Resolving,
           result := Some(result),
           decided := if round.decided.None? then Some(result) else round.decided,
           forced := round.forced || (byForce && round.decided.None?))
  }

  function NewRound(c: Config, number: int, status: RoundStatus, seed: Seed): Round {
    Round(number, status, None, c.hash(seed), None, seed, None, false)
  }

  // ---------------------------------------------------------------- refunds

  datatype Books = Books(bank: Bank, bets: seq<Bet>)

  function RefundMovement(bet: Bet, id: BetId, recovery: bool): Movement {
    Movement(bet.user, AdminAdjustment, Credit, BetReference, id, bet.stake,
             if recovery then RecoveryRefund(bet.round, id) else CancelRefund(bet.round, id))
  }

  // One turn of the refund loops. The bet update is filtered on PENDING.
  function RefundOne(books: Books, id: BetId, recovery: bool): Option<Books> {
    if id >= |books.bets| then None
    else
      var bet := books.bets[id];
      if bet.stake > MAX_SAFE_INTEGER then None
      else
        var posted := Post(books.bank, RefundMovement(bet, id, recovery));
        var bets := if bet.status == Pending then books.bets[id := bet.(status := Cancelled, payout := 0)] else books.bets;
        match posted
        case Moved(bank, _) => Some(Books(bank, bets))
        case Replayed(_) => Some(Books(books.bank, bets))
        case Refused(_) => None
  }

  // The whole loop; None rolls the transaction back.
  function RefundEach(books: Books, order: seq<BetId>, recovery: bool): Option<Books> {
    if |order| == 0 then Some(books)
    else
      var earlier := RefundEach(books, order[..|order| - 1], recovery);
      if earlier.None? then None else RefundOne(earlier.value, order[|order| - 1], recovery)
  }

  // The pending bets the transaction read, in whatever order the database returned them.
  predicate ListsPending(s: State, rounds: set<RoundId>, order: seq<BetId>) {
    && (forall i, j :: 0 <= i < j < |order| ==> order[i] != order[j])
    && (forall b :: b in order ==> b < |s.bets| && s.bets[b].status == Pending && s.bets[b].round in rounds)
    && (forall b: BetId :: b < |s.bets| && s.bets[b].status == Pending && s.bets[b].round in rounds ==> b in order)
  }

  function ActiveRounds(rounds: seq<Round>): set<RoundId> {
    set r: RoundId | r < |rounds| && Active(rounds[r].status)
  }

  // UPDATE game_rounds SET status = 'CANCELLED' over the active rounds
  function CancelActive(rounds: seq<Round>): seq<Round> {
    seq(|rounds|, i requires 0 <= i < |rounds| =>
      if Active(rounds[i].status) then rounds[i].(status := CancelledRound) else rounds[i])
  }

  // ---------------------------------------------------------------- settlement

  function StatsOf(bets: seq<Bet>, r: RoundId): Stats {
    Stats(Sum(AllIn(r), bets), Sum(WonIn(r), bets), Sum(LostIn(r), bets), Sum(PaidIn(r), bets), Sum(PendingIn(r), bets))
  }

  predicate SettlementAllows(s: State, r: RoundId, result: Color) {
    r in s.settlements && s.settlements[r].result == result
  }

  function CreditMovement(r: RoundId, user: UserId, amount: int): Movement {
    Movement(user, BetWinCredit, Credit, RoundReference, r, amount, Key.SettlementCredit(r, user))
  }

  // The transaction of settleWinnerUser.
  function SettleUser(s: State, r: RoundId, result: Color, user: UserId): State {
    var payout := Sum(Due(r, result, user), s.bets);
    if Sum(PendingWins(r, result, user), s.bets) == 0 || payout > MAX_SAFE_INTEGER then s
    else
      match Post(s.bank, CreditMovement(r, user, payout))
      case Moved(bank, _) => s.(bank := bank, bets := MarkWinner(s.bets, r, result, user))
      case Replayed(_) => s.(bets := MarkWinner(s.bets, r, result, user))
      case Refused(_) => s
  }

  // ---------------------------------------------------------------- placing a bet

  predicate ClientKeyUsed(bets: seq<Bet>, clientKey: string) {
    exists i :: 0 <= i < |bets| && bets[i].clientKey == clientKey
  }

  // The transaction of createBetAndDebitWallet. The request schema admits positive safe integers only.
  function PlaceBetTx(c: Config, s: State, user: UserId, r: RoundId, choice: Color, stake: int, clientKey: string,
                      beforeLock: bool): State
  {
    if !ValidAmount(stake) then s
    else if !(r < |s.rounds| && s.rounds[r].status == Open && beforeLock && !s.paused) then s
    else if Sum(LiveOfUser(r, user), s.bets) + stake > c.userCap then s
    else if Sum(LiveOfColor(r, choice), s.bets) + stake > c.colorCap then s
    else if ClientKeyUsed(s.bets, clientKey) then s
    else
      var id := |s.bets|;
      var bet := Bet(user, r, choice, stake, clientKey, Pending, 0);
      match Post(s.bank, Movement(user, BetDebit, Debit, BetReference, id, stake, StakeDebit(id, clientKey)))
      case Moved(bank, _) => s.(bank := bank, bets := s.bets + [bet])
      case Replayed(_) => s.(bets := s.bets + [bet])
      case Refused(_) => s
  }

  // ---------------------------------------------------------------- the engine's steps

  function ResolveTx(c: Config, s: State, pid: ProcessId, copy: Copy, seed: Option<Seed>): State {
    if seed.None? || c.hash(seed.value) != copy.hash then Become(s, pid, Recovering(copy.round))
    else
      var result := if copy.result.Some? then copy.result.value else ResultOf(c.hash(seed.value));
      var settle := Settling(copy.round, result, seed.value, false, Beginning);
      if copy.status == Resolving then Become(s, pid, settle)
      else if copy.round < |s.rounds| && s.rounds[copy.round].status == Locked then
        Become(s.(rounds := s.rounds[copy.round := Decided(s.rounds[copy.round], result, false)]), pid, settle)
      else Become(s, pid, Idle)
  }

  // Refund the listed bets and write the rounds back, or roll back.
  function CancelTx(s: State, targets: set<RoundId>, order: seq<BetId>, recovery: bool, rounds: seq<Round>): State {
    if !ListsPending(s, targets, order) then s
    else
      match RefundEach(Books(s.bank, s.bets), order, recovery)
      case None => s
      case Some(books) => s.(rounds := rounds, bank := books.bank, bets := books.bets)
  }

  function RecoverTx(s: State, pid: ProcessId, r: RoundId, order: seq<BetId>): State {
    if !(r < |s.rounds| && Active(s.rounds[r].status)) then Become(s, pid, Numbering)
    else if !ListsPending(s, {r}, order) then s
    else if RefundEach(Books(s.bank, s.bets), order, true).None? then Become(s, pid, Idle)
    else
      var rounds := s.rounds[r := s.rounds[r].(status := CancelledRound, result := None)];
      Become(CancelTx(s, {r}, order, true, rounds), pid, Numbering)
  }

  function ForceStartTx(c: Config, s: State, seed: Seed, order: seq<BetId>): State {
    CancelTx(s, ActiveRounds(s.rounds), order, false,
             CancelActive(s.rounds) + [NewRound(c, LatestNumber(s.rounds) + 1, Open, seed)])
  }

  function ForceStopTx(s: State, order: seq<BetId>): State {
    var found := FindActive(s.rounds);
    if found.None? then s
    else
      var r := found.value;
      CancelTx(s, {r}, order, false, s.rounds[r := s.rounds[r].(status := CancelledRound)])
  }

  function ForceResultTx(s: State, pid: ProcessId, result: Color): State {
    var found := FindActive(s.rounds);
    if found.None? then s
    else
      var r := found.value;
      var round := s.rounds[r];
      if round.result.Some? && round.result.value != result then s
      else Become(s.(rounds := s.rounds[r := Decided(round, result, true)]), pid, CheckingSeed(r, result, round.hash))
  }

  function BeginTx(s: State, pid: ProcessId, p: Process): State
    requires p.Settling?
  {
    var s' := if p.round in s.settlements then s
              else s.(settlements := s.settlements[p.round := Settlement(p.result, false, Stats(0, 0, 0, 0, 0))]);
    var row := s'.settlements[p.round];
    if row.result != p.result then Become(s', pid, Idle)
    else Become(s', pid, p.(stage := if row.success then Settled else Working))
  }

  // The last write of a resolution: guarded by RESOLVING in the engine, unguarded in forceResult.
  function FinishTx(s: State, pid: ProcessId, p: Process): State
    requires p.Settling?
  {
    var write := p.round < |s.rounds| && (p.forcing || s.rounds[p.round].status == Resolving);
    var s' := if write then
                s.(rounds := s.rounds[p.round := s.rounds[p.round].(status := Completed, result := Some(p.result), seedReveal := Some(p.seed))])
              else s;
    Become(s', pid, if p.forcing then Idle else Numbering)
  }

  function LookStep(s: State, pid: ProcessId): State {
    var r := FindActive(s.rounds);
    if !ProcessOf(s, pid).Idle? then s
    else Become(s, pid, Looked(if r.None? then None else Some(CopyOf(s, r.value))))
  }

  function ControlStep(s: State, pid: ProcessId): State {
    var p := ProcessOf(s, pid);
    if !p.Looked? then s
    else if s.paused then Become(s, pid, Idle)
    else if p.found.None? then Become(s, pid, Numbering)
    else Become(s, pid, Driving(p.found.value))
  }

  function NumberStep(s: State, pid: ProcessId): State {
    if ProcessOf(s, pid).Numbering? then Become(s, pid, Creating(LatestNumber(s.rounds))) else s
  }

  function CreateStep(c: Config, s: State, pid: ProcessId, seed: Seed): State {
    var p := ProcessOf(s, pid);
    if !p.Creating? then s
    else if FindActive(s.rounds).Some? then Become(s, pid, Idle)
    else if NumberTaken(s.rounds, p.latest + 1) then Become(s, pid, Idle)
    else Become(s.(rounds := s.rounds + [NewRound(c, p.latest + 1, Init, seed)]), pid, Opening(|s.rounds|))
  }

  function OpenStep(s: State, pid: ProcessId): State {
    var p := ProcessOf(s, pid);
    if p.Opening? then Become(Transition(s, p.round, Init, Open), pid, Idle)
    else if p.Driving? && p.copy.status == Init then
      Become(Transition(s, p.copy.round, Init, Open), pid, ReadingBack(p.copy.round))
    else s
  }

  function ReadBackStep(s: State, pid: ProcessId): State {
    var p := ProcessOf(s, pid);
    if p.ReadingBack? && p.round < |s.rounds| then Become(s, pid, Driving(CopyOf(s, p.round))) else s
  }

  // The count of the conditional update decides whether the round is read again.
  function LockStep(s: State, pid: ProcessId): State {
    var p := ProcessOf(s, pid);
    if !(p.Driving? && p.copy.status == Open) then s
    else if p.copy.round < |s.rounds| && s.rounds[p.copy.round].status == Open then
      Become(Transition(s, p.copy.round, Open, Locked), pid, ReadingBack(p.copy.round))
    else Become(s, pid, Idle)
  }

  function ResolveStep(c: Config, s: State, pid: ProcessId, read: Option<Seed>): State {
    var p := ProcessOf(s, pid);
    if p.Driving? && (p.copy.status == Locked || p.copy.status == Resolving) then ResolveTx(c, s, pid, p.copy, read) else s
  }

  function BeginStep(s: State, pid: ProcessId): State {
    var p := ProcessOf(s, pid);
    if p.Settling? && p.stage.Beginning? then BeginTx(s, pid, p) else s
  }

  function CountStep(s: State, pid: ProcessId): State {
    var p := ProcessOf(s, pid);
    if p.Settling? && p.stage.Working? then Become(s, pid, p.(stage := Counted(StatsOf(s.bets, p.round)))) else s
  }

  function CompleteStep(s: State, pid: ProcessId): State {
    var p := ProcessOf(s, pid);
    if !(p.Settling? && p.stage.Counted?) then s
    else if p.stage.stats.pending > 0 then Become(s, pid, Idle)
    else Become(s.(settlements := s.settlements[p.round := Settlement(p.result, true, p.stage.stats)]), pid, p.(stage := Settled))
  }

  function FinishStep(s: State, pid: ProcessId): State {
    var p := ProcessOf(s, pid);
    if p.Settling? && p.stage.Settled? then FinishTx(s, pid, p) else s
  }

  function ForceResultStep(s: State, pid: ProcessId, result: Color): State {
    if ProcessOf(s, pid).Idle? then ForceResultTx(s, pid, result) else s
  }

  function CheckSeedStep(c: Config, s: State, pid: ProcessId, read: Option<Seed>): State {
    var p := ProcessOf(s, pid);
    if !p.CheckingSeed? then s
    else if read.None? || c.hash(read.value) != p.hash then Become(s, pid, Idle)
    else Become(s, pid, Settling(p.round, p.result, read.value, true, Beginning))
  }

  // Steps that touch no bet and no wallet.
  predicate IsControl(a: Action) {
    a.LookForRound? || a.CheckControl? || a.ReadLatest? || a.CreateRound? || a.OpenRound? || a.ReadBack? || a.LockRound? ||
    a.ResolveRound? || a.BeginSettlement? || a.CountBets? || a.CompleteSettlement? || a.FinishRound? || a.ForceResult? ||
    a.CheckSeed? || a.Crash?
  }

  function ControlAction(c: Config, s: State, a: Action): State
    requires IsControl(a)
  {
    match a
    case LookForRound(pid) => LookStep(s, pid)
    case CheckControl(pid) => ControlStep(s, pid)
    case ReadLatest(pid) => NumberStep(s, pid)
    case CreateRound(pid, seed) => CreateStep(c, s, pid, seed)
    case OpenRound(pid) => OpenStep(s, pid)
    case ReadBack(pid) => ReadBackStep(s, pid)
    case LockRound(pid) => LockStep(s, pid)
    case ResolveRound(pid, read) => ResolveStep(c, s, pid, read)
    case BeginSettlement(pid) => BeginStep(s, pid)
    case CountBets(pid) => CountStep(s, pid)
    case CompleteSettlement(pid) => CompleteStep(s, pid)
    case FinishRound(pid) => FinishStep(s, pid)
    case ForceResult(pid, result) => ForceResultStep(s, pid, result)
    case CheckSeed(pid, read) => CheckSeedStep(c, s, pid, read)
    case Crash(pid) => Become(s, pid, Idle)
  }

  function AdjustmentMovement(user: UserId, amount: int, direction: Direction, reference: nat, key: Key): Movement {
    Movement(user, AdminAdjustment, direction, AdminAction, reference, amount, key)
  }

  // Steps on wallets alone, and the pause switch.
  predicate IsAccount(a: Action) {
    a.Register? || a.SetWalletActive? || a.AdjustWallet? || a.SetPaused?
  }

  function AccountAction(s: State, a: Action): State
    requires IsAccount(a)
  {
    match a
    case Register(user) =>
      var b := EnsureWallet(s.bank, user);
      if b.None? then s else s.(bank := b.value)
    case SetWalletActive(user, active) =>
      if user !in s.bank.wallets then s
      else s.(bank := s.bank.(wallets := s.bank.wallets[user := s.bank.wallets[user].(active := active)]))
    case AdjustWallet(user, amount, direction, reference, key) =>
      var posted := Post(s.bank, AdjustmentMovement(user, amount, direction, reference, key));
      if posted.Moved? then s.(bank := posted.bank) else s
    case SetPaused(paused) => s.(paused := paused)
  }

  // The losers' statement and the winners' transactions of any call that got past the settlement row:
  // they may still be under way after the call itself failed.
  function LosersStep(s: State, r: RoundId, result: Color): State {
    if SettlementAllows(s, r, result) then s.(bets := MarkLosers(s.bets, r, result)) else s
  }

  function WinnerStep(s: State, r: RoundId, result: Color, user: UserId): State {
    if SettlementAllows(s, r, result) then SettleUser(s, r, result, user) else s
  }

  function RecoverStep(s: State, pid: ProcessId, order: seq<BetId>): State {
    var p := ProcessOf(s, pid);
    if p.Recovering? then RecoverTx(s, pid, p.round, order) else s
  }

  function Step(c: Config, s: State, a: Action): State {
    if IsControl(a) then ControlAction(c, s, a)
    else if IsAccount(a) then AccountAction(s, a)
    else
      match a
      case PlaceBet(user, round, choice, stake, clientKey, beforeLock) =>
        PlaceBetTx(c, s, user, round, choice, stake, clientKey, beforeLock)
      case SettleLosers(round, result) => LosersStep(s, round, result)
      case SettleWinner(round, result, user) => WinnerStep(s, round, result, user)
      case RecoverRound(pid, order) => RecoverStep(s, pid, order)
      case ForceStart(seed, order) => ForceStartTx(c, s, seed, order)
      case ForceStop(order) => ForceStopTx(s, order)
  }

  function Run(c: Config, s: State, actions: seq<Action>): State {
    if |actions| == 0 then s else Step(c, Run(c, s, actions[..|actions| - 1]), actions[|actions| - 1])
  }
}
