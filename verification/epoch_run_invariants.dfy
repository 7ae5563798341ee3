/** What holds between any two instructions of an epoch. Each predicate speaks of a few accounts only,
    so that an instruction has to re-establish just the ones whose accounts it writes. */
module EpochRunInvariants {
  import opened Common
  import opened Sums
  import opened StakeWeight
  import opened EpochRunSpec
  import W = WeightTableSpec
  import WeightTableProofs
  import S = EpochSnapshotSpec
  import SnapshotProofs = EpochSnapshotProofs
  import B = BallotBoxSpec
  import BallotBoxProofs
  import Consensus
  import Base = BaseRewardRouterSpec
  import BaseTheorems = BaseRewardRouterTheorems
  import Ncn = NcnRewardRouterSpec
  import NcnProofs = NcnRewardRouterProofs
  import E = EpochStateSpec

  // ------------------------------------------------------------------
  // Account statuses
  // ------------------------------------------------------------------

  ghost predicate Mirrors<T>(account: Account<T>, status: E.Status, live: E.Status) {
    match account
    case Absent => status == E.DNE
    case Allocated => status == E.DNE
    case Live(_) => status == live
    case Closed(_) => status == E.Closed
  }

  ghost predicate OperatorsMirrored(operators: OperatorAccounts, statuses: E.OperatorStatuses) {
    forall i :: 0 <= i < MAX_OPERATORS ==> Mirrors(operators[i], statuses[i], E.Created)
  }

  ghost predicate RoutersMirrored(ncn: RouterAccounts, statuses: E.RouterStatuses) {
    forall k :: 0 <= k < E.NCN_ROUTER_COUNT ==> Mirrors(ncn[k], statuses[k], E.CreatedWithReceiver)
  }

  /** The epoch state knows exactly which accounts are initialized and which were closed. */
  ghost predicate StatusOk(w: World) {
    && Mirrors(w.table, w.state.status.weightTable, E.Created)
    && Mirrors(w.snapshot, w.state.status.epochSnapshot, E.Created)
    && OperatorsMirrored(w.operators, w.state.status.operators)
    && Mirrors(w.box, w.state.status.ballotBox, E.Created)
    && Mirrors(w.base, w.state.status.baseRouter, E.CreatedWithReceiver)
    && RoutersMirrored(w.ncn, w.state.status.ncnRouters)
  }

  // ------------------------------------------------------------------
  // Weights and snapshots
  // ------------------------------------------------------------------

  ghost predicate TableOk(table: Account<W.Table>, progress: E.Progress, vaultCount: U64) {
    table.Held() ==>
      && WeightTableProofs.TableCounts(table.data)
      && progress.tally == table.data.WeightCount() && progress.total == table.data.MintCount()
      && vaultCount == table.data.vaultCount
  }

  function OperatorCount(snapshot: Account<S.EpochSnapshot>): nat {
    if snapshot.Held() then snapshot.data.operatorCount else 0
  }

  function VaultCount(snapshot: Account<S.EpochSnapshot>): nat {
    if snapshot.Held() then snapshot.data.vaultCount else 0
  }

  /** An operator's snapshot exists only inside the epoch snapshot's count, is the sum of its
      delegations, and is shadowed by the epoch state. */
  ghost predicate OperatorAccountOk(c: Params, i: E.OperatorIndex, a: Account<S.OperatorSnapshot>, progress: E.Progress,
                                    operatorCount: nat, vaultCount: nat) {
    && (!a.Absent? ==> i < operatorCount)
    && (a.Held() ==>
         && SnapshotProofs.OperatorOk(a.data)
         && a.data.operator == c.operators[i] && a.data.ncnOperatorIndex == i && a.data.feeBps <= MAX_BPS
         && a.data.delegationCount == (if a.data.isActive then vaultCount else 0)
         && progress == (if a.data.isActive then E.Progress(a.data.registered, a.data.delegationCount)
                         else E.Progress(1, 1)))
  }

  ghost predicate OperatorsOk(c: Params, operators: OperatorAccounts, progress: E.OperatorProgress, operatorCount: nat,
                              vaultCount: nat) {
    forall i: E.OperatorIndex
      {:trigger OperatorAccountOk(c, i, operators[i], progress[i], operatorCount, vaultCount)} ::
      OperatorAccountOk(c, i, operators[i], progress[i], operatorCount, vaultCount)
  }

  predicate IsFinal(a: Account<S.OperatorSnapshot>) {
    a.Held() && a.data.Finalized()
  }

  function FinalFlags(operators: seq<Account<S.OperatorSnapshot>>): (r: seq<nat>)
    ensures |r| == |operators|
  {
    seq(|operators|, i requires 0 <= i < |operators| => if IsFinal(operators[i]) then 1 else 0)
  }

  function FinalValid(operators: seq<Account<S.OperatorSnapshot>>): (r: seq<nat>)
    ensures |r| == |operators|
  {
    seq(|operators|, i requires 0 <= i < |operators| =>
      if IsFinal(operators[i]) then operators[i].data.validDelegations else 0)
  }

  function FinalWeights(operators: seq<Account<S.OperatorSnapshot>>, m: Measure): (r: seq<nat>)
    ensures |r| == |operators|
  {
    seq(|operators|, i requires 0 <= i < |operators| =>
      if IsFinal(operators[i]) then operators[i].data.weights.Amount(m) else 0)
  }

  /** The epoch snapshot is, per measure, the sum of the finalized operator snapshots. */
  ghost predicate SumsOf(s: S.EpochSnapshot, operators: OperatorAccounts) {
    && s.operatorsRegistered == Sum(FinalFlags(operators))
    && s.validDelegations == Sum(FinalValid(operators))
    && forall m :: m != Heads ==> s.weights.Amount(m) == Sum(FinalWeights(operators, m))
  }

  ghost predicate SnapshotOk(snapshot: Account<S.EpochSnapshot>, table: Account<W.Table>, operators: OperatorAccounts,
                             progress: E.Progress) {
    && !snapshot.Allocated?
    && (snapshot.Held() ==>
         && table.Held() && table.data.Finalized()
         && snapshot.data.operatorCount > 0 && snapshot.data.vaultCount == table.data.vaultCount
         && progress == E.Progress(snapshot.data.operatorsRegistered, snapshot.data.operatorCount)
         && SumsOf(snapshot.data, operators))
  }

  // ------------------------------------------------------------------
  // Votes
  // ------------------------------------------------------------------

  function FindKey(keys: seq<Key>, key: Key, i: nat): (r: nat)
    requires i <= |keys|
    ensures i <= r <= |keys|
    ensures r < |keys| ==> keys[r] == key
    ensures forall j :: i <= j < r ==> keys[j] != key
    decreases |keys| - i
  {
    if i == |keys| || keys[i] == key then i else FindKey(keys, key, i + 1)
  }

  /** A recorded vote carries the weights of the voter's snapshot. */
  ghost predicate VoteOk(c: Params, operators: OperatorAccounts, vote: B.OperatorVote) {
    var i := FindKey(c.operators, vote.operator, 0);
    && i < MAX_OPERATORS
    && operators[i].Held() && operators[i].data.weights == vote.weights
  }

  ghost predicate VotesOk(c: Params, operators: OperatorAccounts, box: B.Box) {
    forall v {:trigger VoteOk(c, operators, box.votes[v])} :: 0 <= v < box.operatorsVoted && v < |box.votes| ==>
      VoteOk(c, operators, box.votes[v])
  }

  /** Nobody votes before the snapshot is final; from then on the winner is what the votes make it. */
  ghost predicate BoxOk(c: Params, box: Account<B.Box>, snapshot: Account<S.EpochSnapshot>, operators: OperatorAccounts,
                        voting: E.Progress) {
    box.Held() ==>
      && voting.tally == box.data.operatorsVoted
      && BallotBoxProofs.Valid(box.data)
      && (box.data.operatorsVoted == 0 ==> box.data == B.NewBox(c.epoch))
      && (box.data.operatorsVoted > 0 ==>
           && snapshot.Held() && snapshot.data.Finalized()
           && Consensus.WinnerOk(box.data, c.threshold, snapshot.data.weights.total)
           && VotesOk(c, operators, box.data))
  }

  /** The epoch state reports consensus exactly when the ballot box has it. */
  ghost predicate ConsensusOk(box: Account<B.Box>, slotConsensus: U64, tieBreaker: bool, slot: U64) {
    && (slotConsensus != E.NO_CONSENSUS <==> box.Held() && box.data.IsConsensusReached())
    && (slotConsensus != E.NO_CONSENSUS ==> slotConsensus <= slot)
    && (tieBreaker <==> box.Held() && box.data.TieBreakerSet())
    && (box.Held() && box.data.slotConsensus != B.NO_SLOT ==> slotConsensus == box.data.slotConsensus)
  }

  // ------------------------------------------------------------------
  // Rewards
  // ------------------------------------------------------------------

  predicate VotingOver(c: Params, box: B.Box, slot: U64) {
    B.IsVotingValid(box, slot, c.validSlots) == Ok(false)
  }

  /** A base router that was ever used belongs to a ballot box that takes no more votes. */
  ghost predicate BaseRouterOk(c: Params, r: Base.Router, box: Account<B.Box>, slot: U64) {
    || r == Base.NEW_ROUTER
    || (box.Held() && VotingOver(c, box.data, slot) && BaseTheorems.RouterOk(r, box.data))
  }

  /** Solvency of the base receiver, and its progress counter. */
  ghost predicate BaseOk(c: Params, base: Account<Base.Router>, box: Account<B.Box>, balance: U64, progress: E.Progress,
                         slot: U64) {
    && (base.Held() ==>
         && BaseRouterOk(c, base.data, box, slot)
         && progress.total == base.data.books.total
         && progress.tally + base.data.books.pool + base.data.books.processed == base.data.books.total)
    && (base.Allocated? ==> balance >= c.rent)
    && (base.Live? ==> balance as nat >= c.rent as nat + base.data.books.pool as nat + base.data.books.processed as nat)
  }

  /** The same for one operator's router of one group. Its run can always be resumed, unless the
      operator's snapshot grew since it was interrupted. */
  ghost predicate NcnRouterOk(c: Params, k: E.RouterIndex, a: Account<Ncn.Router>, o: Account<S.OperatorSnapshot>,
                              balance: U64,
                              progress: E.Progress, grown: bool) {
    && !a.Allocated?
    && (a.Held() ==>
         && o.Held() && NcnProofs.BooksOk(a.data, o.data)
         && progress.total == a.data.books.total
         && progress.tally + a.data.books.pool + a.data.books.processed == a.data.books.total)
    && (a.Live? ==>
         && (!grown ==> NcnProofs.CanResume(a.data, o.data, E.GroupOf(k)))
         && balance as nat >= c.rent as nat + a.data.books.pool as nat + a.data.books.processed as nat)
  }

  ghost predicate NcnOk(c: Params, ncn: RouterAccounts, operators: OperatorAccounts, balances: Balances,
                        progress: E.RouterProgress, grown: Flags) {
    forall k: E.RouterIndex
      {:trigger NcnRouterOk(c, k, ncn[k], operators[E.OperatorOf(k)], balances[k], progress[k], grown[k])} ::
      NcnRouterOk(c, k, ncn[k], operators[E.OperatorOf(k)], balances[k], progress[k], grown[k])
  }

  // ------------------------------------------------------------------
  // Lamports
  // ------------------------------------------------------------------

  /** What a receiver holds above the rent it was given when its router was created. */
  function AboveRent<T>(account: Account<T>, balance: nat, rent: nat): nat {
    if account.Absent? || account.Closed? then balance
    else if balance >= rent then balance - rent else 0
  }

  function AboveRents(ncn: RouterAccounts, balances: Balances, rent: nat): (r: seq<nat>)
    ensures |r| == E.NCN_ROUTER_COUNT
  {
    seq(E.NCN_ROUTER_COUNT, k requires 0 <= k < E.NCN_ROUTER_COUNT => AboveRent(ncn[k], balances[k], rent))
  }

  /** Conservation: paid out, still held, or swept to the DAO. */
  ghost predicate LedgerOk(paid: nat, base: Account<Base.Router>, baseBalance: nat, ncn: RouterAccounts,
                           balances: Balances,
                           swept: nat, deposited: nat, rent: nat) {
    paid + AboveRent(base, baseBalance, rent) + Sum(AboveRents(ncn, balances, rent)) + swept == deposited
  }

  // ------------------------------------------------------------------
  // Closing
  // ------------------------------------------------------------------

  ghost predicate NoneClosed(w: World) {
    && !w.table.Closed? && !w.snapshot.Closed? && !w.box.Closed? && !w.base.Closed?
    && (forall i :: 0 <= i < MAX_OPERATORS ==> !w.operators[i].Closed?)
    && (forall k :: 0 <= k < E.NCN_ROUTER_COUNT ==> !w.ncn[k].Closed?)
  }

  /** Nothing is closed before the closing flag is set, the flag waits for consensus and for enough
      epochs after it, and the epoch state goes last. */
  ghost predicate ClosingOk(c: Params, w: World) {
    && (!w.state.isClosing ==> NoneClosed(w))
    && (w.state.isClosing ==> E.CanClose(w.state, c.epochOf, c.epochsBeforeClose, w.slot) == Ok(true))
    && (w.stateClosed ==> w.state.isClosing && w.state.status.AllClosed())
  }

  ghost predicate Inv(c: Params, w: World) {
    && 0 < w.slot < E.NO_CONSENSUS
    && StatusOk(w)
    && TableOk(w.table, w.state.setWeight, w.state.vaultCount)
    && OperatorsOk(c, w.operators, w.state.operators, OperatorCount(w.snapshot), VaultCount(w.snapshot))
    && SnapshotOk(w.snapshot, w.table, w.operators, w.state.snapshot)
    && BoxOk(c, w.box, w.snapshot, w.operators, w.state.voting)
    && ConsensusOk(w.box, w.state.slotConsensus, w.state.wasTieBreakerSet, w.slot)
    && BaseOk(c, w.base, w.box, w.baseBalance, w.state.base, w.slot)
    && NcnOk(c, w.ncn, w.operators, w.ncnBalances, w.state.ncn, w.grown)
    && LedgerOk(w.state.total.tally, w.base, w.baseBalance, w.ncn, w.ncnBalances, w.swept, w.deposited, c.rent)
    && ClosingOk(c, w)
  }

  /** A fresh epoch. */
  lemma {:induction false} StartInv(c: Params, slot: U64)
    requires ParamsOk(c) && 0 < slot < E.NO_CONSENSUS
    ensures Inv(c, Start(slot))
  {
    var w := Start(slot);
    SumZero(AboveRents(w.ncn, w.ncnBalances, c.rent));
  }

  lemma {:induction false} KeyIsAt(c: Params, i: E.OperatorIndex)
    requires ParamsOk(c)
    ensures FindKey(c.operators, c.operators[i], 0) == i
  {
  }
}
