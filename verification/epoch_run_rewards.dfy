/** The invariants through routing, payouts and deposits. */
module EpochRunRewards {
  import opened Common
  import opened Sums
  import opened FeesSpec
  import opened InstructionsSpec
  import opened EpochRunSpec
  import opened EpochRunInvariants
  import B = BallotBoxSpec
  import BallotBoxProofs
  import Consensus
  import Base = BaseRewardRouterSpec
  import BaseTheorems = BaseRewardRouterTheorems
  import Ncn = NcnRewardRouterSpec
  import NcnProofs = NcnRewardRouterProofs
  import E = EpochStateSpec

  // ------------------------------------------------------------------
  // The base router
  // ------------------------------------------------------------------

  /** Voting is only over once somebody won, so a router that may be used finds a winner. */
  lemma {:induction false} WinnerForRouting(c: Params, w: World)
    requires ParamsOk(c) && Inv(c, w) && w.box.Held() && VotingOver(c, w.box.data, w.slot)
    ensures w.snapshot.Held() && w.box.data.IsConsensusReached()
    ensures BallotBoxProofs.Valid(w.box.data)
    ensures Consensus.WinnerOk(w.box.data, c.threshold, w.snapshot.data.weights.total)
  {
  }

  lemma {:induction false} UsedRouterOk(c: Params, w: World)
    requires ParamsOk(c) && Inv(c, w) && w.base.Held() && w.box.Held()
    ensures BaseTheorems.RouterOk(w.base.data, w.box.data)
  {
    BaseTheorems.NewRouterOk(w.box.data);
  }

  /** A router that holds anything to pay out has been used, so there is a ballot box to pay by. */
  lemma {:induction false} PayingRouterOk(c: Params, w: World) returns (box: B.Box)
    requires ParamsOk(c) && Inv(c, w) && w.base.Held()
    ensures BaseTheorems.RouterOk(w.base.data, box)
    ensures w.base.data != Base.NEW_ROUTER ==> w.box.Held() && box == w.box.data && VotingOver(c, box, w.slot)
  {
    if w.base.data == Base.NEW_ROUTER {
      box := B.NewBox(c.epoch);
      BaseTheorems.NewRouterOk(box);
    } else {
      box := w.box.data;
    }
  }

  /** The base router after a call. */
  lemma {:induction false} RoutedBaseOk(c: Params, w: World, maxIterations: U16)
    requires ParamsOk(c) && Inv(c, w) && w.box.Held() && w.snapshot.Held() && w.base.Live?
    requires VotingOver(c, w.box.data, w.slot)
    requires BaseTheorems.RouteBase(w.base.data, w.box.data, w.snapshot.data.fees, c.rent, w.baseBalance,
                                    maxIterations).Ok?
    ensures var r' := BaseTheorems.RouteBase(w.base.data, w.box.data, w.snapshot.data.fees, c.rent, w.baseBalance,
                                             maxIterations).value;
      && BaseOk(c, Live(r'), w.box, w.baseBalance, w.state.base.(total := r'.books.total), w.slot)
      && w.baseBalance >= c.rent
  {
    WinnerForRouting(c, w);
    UsedRouterOk(c, w);
    BaseTheorems.RouteBaseSucceeds(w.base.data, w.box.data, c.threshold, w.snapshot.data.weights.total,
                                   w.snapshot.data.fees,
                                   c.rent, w.baseBalance, maxIterations);
  }

  lemma {:induction false} RouteBaseKeeps(c: Params, w: World, maxIterations: U16)
    requires ParamsOk(c) && Inv(c, w) && DoRouteBase(c, w, maxIterations).Ok?
    ensures Inv(c, DoRouteBase(c, w, maxIterations).value)
  {
    RoutedBaseOk(c, w, maxIterations);
  }

  /** An untouched router has nothing in any bucket. */
  lemma {:induction false} NewRouterPaysNothing(g: Group, operator: Named)
    ensures Base.DistributeBase(Base.NEW_BOOKS, g) == Ok((Base.NEW_BOOKS, 0))
    ensures Base.DistributeRoute(Base.NEW_BOOKS, g, operator).Err?
  {
    assert Base.NEW_BOOKS.base[g := 0] == Base.NEW_BOOKS.base;
  }

  /** A payout of the base router: `paid` leaves the books, the receiver and the rest of the counter
      alike. */
  lemma {:induction false} PaidBaseOk(c: Params, w: World, books: Base.Books, paid: nat, balance: U64,
                                      progress: E.Progress)
    requires ParamsOk(c) && Inv(c, w) && w.base.Live?
    requires BaseRouterOk(c, w.base.data.(books := books), w.box, w.slot)
    requires books.total == w.base.data.books.total && books.pool == w.base.data.books.pool
    requires books.processed + paid == w.base.data.books.processed
    requires balance + paid == w.baseBalance && progress.tally == w.state.base.tally + paid
    requires progress.total == w.state.base.total
    ensures BaseOk(c, Live(w.base.data.(books := books)), w.box, balance, progress, w.slot)
    ensures AboveRent(Live(w.base.data.(books := books)), balance, c.rent) + paid
         == AboveRent(w.base, w.baseBalance, c.rent)
  {
  }

  lemma {:induction false} DistributeBaseKeeps(c: Params, w: World, g: Group)
    requires ParamsOk(c) && Inv(c, w) && DoDistributeBase(w, g).Ok?
    ensures Inv(c, DoDistributeBase(w, g).value)
  {
    var w' := DoDistributeBase(w, g).value;
    var (books, paid) := Base.DistributeBase(w.base.data.books, g).value;
    PaidBucketOk(c, w, g);
    PaidBaseOk(c, w, books, paid, w'.baseBalance, w'.state.base);
  }

  lemma {:induction false} PaidBucketOk(c: Params, w: World, g: Group)
    requires ParamsOk(c) && Inv(c, w) && w.base.Live? && !w.base.data.StillRouting()
    ensures Base.DistributeBase(w.base.data.books, g).Ok?
    ensures var (books, paid) := Base.DistributeBase(w.base.data.books, g).value;
      && BaseRouterOk(c, w.base.data.(books := books), w.box, w.slot)
      && books.total == w.base.data.books.total && books.pool == w.base.data.books.pool
      && books.processed + paid == w.base.data.books.processed
  {
    var box := PayingRouterOk(c, w);
    BaseTheorems.DistributeBaseKeeps(w.base.data, box, g);
    NewRouterPaysNothing(g, 1);
  }

  lemma {:induction false} PaidRouteOk(c: Params, w: World, g: Group, operator: Named)
    requires ParamsOk(c) && Inv(c, w) && w.base.Live? && !w.base.data.StillRouting()
    requires Base.DistributeRoute(w.base.data.books, g, operator).Ok?
    ensures var (books, paid) := Base.DistributeRoute(w.base.data.books, g, operator).value;
      && BaseRouterOk(c, w.base.data.(books := books), w.box, w.slot)
      && books.total == w.base.data.books.total && books.pool == w.base.data.books.pool
      && books.processed + paid == w.base.data.books.processed
  {
    var box := PayingRouterOk(c, w);
    BaseTheorems.DistributeRouteKeeps(w.base.data, box, g, operator);
    NewRouterPaysNothing(g, operator);
  }

  // ------------------------------------------------------------------
  // The routers of the operators
  // ------------------------------------------------------------------

  lemma {:induction false} OneRouter(c: Params, ncn: RouterAccounts, operators: OperatorAccounts, balances: Balances,
                                     progress: E.RouterProgress,
                                     grown: Flags, k: E.RouterIndex, a: Account<Ncn.Router>, balance: U64,
                                     p: E.Progress, g: bool)
    requires NcnOk(c, ncn, operators, balances, progress, grown)
    requires NcnRouterOk(c, k, a, operators[E.OperatorOf(k)], balance, p, g)
    ensures NcnOk(c, ncn[k := a], operators, balances[k := balance], progress[k := p], grown[k := g])
  {
    var ncn', balances', progress', grown' := ncn[k := a], balances[k := balance], progress[k := p], grown[k := g];
    forall j: E.RouterIndex
      ensures NcnRouterOk(c, j, ncn'[j], operators[E.OperatorOf(j)], balances'[j], progress'[j], grown'[j])
    {
      assert NcnRouterOk(c, j, ncn[j], operators[E.OperatorOf(j)], balances[j], progress[j], grown[j]);
    }
  }

  lemma {:induction false} OneRouterMirrored(ncn: RouterAccounts, statuses: E.RouterStatuses, k: E.RouterIndex,
                                             a: Account<Ncn.Router>, status: E.Status)
    requires RoutersMirrored(ncn, statuses) && Mirrors(a, status, E.CreatedWithReceiver)
    ensures RoutersMirrored(ncn[k := a], statuses[k := status])
  {
  }

  /** A change of one receiver moves the lamports above rent by that receiver's change. */
  lemma {:induction false} OneReceiver(ncn: RouterAccounts, balances: Balances, rent: nat, k: E.RouterIndex,
                                       a: Account<Ncn.Router>, balance: U64)
    ensures Sum(AboveRents(ncn[k := a], balances[k := balance], rent)) + AboveRent(ncn[k], balances[k], rent)
         == Sum(AboveRents(ncn, balances, rent)) + AboveRent(a, balance, rent)
  {
    assert AboveRents(ncn[k := a], balances[k := balance], rent)
         == AboveRents(ncn, balances, rent)[k := AboveRent(a, balance, rent)];
    SumUpdate(AboveRents(ncn, balances, rent), k, AboveRent(a, balance, rent));
  }

  lemma {:induction false} SameAt<T>(s: seq<T>, k: nat)
    requires k < |s|
    ensures s[k := s[k]] == s
  {
  }

  lemma {:induction false} InitNcnRouterKeeps(c: Params, w: World, k: E.RouterIndex)
    requires ParamsOk(c) && Inv(c, w) && DoInitNcnRouter(c, w, k).Ok?
    ensures Inv(c, DoInitNcnRouter(c, w, k).value)
  {
    var w' := DoInitNcnRouter(c, w, k).value;
    var o := w.operators[E.OperatorOf(k)].data;
    NcnProofs.NewRouterOk(o, E.GroupOf(k));
    OneRouter(c, w.ncn, w.operators, w.ncnBalances, w.state.ncn, w.grown, k, Live(Ncn.NEW_ROUTER), w'.ncnBalances[k],
              E.ZERO, w.grown[k]);
    SameAt(w.grown, k);
    OneRouterMirrored(w.ncn, w.state.status.ncnRouters, k, Live(Ncn.NEW_ROUTER), E.CreatedWithReceiver);
    OneReceiver(w.ncn, w.ncnBalances, c.rent, k, Live(Ncn.NEW_ROUTER), w'.ncnBalances[k]);
  }

  lemma {:induction false} DepositNcnKeeps(c: Params, w: World, k: E.RouterIndex, amount: U64)
    requires ParamsOk(c) && Inv(c, w) && DoDepositNcn(w, k, amount).Ok?
    ensures Inv(c, DoDepositNcn(w, k, amount).value)
  {
    var w' := DoDepositNcn(w, k, amount).value;
    RicherReceiverOk(c, w, k, w'.ncnBalances[k]);
  }

  /** What the instruction writes. */
  lemma {:induction false} MovedRouteWorld(c: Params, w: World, k: E.RouterIndex) returns (books: Base.Books, paid: U64)
    requires DoDistributeBaseNcn(c, w, k).Ok?
    ensures w.base.Live? && !w.base.data.StillRouting() && w.ncn[k].Live?
    ensures Base.DistributeRoute(w.base.data.books, E.GroupOf(k), c.operators[E.OperatorOf(k)]) == Ok((books, paid))
    ensures paid <= w.baseBalance && w.ncnBalances[k] + paid <= U64_MAX && w.state.base.tally + paid <= U64_MAX
    ensures DoDistributeBaseNcn(c, w, k).value
         == w.(state := w.state.(base := w.state.base.(tally := w.state.base.tally + paid)),
               base := Live(w.base.data.(books := books)), baseBalance := w.baseBalance - paid,
               ncnBalances := w.ncnBalances[k := w.ncnBalances[k] + paid])
  {
    var result := Base.DistributeRoute(w.base.data.books, E.GroupOf(k), c.operators[E.OperatorOf(k)]).value;
    books, paid := result.0, result.1;
  }

  /** Moving a route from the base receiver to an operator's: what leaves one enters the other. */
  lemma {:induction false} DistributeBaseNcnKeeps(c: Params, w: World, k: E.RouterIndex)
    requires ParamsOk(c) && Inv(c, w) && DoDistributeBaseNcn(c, w, k).Ok?
    ensures Inv(c, DoDistributeBaseNcn(c, w, k).value)
  {
    var books, paid := MovedRouteWorld(c, w, k);
    MovedRouteKeeps(c, w, DoDistributeBaseNcn(c, w, k).value, k, books, paid);
  }

  lemma {:induction false} MovedRouteKeeps(c: Params, w: World, w': World, k: E.RouterIndex, books: Base.Books,
                                           paid: U64)
    requires ParamsOk(c) && Inv(c, w)
    requires w.base.Live? && !w.base.data.StillRouting() && w.ncn[k].Live?
    requires Base.DistributeRoute(w.base.data.books, E.GroupOf(k), c.operators[E.OperatorOf(k)]) == Ok((books, paid))
    requires paid <= w.baseBalance && w.ncnBalances[k] + paid <= U64_MAX && w.state.base.tally + paid <= U64_MAX
    requires w' == w.(state := w.state.(base := w.state.base.(tally := w.state.base.tally + paid)),
                      base := Live(w.base.data.(books := books)), baseBalance := w.baseBalance - paid,
                      ncnBalances := w.ncnBalances[k := w.ncnBalances[k] + paid])
    ensures Inv(c, w')
  {
    PaidRouteOk(c, w, E.GroupOf(k), c.operators[E.OperatorOf(k)]);
    PaidBaseOk(c, w, books, paid, w'.baseBalance, w'.state.base);
    RicherReceiverOk(c, w, k, w'.ncnBalances[k]);
  }

  /** Lamports that reach an operator's receiver, from wherever. */
  lemma {:induction false} RicherReceiverOk(c: Params, w: World, k: E.RouterIndex, balance: U64)
    requires NcnOk(c, w.ncn, w.operators, w.ncnBalances, w.state.ncn, w.grown)
    requires balance >= w.ncnBalances[k]
    ensures NcnOk(c, w.ncn, w.operators, w.ncnBalances[k := balance], w.state.ncn, w.grown)
    ensures Sum(AboveRents(w.ncn, w.ncnBalances[k := balance], c.rent)) + AboveRent(w.ncn[k], w.ncnBalances[k], c.rent)
         == Sum(AboveRents(w.ncn, w.ncnBalances, c.rent)) + AboveRent(w.ncn[k], balance, c.rent)
    ensures AboveRent(w.ncn[k], balance, c.rent) as nat + w.ncnBalances[k] as nat
         == AboveRent(w.ncn[k], w.ncnBalances[k], c.rent) as nat + balance as nat
  {
    assert NcnRouterOk(c, k, w.ncn[k], w.operators[E.OperatorOf(k)], w.ncnBalances[k], w.state.ncn[k], w.grown[k]);
    OneRouter(c, w.ncn, w.operators, w.ncnBalances, w.state.ncn, w.grown, k, w.ncn[k], balance, w.state.ncn[k],
              w.grown[k]);
    SameAt(w.grown, k);
    SameAt(w.ncn, k);
    SameAt(w.state.ncn, k);
    OneReceiver(w.ncn, w.ncnBalances, c.rent, k, w.ncn[k], balance);
  }

  /** The router after a call, whether or not the snapshot grew. */
  lemma {:induction false} RoutedRouterOk(c: Params, w: World, k: E.RouterIndex, maxIterations: U16)
    requires ParamsOk(c) && Inv(c, w) && DoRouteNcn(c, w, k, maxIterations).Ok?
    ensures var w' := DoRouteNcn(c, w, k, maxIterations).value;
      NcnRouterOk(c, k, w'.ncn[k], w.operators[E.OperatorOf(k)], w.ncnBalances[k], w'.state.ncn[k], w'.grown[k])
  {
    var o, r := w.operators[E.OperatorOf(k)].data, w.ncn[k].data;
    var i := E.OperatorOf(k);
    assert OperatorAccountOk(c, i, w.operators[i], w.state.operators[i], OperatorCount(w.snapshot),
                             VaultCount(w.snapshot));
    assert NcnRouterOk(c, k, w.ncn[k], w.operators[i], w.ncnBalances[k], w.state.ncn[k], w.grown[k]);
    if r.StillRouting() && w.grown[k] {
      NcnProofs.ResumedCallKeepsBooks(r, o, E.GroupOf(k), maxIterations);
    } else {
      NcnProofs.RouteNcnSucceeds(r, o, E.GroupOf(k), c.rent, w.ncnBalances[k], maxIterations);
    }
  }

  /** Replacing one operator's router and its receiver's balance, with nothing else touched. */
  lemma {:induction false} ReplacedRouter(c: Params, w: World, k: E.RouterIndex, a: Account<Ncn.Router>, balance: U64,
                                          p: E.Progress, g: bool)
    requires Inv(c, w) && w.ncn[k].Live? && a.Live?
    requires NcnRouterOk(c, k, a, w.operators[E.OperatorOf(k)], balance, p, g)
    ensures NcnOk(c, w.ncn[k := a], w.operators, w.ncnBalances[k := balance], w.state.ncn[k := p], w.grown[k := g])
    ensures RoutersMirrored(w.ncn[k := a], w.state.status.ncnRouters)
    ensures balance >= c.rent && w.ncnBalances[k] >= c.rent
    ensures Sum(AboveRents(w.ncn[k := a], w.ncnBalances[k := balance], c.rent)) + w.ncnBalances[k] as nat
         == Sum(AboveRents(w.ncn, w.ncnBalances, c.rent)) + balance as nat
  {
    assert NcnRouterOk(c, k, w.ncn[k], w.operators[E.OperatorOf(k)], w.ncnBalances[k], w.state.ncn[k], w.grown[k]);
    OneRouter(c, w.ncn, w.operators, w.ncnBalances, w.state.ncn, w.grown, k, a, balance, p, g);
    OneRouterMirrored(w.ncn, w.state.status.ncnRouters, k, a, w.state.status.ncnRouters[k]);
    SameAt(w.state.status.ncnRouters, k);
    OneReceiver(w.ncn, w.ncnBalances, c.rent, k, a, balance);
  }

  lemma {:induction false} RouteNcnKeeps(c: Params, w: World, k: E.RouterIndex, maxIterations: U16)
    requires ParamsOk(c) && Inv(c, w) && DoRouteNcn(c, w, k, maxIterations).Ok?
    ensures Inv(c, DoRouteNcn(c, w, k, maxIterations).value)
  {
    var w' := DoRouteNcn(c, w, k, maxIterations).value;
    RoutedRouterOk(c, w, k, maxIterations);
    ReplacedRouter(c, w, k, w'.ncn[k], w.ncnBalances[k], w'.state.ncn[k], w'.grown[k]);
    SameAt(w.ncnBalances, k);
  }

  /** Both payouts of an operator's router: `paid` leaves the books and the receiver alike. */
  lemma {:induction false} PaidRouterOk(c: Params, w: World, k: E.RouterIndex, books: Ncn.Books, paid: nat,
                                        balance: U64, p: E.Progress)
    requires Inv(c, w) && w.ncn[k].Live? && !w.ncn[k].data.StillRouting() && w.operators[E.OperatorOf(k)].Held()
    requires NcnProofs.BooksOk(w.ncn[k].data.(books := books), w.operators[E.OperatorOf(k)].data)
    requires var r := w.ncn[k].data;
      books.total == r.books.total && books.pool == r.books.pool && books.processed + paid == r.books.processed
    requires balance + paid == w.ncnBalances[k] && p.tally == w.state.ncn[k].tally + paid
    requires p.total == w.state.ncn[k].total
    ensures NcnRouterOk(c, k, Live(w.ncn[k].data.(books := books)), w.operators[E.OperatorOf(k)], balance, p,
                        w.grown[k])
  {
    assert NcnRouterOk(c, k, w.ncn[k], w.operators[E.OperatorOf(k)], w.ncnBalances[k], w.state.ncn[k], w.grown[k]);
  }

  lemma {:induction false} PaidRouterKeeps(c: Params, w: World, w': World, k: E.RouterIndex, books: Ncn.Books,
                                           paid: U64)
    requires ParamsOk(c) && Inv(c, w) && w.ncn[k].Live? && !w.ncn[k].data.StillRouting()
    requires w.operators[E.OperatorOf(k)].Held()
    requires NcnProofs.BooksOk(w.ncn[k].data.(books := books), w.operators[E.OperatorOf(k)].data)
    requires var r := w.ncn[k].data;
      books.total == r.books.total && books.pool == r.books.pool && books.processed + paid == r.books.processed
    requires paid <= w.ncnBalances[k] && E.DistributeNcn(w.state, k, paid).Ok?
    requires w' ==
      w.(state := E.DistributeNcn(w.state, k, paid).value,
         ncn := w.ncn[k := Live(w.ncn[k].data.(books := books))],
         ncnBalances := w.ncnBalances[k := w.ncnBalances[k] - paid])
    ensures Inv(c, w')
  {
    PaidRouterOk(c, w, k, books, paid, w'.ncnBalances[k], w'.state.ncn[k]);
    ReplacedRouter(c, w, k, w'.ncn[k], w'.ncnBalances[k], w'.state.ncn[k], w.grown[k]);
    SameAt(w.grown, k);
  }

  lemma {:induction false} DistributeNcnOperatorKeeps(c: Params, w: World, k: E.RouterIndex)
    requires ParamsOk(c) && Inv(c, w) && DoDistributeNcnOperator(w, k).Ok?
    ensures Inv(c, DoDistributeNcnOperator(w, k).value)
  {
    assert NcnRouterOk(c, k, w.ncn[k], w.operators[E.OperatorOf(k)], w.ncnBalances[k], w.state.ncn[k], w.grown[k]);
    NcnProofs.DistributeOperatorKeeps(w.ncn[k].data, w.operators[E.OperatorOf(k)].data);
    var (books, paid) := Ncn.DistributeOperator(w.ncn[k].data.books).value;
    PaidRouterKeeps(c, w, DoDistributeNcnOperator(w, k).value, k, books, paid);
  }

  lemma {:induction false} DistributeNcnVaultKeeps(c: Params, w: World, k: E.RouterIndex, vault: Named)
    requires ParamsOk(c) && Inv(c, w) && DoDistributeNcnVault(w, k, vault).Ok?
    ensures Inv(c, DoDistributeNcnVault(w, k, vault).value)
  {
    RouterOkAt(c, w, k);
    NcnProofs.DistributeVaultKeeps(w.ncn[k].data, w.operators[E.OperatorOf(k)].data, vault);
    var (books, paid) := Ncn.DistributeVault(w.ncn[k].data.books, vault).value;
    PaidRouterKeeps(c, w, DoDistributeNcnVault(w, k, vault).value, k, books, paid);
  }

  lemma {:induction false} RouterOkAt(c: Params, w: World, k: E.RouterIndex)
    requires Inv(c, w)
    ensures NcnRouterOk(c, k, w.ncn[k], w.operators[E.OperatorOf(k)], w.ncnBalances[k], w.state.ncn[k], w.grown[k])
  {
  }
}
