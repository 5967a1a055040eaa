/**
 * What `prepare_and_validate` promises, stated over its pure model `Prepare`
 * and the stage functions that compose it.
 */
module DepositLiquidityProperties {
  import opened Wrappers
  import opened Fixed
  import opened Bound
  import opened DepositLiquidity

  /** A concrete check by `source` gets past lines 60-131 and reads these four balances. */
  predicate PreludePasses(a: Action, source: AccountId, s: Snapshot,
                          bs: Balance, ts: Balance, bp: Balance, tp: Balance)
  {
    && !IsAbstractChecking(a)
    && (a.clientAccount.None? || a.clientAccount == Some(source))
    && s.poolAccountId.Ok? && s.poolValidity.Pass?
    && s.markingAsset == Ok(a.destination.asset)
    && s.sourceBalance0 == Ok(bs) && s.sourceBalance1 == Ok(ts) && bs > 0 && ts > 0
    && s.poolBalance0 == Ok(bp) && s.poolBalance1 == Ok(tp)
  }

  /** The minimum liquidity a check settles on once line 289 is passed. */
  function SettledMinLiquidity(a: Action, s: Snapshot): Balance
  {
    if a.minLiquidity.None? then s.minLiquidity else a.minLiquidity.value
  }

  // ------------------------------------------------------- what each step keeps

  /** The accounts an action names. */
  predicate SameAccounts(a: Action, b: Action)
  {
    a.clientAccount == b.clientAccount && a.receiverAccount == b.receiverAccount && a.poolAccount == b.poolAccount
  }

  lemma MarkerDesiredFrame(rev: Revision, a: Action, l: Locals, poolK: Balance, destinationK: Balance)
    ensures var b := MarkerDesired(rev, a, l, poolK, destinationK).action;
      SameAccounts(a, b) && b.destination == a.destination && b.minLiquidity == a.minLiquidity
  {
  }

  lemma RangeBothFrame(a: Action, l: Locals, s: Snapshot, xdes: Balance, xmin: Balance,
                       ydes: Balance, ymin: Balance, destAmount: Bounds)
    ensures var b := RangeBoth(a, l, s, xdes, xmin, ydes, ymin, destAmount).action;
      SameAccounts(a, b) && b.minLiquidity == a.minLiquidity
  {
  }

  /** Lines 155-273 touch only the amounts, and nothing at all in an abstract check. */
  lemma ResolveAmountsFrame(rev: Revision, a: Action, l: Locals, s: Snapshot)
    ensures var r := ResolveAmounts(rev, a, l, s);
      && SameAccounts(a, r.action) && r.action.minLiquidity == a.minLiquidity
      && (l.abstractChecking ==> r.action == a)
      && (r.Proceed? ==> r.locals == l.(poolK := r.locals.poolK))
  {
    match PoolInvariant(l)
    case Err(_) =>
    case Ok(poolK) =>
      var l1 := l.(poolK := poolK);
      if l1.abstractChecking || poolK.None? || l1.emptyPool {
      } else {
        match (a.source0.amount, a.source1.amount, a.destination.amount)
        case (_, _, Desired(destinationK)) =>
          MarkerDesiredFrame(rev, a, l1, poolK.value, destinationK);
        case (RangeFromDesiredToMin(xdes, xmin), RangeFromDesiredToMin(ydes, ymin), destAmount) =>
          RangeBothFrame(a, l1, s, xdes, xmin, ydes, ymin, destAmount);
        case _ =>
      }
  }

  /** In an abstract check lines 155-273 do not read the snapshot. */
  lemma AbstractAmountsIgnoreSnapshot(rev: Revision, a: Action, l: Locals, s: Snapshot, s2: Snapshot)
    requires l.abstractChecking
    ensures ResolveAmounts(rev, a, l, s) == ResolveAmounts(rev, a, l, s2)
  {
  }

  /** An abstract check takes lines 60-153 without touching the action or the source's balances. */
  lemma AbstractStart(a: Action, sourceOpt: Option<AccountId>, s: Snapshot,
                      bs: Result<Balance, Error>, ts: Result<Balance, Error>)
    requires AbstractChecking(a, sourceOpt)
    ensures Start(a, sourceOpt, s).action == a
    ensures Start(a, sourceOpt, s).Proceed? ==> Start(a, sourceOpt, s).locals.abstractChecking
    ensures Start(a, sourceOpt, s) == Start(a, sourceOpt, s.(sourceBalance0 := bs, sourceBalance1 := ts))
  {
  }

  /** A concrete check leaves lines 60-153 either refused on the account or with the accounts bound. */
  lemma ConcreteStart(a: Action, source: AccountId, s: Snapshot)
    requires !IsAbstractChecking(a)
    ensures a.clientAccount.Some? && a.clientAccount != Some(source) ==>
              Start(a, Some(source), s) == Halt(Failed(SourceAndClientAccountDoNotMatchAsEqual), a)
    ensures a.clientAccount.None? || a.clientAccount == Some(source) ==>
              Start(a, Some(source), s).action == BindAccounts(a, source)
    ensures Start(a, Some(source), s).Proceed? ==>
              var l := Start(a, Some(source), s).locals;
              var b := Start(a, Some(source), s).action;
              && !l.abstractChecking && l.poolK.None?
              && s.sourceBalance0 == Ok(l.sourceBase) && s.sourceBalance1 == Ok(l.sourceTarget)
              && (l.emptyPool ==> Definite(b.source0.amount).Some? && Definite(b.source1.amount).Some?)
  {
  }

  /**
   * After line 153 the remaining steps keep the accounts: `Prepare` ends with the
   * accounts `Start` left.
   */
  lemma {:induction false} PrepareKeepsStartAccounts(rev: Revision, a: Action, sourceOpt: Option<AccountId>, s: Snapshot)
    ensures SameAccounts(Start(a, sourceOpt, s).action, Prepare(rev, a, sourceOpt, s).1)
  {
    match Start(a, sourceOpt, s)
    case Halt(_, _) =>
    case Proceed(a1, l1) =>
      ResolveAmountsFrame(rev, a1, l1, s);
      match ResolveAmounts(rev, a1, l1, s)
      case Halt(_, _) =>
      case Proceed(a2, l2) =>
        match ResolveMinLiquidity(a2, l2, s.minLiquidity)
        case Halt(_, _) =>
        case Proceed(a3, l3) =>
          match CheckLimits(rev, a3, l3)
          case Halt(_, _) =>
          case Proceed(a4, l4) =>
  }

  // ---------------------------------------------------------------- accounts

  /**
   * An abstract check never binds the client or the receiver account, never
   * rewrites a source leg, and never reads the source account's balances.
   */
  lemma {:induction false} AbstractCheckKeepsAccountsAndSources(rev: Revision, a: Action, sourceOpt: Option<AccountId>,
                                             s: Snapshot, bs: Result<Balance, Error>, ts: Result<Balance, Error>)
    requires AbstractChecking(a, sourceOpt)
    ensures var r := Prepare(rev, a, sourceOpt, s).1;
      && r.clientAccount == a.clientAccount && r.receiverAccount == a.receiverAccount
      && r.source0 == a.source0 && r.source1 == a.source1 && r.poolAccount == a.poolAccount
    ensures Prepare(rev, a, sourceOpt, s) == Prepare(rev, a, sourceOpt, s.(sourceBalance0 := bs, sourceBalance1 := ts))
  {
    var s2 := s.(sourceBalance0 := bs, sourceBalance1 := ts);
    AbstractStart(a, sourceOpt, s, bs, ts);
    PrepareKeepsStartAccounts(rev, a, sourceOpt, s);
    match Start(a, sourceOpt, s)
    case Halt(_, _) =>
    case Proceed(a1, l1) =>
      ResolveAmountsFrame(rev, a1, l1, s);
      AbstractAmountsIgnoreSnapshot(rev, a1, l1, s, s2);
  }

  /**
   * In a concrete check an unset client account becomes the source, a different
   * one is refused before anything changes, and an unset receiver becomes the client.
   */
  lemma {:induction false} ConcreteCheckBindsAccounts(rev: Revision, a: Action, source: AccountId, s: Snapshot)
    requires !IsAbstractChecking(a)
    ensures a.clientAccount.Some? && a.clientAccount != Some(source) ==>
              Prepare(rev, a, Some(source), s) == (Failed(SourceAndClientAccountDoNotMatchAsEqual), a)
    ensures a.clientAccount.None? || a.clientAccount == Some(source) ==>
              var r := Prepare(rev, a, Some(source), s).1;
              && r.clientAccount == Some(source)
              && r.receiverAccount == (if a.receiverAccount.None? then Some(source) else a.receiverAccount)
  {
    ConcreteStart(a, source, s);
    PrepareKeepsStartAccounts(rev, a, Some(source), s);
  }

  /**
   * Lines 122-124: a concrete check by a source account that holds none of one of
   * the pair's assets is refused before the pool is read.
   */
  lemma {:induction false} ZeroBalanceRefused(rev: Revision, a: Action, source: AccountId, s: Snapshot,
                                              bs: Balance, ts: Balance)
    requires !IsAbstractChecking(a)
    requires a.clientAccount.None? || a.clientAccount == Some(source)
    requires s.poolAccountId.Ok? && s.poolValidity.Pass? && s.markingAsset == Ok(a.destination.asset)
    requires s.sourceBalance0 == Ok(bs) && s.sourceBalance1 == Ok(ts)
    requires bs == 0 || ts == 0
    ensures Prepare(rev, a, Some(source), s) == (Failed(AccountBalanceIsInvalid), BindAccounts(a, source))
  {
    assert Start(a, Some(source), s) == Halt(Failed(AccountBalanceIsInvalid), BindAccounts(a, source));
  }

  // ------------------------------------------------------------ pool classes

  /** Lines 60-153 of a concrete check whose lookups and balance reads succeed. */
  lemma ConcreteStartClassifies(a: Action, source: AccountId, s: Snapshot,
                                bs: Balance, ts: Balance, bp: Balance, tp: Balance)
    requires PreludePasses(a, source, s, bs, ts, bp, tp)
    ensures (bp == 0) != (tp == 0) ==>
              Start(a, Some(source), s) == Halt(Failed(PoolIsInvalid), BindAccounts(a, source))
    ensures bp > 0 && tp > 0 ==>
              Start(a, Some(source), s) == Proceed(BindAccounts(a, source), Locals(false, bs, ts, bp, tp, false, 0, 0, None))
    ensures bp == 0 && tp == 0 && (Definite(a.source0.amount).None? || Definite(a.source1.amount).None?) ==>
              Start(a, Some(source), s) == Halt(Failed(InitialLiqudityDepositRatioMustBeDefined), BindAccounts(a, source))
    ensures bp == 0 && tp == 0 && Definite(a.source0.amount).Some? && Definite(a.source1.amount).Some? ==>
              Start(a, Some(source), s) == Proceed(BindAccounts(a, source),
                Locals(false, bs, ts, 0, 0, true, Definite(a.source0.amount).value, Definite(a.source1.amount).value, None))
  {
  }

  /**
   * The pool's invariant: none for an abstract check of an empty pool, otherwise
   * the floor square root of the reserves' product (of the initial amounts for an
   * empty pool). The conversion back to a balance never fails.
   */
  lemma {:induction false} PoolInvariantIsFloorSqrt(l: Locals)
    ensures PoolInvariant(l).Ok?
    ensures PoolInvariant(l).value.None? <==> l.emptyPool && l.abstractChecking
    ensures !l.emptyPool ==> PoolInvariant(l).value == Some(FloorSqrt(l.poolBase * l.poolTarget))
    ensures l.emptyPool && !l.abstractChecking ==> PoolInvariant(l).value == Some(FloorSqrt(l.initX * l.initY))
  {
    SqrtOfProductFits(l.poolBase, l.poolTarget);
    SqrtOfProductFits(l.initX, l.initY);
  }

  /**
   * Concrete check: a pool with exactly one empty reserve is refused as invalid;
   * a pool with both reserves is priced at k = floor(sqrt(bp * tp)).
   */
  lemma {:induction false} PoolClassification(rev: Revision, a: Action, source: AccountId, s: Snapshot,
                                              bs: Balance, ts: Balance, bp: Balance, tp: Balance)
    requires PreludePasses(a, source, s, bs, ts, bp, tp)
    ensures (bp == 0) != (tp == 0) ==> Prepare(rev, a, Some(source), s) == (Failed(PoolIsInvalid), BindAccounts(a, source))
    ensures bp > 0 && tp > 0 ==>
              var l := Locals(false, bs, ts, bp, tp, false, 0, 0, None);
              && Start(a, Some(source), s) == Proceed(BindAccounts(a, source), l)
              && PoolInvariant(l) == Ok(Some(FloorSqrt(bp * tp)))
  {
    ConcreteStartClassifies(a, source, s, bs, ts, bp, tp);
    PoolInvariantIsFloorSqrt(Locals(false, bs, ts, bp, tp, false, 0, 0, None));
  }

  // -------------------------------------------------------------- empty pool

  /**
   * Concrete deposit into an empty pool: with no definite amount on a source leg
   * the initial ratio is undefined and the check is refused.
   */
  lemma {:induction false} EmptyPoolNeedsDefiniteRatio(rev: Revision, a: Action, source: AccountId, s: Snapshot,
                                                       bs: Balance, ts: Balance)
    requires PreludePasses(a, source, s, bs, ts, 0, 0)
    requires Definite(a.source0.amount).None? || Definite(a.source1.amount).None?
    ensures Prepare(rev, a, Some(source), s) == (Failed(InitialLiqudityDepositRatioMustBeDefined), BindAccounts(a, source))
  {
    ConcreteStartClassifies(a, source, s, bs, ts, 0, 0);
  }

  /** Lines 275-319: the stages after the amounts are resolved. */
  function Settle(rev: Revision, a: Action, l: Locals, s: Snapshot): (Status, Action)
  {
    match ResolveMinLiquidity(a, l, s.minLiquidity)
    case Halt(st, a3) => (st, a3)
    case Proceed(a3, l3) =>
      match CheckLimits(rev, a3, l3)
      case Halt(st, a4) => (st, a4)
      case Proceed(a4, l4) => Finish(rev, a4, l4)
  }

  /** An empty pool whose invariant is k (lines 182-193): a `Desired` marker must be k, any other becomes k. */
  lemma {:induction false} EmptyPoolAmounts(rev: Revision, b: Action, s: Snapshot, l: Locals, k: Balance)
    requires l.emptyPool && !l.abstractChecking
    requires PoolInvariant(l) == Ok(Some(k))
    ensures var r := ResolveAmounts(rev, b, l, s);
      && (b.destination.amount.Desired? && b.destination.amount.value != k ==>
            r == Halt(Failed(InvalidDepositLiquidityDestinationAmount), b))
      && (b.destination.amount.Desired? && b.destination.amount.value == k ==>
            r == Proceed(b, l.(poolK := Some(k))))
      && (!b.destination.amount.Desired? ==>
            r == Proceed(b.(destination := WithAmount(b.destination, Calculated(k))), l.(poolK := Some(k))))
  {
  }

  /**
   * Lines 275-319 of a concrete check whose legs are definite and whose invariant
   * is k, in closed form. The minimum liquidity m is the caller's (refused below
   * the recommended one) or the recommended one. The guard of line 299 compares
   * the marker amount with m minus the invariant g it reads; then come the source
   * balances. A pool with reserves is done; an empty pool keeps m locked, which
   * the code as written can reach with a marker amount below m.
   */
  lemma {:induction false} SettleClosedForm(rev: Revision, a: Action, l: Locals, s: Snapshot,
                                            base: Balance, target: Balance, dest: Balance, k: Balance)
    requires !l.abstractChecking && l.poolK == Some(k)
    requires Definite(a.source0.amount) == Some(base) && Definite(a.source1.amount) == Some(target)
    requires Definite(a.destination.amount) == Some(dest)
    ensures var r := Settle(rev, a, l, s);
      var m := SettledMinLiquidity(a, s);
      var g := GuardInvariant(rev, l, k);
      var a2 := a.(minLiquidity := Some(m));
      if a.minLiquidity.Some? && a.minLiquidity.value < s.minLiquidity then
        r == (Failed(PairSwapActionMinimumLiquidityIsSmallerThanRecommended), a)
      else if m > g && dest < m - g then r == (Failed(DestinationAmountOfLiquidityIsNotLargeEnough), a2)
      else if l.sourceBase < base then r == (Failed(SourceBaseAmountIsNotLargeEnough), a2)
      else if l.sourceTarget < target then r == (Failed(TargetBaseAmountIsNotLargeEnough), a2)
      else if !l.emptyPool then r == (Done, a2)
      else if dest < m then r == (Panicked, a2)
      else r == (Done, a2.(destination := WithAmount(a.destination, Calculated(dest - m))))
  {
  }

  /**
   * Concrete deposit of x and y into an empty pool, in closed form. The marker
   * amount is k = floor(sqrt(x * y)); a `Desired` marker leg must be exactly k.
   * The minimum liquidity m is the caller's (at least the recommended one) or the
   * recommended one. Then the guard of line 299, the source balances, and finally
   * the subtraction k - m: the depositor receives k - m and m stays locked. As
   * written the guard compares with k itself, so it lets k < m through and the
   * subtraction panics; corrected, it compares with the pool's own invariant 0.
   */
  lemma {:induction false} EmptyPoolDeposit(rev: Revision, a: Action, source: AccountId, s: Snapshot,
                                            bs: Balance, ts: Balance, x: Balance, y: Balance, k: Balance)
    requires PreludePasses(a, source, s, bs, ts, 0, 0)
    requires Definite(a.source0.amount) == Some(x) && Definite(a.source1.amount) == Some(y)
    requires k == FloorSqrt(x * y)
    ensures var r := Prepare(rev, a, Some(source), s);
      var b := BindAccounts(a, source);
      var m := SettledMinLiquidity(a, s);
      var g := if rev == Corrected then 0 else k;
      && (a.destination.amount.Desired? && a.destination.amount.value != k ==>
            r == (Failed(InvalidDepositLiquidityDestinationAmount), b))
      && (!(a.destination.amount.Desired? && a.destination.amount.value != k) ==>
          var b1 := b.(destination := WithAmount(b.destination, Calculated(k)));
          var bk := if a.destination.amount.Desired? then b else b1;
          var b2 := bk.(minLiquidity := Some(m));
          if a.minLiquidity.Some? && a.minLiquidity.value < s.minLiquidity then
            r == (Failed(PairSwapActionMinimumLiquidityIsSmallerThanRecommended), bk)
          else if m > g && k < m - g then r == (Failed(DestinationAmountOfLiquidityIsNotLargeEnough), b2)
          else if bs < x then r == (Failed(SourceBaseAmountIsNotLargeEnough), b2)
          else if ts < y then r == (Failed(TargetBaseAmountIsNotLargeEnough), b2)
          else if k < m then r == (Panicked, b2)
          else r == (Done, b2.(destination := WithAmount(b.destination, Calculated(k - m)))))
  {
    ConcreteStartClassifies(a, source, s, bs, ts, 0, 0);
    var b := BindAccounts(a, source);
    var l := Locals(false, bs, ts, 0, 0, true, x, y, None);
    assert Start(a, Some(source), s) == Proceed(b, l);
    PoolInvariantIsFloorSqrt(l);
    EmptyPoolAmounts(rev, b, s, l, k);
    if !(a.destination.amount.Desired? && a.destination.amount.value != k) {
      var bk := if a.destination.amount.Desired? then b else b.(destination := WithAmount(b.destination, Calculated(k)));
      assert ResolveAmounts(rev, b, l, s) == Proceed(bk, l.(poolK := Some(k)));
      assert Prepare(rev, a, Some(source), s) == Settle(rev, bk, l.(poolK := Some(k)), s);
      SettleClosedForm(rev, bk, l.(poolK := Some(k)), s, x, y, k, k);
    }
  }

  // -------------------------------------------------------- non-empty pool

  /** Lines 194-273 of a concrete check of a pool with both reserves, priced at k. */
  lemma {:induction false} NonEmptyPoolAmounts(rev: Revision, a: Action, s: Snapshot, l: Locals, k: Balance)
    requires !l.emptyPool && !l.abstractChecking
    requires PoolInvariant(l) == Ok(Some(k))
    ensures var r := ResolveAmounts(rev, a, l, s);
      var l1 := l.(poolK := Some(k));
      match (a.source0.amount, a.source1.amount, a.destination.amount)
      case (_, _, Desired(d)) => r == MarkerDesired(rev, a, l1, k, d)
      case (RangeFromDesiredToMin(xdes, xmin), RangeFromDesiredToMin(ydes, ymin), destAmount) =>
        r == RangeBoth(a, l1, s, xdes, xmin, ydes, ymin, destAmount)
      case _ => r == Halt(Failed(ImpossibleToDecideDepositLiquidityAmounts), a)
  {
  }

  /**
   * Line 259 cannot be reached: a `Desired` marker leg always takes the arm of
   * line 196, so no check fails with `ThisCaseIsNotSupported` unless a foreign
   * call reports it.
   */
  lemma {:induction false} ThisCaseIsNotSupportedIsUnreachable(rev: Revision, a: Action, l: Locals, s: Snapshot)
    requires s.totalIssuance != Err(ThisCaseIsNotSupported)
    requires forall t, bp, tp, xd, yd, xm, ym :: s.calcDepositLiquidity(t, bp, tp, xd, yd, xm, ym) != Err(ThisCaseIsNotSupported)
    ensures ResolveAmounts(rev, a, l, s) != Halt(Failed(ThisCaseIsNotSupported), ResolveAmounts(rev, a, l, s).action)
  {
    match PoolInvariant(l)
    case Err(_) =>
    case Ok(poolK) =>
      var l1 := l.(poolK := poolK);
      if l1.abstractChecking || poolK.None? || l1.emptyPool {
      } else {
        match (a.source0.amount, a.source1.amount, a.destination.amount)
        case (_, _, Desired(destinationK)) =>
        case (RangeFromDesiredToMin(xdes, xmin), RangeFromDesiredToMin(ydes, ymin), destAmount) =>
          assert !destAmount.Desired?;
        case _ =>
      }
  }

  /**
   * The marker arm as written (line 198) divides by `init_x`, which is 0 for a
   * pool with both reserves: a positive `Desired` marker always fails.
   */
  lemma {:induction false} MarkerDesiredAlwaysFailsAsWritten(a: Action, l: Locals, k: Balance, d: Balance)
    requires !l.emptyPool && l.initX == 0 && d > 0
    ensures MarkerDesired(AsWritten, a, l, k, d) == Halt(Failed(FixedWrapperCalculationFailed), a)
  {
  }

  /**
   * Line 197: a concrete check of a pool with both reserves whose marker leg is
   * `Desired(0)` is refused before any division, as written and corrected.
   */
  lemma {:induction false} ZeroMarkerIsRefused(rev: Revision, a: Action, source: AccountId, s: Snapshot,
                                               bs: Balance, ts: Balance, bp: Balance, tp: Balance)
    requires PreludePasses(a, source, s, bs, ts, bp, tp) && bp > 0 && tp > 0
    requires a.destination.amount == Desired(0)
    ensures Prepare(rev, a, Some(source), s) == (Failed(ZeroValueInAmountParameter), BindAccounts(a, source))
  {
    PoolClassification(rev, a, source, s, bs, ts, bp, tp);
    var l := Locals(false, bs, ts, bp, tp, false, 0, 0, None);
    PoolInvariantIsFloorSqrt(l);
    SqrtOfProductFits(bp, tp);
    var k: Balance := FloorSqrt(bp * tp);
    NonEmptyPoolAmounts(rev, BindAccounts(a, source), s, l, k);
  }

  /**
   * Lines 237-265 of a concrete check of a pool with both reserves priced at k,
   * whose source legs are both ranges and whose marker leg is not `Desired`. An
   * inverted range is refused; otherwise the total issuance and
   * `calc_deposit_liquidity_1` decide: their errors are the check's, and their
   * three amounts replace all three legs before lines 275-319 run.
   */
  lemma {:induction false} RangeDeposit(rev: Revision, a: Action, source: AccountId, s: Snapshot,
                                        bs: Balance, ts: Balance, bp: Balance, tp: Balance, k: Balance,
                                        xdes: Balance, xmin: Balance, ydes: Balance, ymin: Balance)
    requires PreludePasses(a, source, s, bs, ts, bp, tp) && bp > 0 && tp > 0
    requires k == FloorSqrt(bp * tp)
    requires a.source0.amount == RangeFromDesiredToMin(xdes, xmin)
    requires a.source1.amount == RangeFromDesiredToMin(ydes, ymin)
    requires !a.destination.amount.Desired?
    ensures var r := Prepare(rev, a, Some(source), s);
      var b := BindAccounts(a, source);
      if !(xdes >= xmin && ydes >= ymin) then r == (Failed(RangeValuesIsInvalid), b)
      else if s.totalIssuance.Err? then r == (Failed(s.totalIssuance.error), b)
      else match s.calcDepositLiquidity(s.totalIssuance.value, bp, tp, xdes, ydes, xmin, ymin)
        case Err(e) => r == (Failed(e), b)
        case Ok((cx, cy, cm)) =>
          var b1 := b.(source0 := WithAmount(b.source0, Calculated(cx)),
                       source1 := WithAmount(b.source1, Calculated(cy)),
                       destination := WithAmount(b.destination, Calculated(cm)));
          r == Settle(rev, b1, Locals(false, bs, ts, bp, tp, false, 0, 0, Some(k)), s)
  {
    PoolClassification(rev, a, source, s, bs, ts, bp, tp);
    var l := Locals(false, bs, ts, bp, tp, false, 0, 0, None);
    PoolInvariantIsFloorSqrt(l);
    NonEmptyPoolAmounts(rev, BindAccounts(a, source), s, l, k);
  }

  /**
   * The marker arm corrected: the piece k / d of the pool a deposit of d marker
   * units buys gives the source amounts x = bp / piece and y = tp / piece. A zero
   * piece fails the division; a `Desired` source leg must equal its amount, any
   * other must accept it and becomes `Calculated`. The base leg is settled first
   * and stays rewritten when the target leg is refused. On success the marker leg
   * and the locals are kept and both source legs are definite and within their
   * bounds. All of this is in whole numbers: every d > k fails, and a d that does
   * not divide k rounds the piece down and so asks for more than bp * d / k.
   */
  lemma {:induction false} CorrectedMarkerLegs(a: Action, l: Locals, k: Balance, d: Balance)
    requires d > 0
    ensures var r := MarkerDesired(Corrected, a, l, k, d);
      var piece := k / d;
      && (piece == 0 ==> r == Halt(Failed(FixedWrapperCalculationFailed), a))
      && (piece > 0 && a.source0.amount.Desired? && a.source0.amount.value != l.poolBase / piece ==>
            r == Halt(Failed(InvalidDepositLiquidityBasicAssetAmount), a))
      && (piece > 0 && !a.source0.amount.Desired? && !MeetsTheBoundaries(a.source0.amount, l.poolBase / piece) ==>
            r == Halt(Failed(CalculatedValueIsNotMeetsRequiredBoundaries), a))
      && (piece > 0 && MeetsTheBoundaries(a.source0.amount, l.poolBase / piece) ==>
            var a1 := if a.source0.amount.Desired? then a
                      else a.(source0 := WithAmount(a.source0, Calculated(l.poolBase / piece)));
            && (a.source1.amount.Desired? && a.source1.amount.value != l.poolTarget / piece ==>
                  r == Halt(Failed(InvalidDepositLiquidityTargetAssetAmount), a1))
            && (!a.source1.amount.Desired? && !MeetsTheBoundaries(a.source1.amount, l.poolTarget / piece) ==>
                  r == Halt(Failed(CalculatedValueIsNotMeetsRequiredBoundaries), a1))
            && (MeetsTheBoundaries(a.source1.amount, l.poolTarget / piece) ==>
                  r == Proceed(if a.source1.amount.Desired? then a1
                               else a1.(source1 := WithAmount(a1.source1, Calculated(l.poolTarget / piece))), l)))
      && (r.Proceed? ==>
            && piece > 0 && r.locals == l && r.action.destination == a.destination
            && Definite(r.action.source0.amount) == Some(l.poolBase / piece)
            && Definite(r.action.source1.amount) == Some(l.poolTarget / piece)
            && MeetsTheBoundaries(a.source0.amount, l.poolBase / piece)
            && MeetsTheBoundaries(a.source1.amount, l.poolTarget / piece))
  {
    DivOfBalance(k, d);
    var piece := k / d;
    if piece > 0 {
      DivOfBalance(l.poolBase, piece);
      DivOfBalance(l.poolTarget, piece);
      var x: Balance := l.poolBase / piece;
      var y: Balance := l.poolTarget / piece;
      assert ToBalance(Div(Exact(l.poolBase), Div(Exact(k), Exact(d)))) == Ok(x);
      assert ToBalance(Div(Exact(l.poolTarget), Div(Exact(k), Exact(d)))) == Ok(y);
    }
  }

  /** A marker amount above the pool's invariant buys a zero piece and fails the division. */
  lemma {:induction false} LargeMarkerFails(a: Action, l: Locals, k: Balance, d: Balance)
    requires d > k
    ensures MarkerDesired(Corrected, a, l, k, d) == Halt(Failed(FixedWrapperCalculationFailed), a)
  {
    CorrectedMarkerLegs(a, l, k, d);
    DivOfBalance(k, d);
    var q := k / d;
    if q > 0 {
      MulMono(1, d, q, d);
      assert false;
    }
  }

  /**
   * Whole-number pieces round up what the depositor pays: 30 marker units of a
   * pool of 100 and 100 (k = 100) buy the piece 100 / 30 = 3 and cost 33 of each
   * asset, where the exact piece 10/3 would cost 30.
   */
  lemma {:induction false} WholePieceOvercharges(a: Action, l: Locals)
    requires l.poolBase == 100 && l.poolTarget == 100
    requires a.source0.amount == Min(0) && a.source1.amount == Min(0)
    ensures MarkerDesired(Corrected, a, l, 100, 30) ==
              Proceed(a.(source0 := WithAmount(a.source0, Calculated(33)),
                         source1 := WithAmount(a.source1, Calculated(33))), l)
  {
    CorrectedMarkerLegs(a, l, 100, 30);
  }

  // ------------------------------------------------------ whole check outcome

  lemma MarkerDesiredDefinite(rev: Revision, a: Action, l: Locals, k: Balance, d: Balance)
    ensures var r := MarkerDesired(rev, a, l, k, d);
      r.Proceed? ==>
        && r.locals == l && r.action.destination == a.destination
        && Definite(r.action.source0.amount).Some? && Definite(r.action.source1.amount).Some?
  {
  }

  lemma RangeBothDefinite(a: Action, l: Locals, s: Snapshot, xdes: Balance, xmin: Balance,
                          ydes: Balance, ymin: Balance, destAmount: Bounds)
    ensures var r := RangeBoth(a, l, s, xdes, xmin, ydes, ymin, destAmount);
      r.Proceed? ==>
        && r.locals == l && Definite(r.action.source0.amount).Some?
        && Definite(r.action.source1.amount).Some? && Definite(r.action.destination.amount).Some?
  {
  }

  /**
   * After lines 155-273 of a concrete check every leg is definite and the
   * invariant is known, so the unwraps of lines 294-297 cannot fail.
   */
  lemma {:induction false} ConcreteAmountsAreDefinite(rev: Revision, a: Action, l: Locals, s: Snapshot)
    requires !l.abstractChecking
    requires l.emptyPool ==> Definite(a.source0.amount).Some? && Definite(a.source1.amount).Some?
    ensures var r := ResolveAmounts(rev, a, l, s);
      r.Proceed? ==>
        && r.locals == l.(poolK := r.locals.poolK) && r.locals.poolK.Some?
        && SameAccounts(a, r.action) && r.action.minLiquidity == a.minLiquidity
        && Definite(r.action.source0.amount).Some? && Definite(r.action.source1.amount).Some?
        && Definite(r.action.destination.amount).Some?
  {
    ResolveAmountsFrame(rev, a, l, s);
    match PoolInvariant(l)
    case Err(_) =>
    case Ok(poolK) =>
      var l1 := l.(poolK := poolK);
      if l1.abstractChecking || poolK.None? || l1.emptyPool {
      } else {
        match (a.source0.amount, a.source1.amount, a.destination.amount)
        case (_, _, Desired(destinationK)) =>
          MarkerDesiredDefinite(rev, a, l1, poolK.value, destinationK);
        case (RangeFromDesiredToMin(xdes, xmin), RangeFromDesiredToMin(ydes, ymin), destAmount) =>
          RangeBothDefinite(a, l1, s, xdes, xmin, ydes, ymin, destAmount);
        case _ =>
      }
  }

  /**
   * Lines 275-319 of a concrete check with definite legs: a panic is only the
   * underflow of the code as written; each refusal names the limit that failed;
   * success means the minimum liquidity is at least the recommended one, the
   * guard of line 299 passed, and the source account covers both amounts.
   */
  lemma {:induction false} ConcreteSettle(rev: Revision, a: Action, l: Locals, s: Snapshot)
    requires !l.abstractChecking && l.poolK.Some?
    requires Definite(a.source0.amount).Some? && Definite(a.source1.amount).Some?
    requires Definite(a.destination.amount).Some?
    ensures var r := Settle(rev, a, l, s);
      var m := SettledMinLiquidity(a, s);
      var g := GuardInvariant(rev, l, l.poolK.value);
      var dest := Definite(a.destination.amount).value;
      && (r.0 == Panicked ==> rev == AsWritten && l.emptyPool && dest < m)
      && (r.0 == Failed(DestinationAmountOfLiquidityIsNotLargeEnough) ==> m > g && dest < m - g)
      && (r.0 == Failed(SourceBaseAmountIsNotLargeEnough) ==> l.sourceBase < Definite(a.source0.amount).value)
      && (r.0 == Failed(TargetBaseAmountIsNotLargeEnough) ==> l.sourceTarget < Definite(a.source1.amount).value)
      && (r.0 == Done ==>
           && SameAccounts(a, r.1) && r.1.source0 == a.source0 && r.1.source1 == a.source1
           && Definite(r.1.destination.amount).Some?
           && r.1.minLiquidity == Some(m) && m >= s.minLiquidity
           && !(m > g && dest < m - g)
           && Definite(a.source0.amount).value <= l.sourceBase
           && Definite(a.source1.amount).value <= l.sourceTarget)
  {
    SettleClosedForm(rev, a, l, s, Definite(a.source0.amount).value, Definite(a.source1.amount).value,
                     Definite(a.destination.amount).value, l.poolK.value);
  }

  /**
   * What a concrete check that succeeds guarantees `reserve`: the client and the
   * receiver are bound, every leg is definite, the source account holds both
   * source amounts, and the minimum liquidity is at least the recommended one.
   * Only the code as written can panic.
   */
  lemma {:induction false} ConcreteCheckOutcome(rev: Revision, a: Action, source: AccountId, s: Snapshot)
    requires !IsAbstractChecking(a)
    ensures var r := Prepare(rev, a, Some(source), s);
      && (r.0 == Panicked ==> rev == AsWritten)
      && (r.0 == Done ==>
           && r.1.clientAccount == Some(source) && r.1.receiverAccount.Some?
           && Definite(r.1.source0.amount).Some? && Definite(r.1.source1.amount).Some?
           && Definite(r.1.destination.amount).Some?
           && s.sourceBalance0.Ok? && Definite(r.1.source0.amount).value <= s.sourceBalance0.value
           && s.sourceBalance1.Ok? && Definite(r.1.source1.amount).value <= s.sourceBalance1.value
           && r.1.minLiquidity.Some? && r.1.minLiquidity.value >= s.minLiquidity)
  {
    ConcreteCheckBindsAccounts(rev, a, source, s);
    ConcreteStart(a, source, s);
    match Start(a, Some(source), s)
    case Halt(_, _) =>
    case Proceed(a1, l1) =>
      ConcreteAmountsAreDefinite(rev, a1, l1, s);
      match ResolveAmounts(rev, a1, l1, s)
      case Halt(_, _) =>
      case Proceed(a2, l2) =>
        assert Prepare(rev, a, Some(source), s) == Settle(rev, a2, l2, s);
        ConcreteSettle(rev, a2, l2, s);
  }

  /** Corrected, no check panics, abstract or concrete. */
  lemma {:induction false} CorrectedCheckNeverPanics(a: Action, sourceOpt: Option<AccountId>, s: Snapshot)
    ensures Prepare(Corrected, a, sourceOpt, s).0 != Panicked
  {
    if AbstractChecking(a, sourceOpt) {
      AbstractStart(a, sourceOpt, s, s.sourceBalance0, s.sourceBalance1);
      match Start(a, sourceOpt, s)
      case Halt(_, _) =>
      case Proceed(a1, l1) =>
        ResolveAmountsFrame(Corrected, a1, l1, s);
    } else {
      ConcreteCheckOutcome(Corrected, a, sourceOpt.value, s);
    }
  }

  // ------------------------------------------------ the three corrected places

  /**
   * Line 198 as written: every concrete check of a pool with both reserves whose
   * marker leg is a positive `Desired` amount fails.
   */
  lemma {:induction false} AsWrittenDesiredMarkerFails(a: Action, source: AccountId, s: Snapshot,
                                                       bs: Balance, ts: Balance, bp: Balance, tp: Balance)
    requires PreludePasses(a, source, s, bs, ts, bp, tp) && bp > 0 && tp > 0
    requires a.destination.amount.Desired? && a.destination.amount.value > 0
    ensures Prepare(AsWritten, a, Some(source), s) == (Failed(FixedWrapperCalculationFailed), BindAccounts(a, source))
  {
    PoolClassification(AsWritten, a, source, s, bs, ts, bp, tp);
    var l := Locals(false, bs, ts, bp, tp, false, 0, 0, None);
    PoolInvariantIsFloorSqrt(l);
    SqrtOfProductFits(bp, tp);
    var k: Balance := FloorSqrt(bp * tp);
    var b := BindAccounts(a, source);
    NonEmptyPoolAmounts(AsWritten, b, s, l, k);
    MarkerDesiredAlwaysFailsAsWritten(b, l.(poolK := Some(k)), k, a.destination.amount.value);
  }

  /**
   * Line 198: depositing 10 marker units into a pool of 100 and 100 (k = 100)
   * with both source legs open. The code as written fails; corrected, the check
   * asks for 10 of each asset and passes.
   */
  lemma {:induction false} DesiredMarkerDeposit(a: Action, source: AccountId, s: Snapshot)
    requires PreludePasses(a, source, s, 10, 10, 100, 100)
    requires a.source0.amount == Min(0) && a.source1.amount == Min(0) && a.destination.amount == Desired(10)
    requires a.minLiquidity.None? && s.minLiquidity == 100
    ensures var b := BindAccounts(a, source);
      && Prepare(AsWritten, a, Some(source), s) == (Failed(FixedWrapperCalculationFailed), b)
      && Prepare(Corrected, a, Some(source), s) ==
           (Done, b.(source0 := WithAmount(b.source0, Calculated(10)), source1 := WithAmount(b.source1, Calculated(10)),
                     minLiquidity := Some(100)))
  {
    AsWrittenDesiredMarkerFails(a, source, s, 10, 10, 100, 100);
    FloorSqrtUnique(10000, 100);
    var b := BindAccounts(a, source);
    var l := Locals(false, 10, 10, 100, 100, false, 0, 0, None);
    PoolClassification(Corrected, a, source, s, 10, 10, 100, 100);
    NonEmptyPoolAmounts(Corrected, b, s, l, 100);
    DivOfBalance(100, 10);
    DivOfBalance(100, 10);
    var b1 := b.(source0 := WithAmount(b.source0, Calculated(10)), source1 := WithAmount(b.source1, Calculated(10)));
    assert ResolveAmounts(Corrected, b, l, s) == Proceed(b1, l.(poolK := Some(100)));
  }

  /**
   * Lines 299-316: 500 and 500 into an empty pool with a recommended minimum of
   * 1000. The guard as written compares with the deposit's own k = 500 and lets
   * it through, and 500 - 1000 underflows; corrected, the guard refuses it.
   */
  lemma {:induction false} AsWrittenLockCanUnderflow(a: Action, source: AccountId, s: Snapshot)
    requires PreludePasses(a, source, s, 500, 500, 0, 0)
    requires a.source0.amount == Desired(500) && a.source1.amount == Desired(500) && a.destination.amount == Min(0)
    requires a.minLiquidity.None? && s.minLiquidity == 1000
    ensures Prepare(AsWritten, a, Some(source), s).0 == Panicked
    ensures Prepare(Corrected, a, Some(source), s).0 == Failed(DestinationAmountOfLiquidityIsNotLargeEnough)
  {
    FloorSqrtUnique(250000, 500);
    EmptyPoolDeposit(AsWritten, a, source, s, 500, 500, 500, 500, 500);
    EmptyPoolDeposit(Corrected, a, source, s, 500, 500, 500, 500, 500);
  }

  /**
   * Line 315 as written: an abstract check of an empty pool whose marker leg is
   * a placeholder unwraps it and panics; corrected, it passes untouched apart
   * from the recommended minimum liquidity.
   */
  lemma {:induction false} AbstractEmptyPoolLock(a: Action, s: Snapshot)
    requires s.poolAccountId.Ok? && s.poolValidity.Pass? && s.markingAsset == Ok(a.destination.asset)
    requires s.poolBalance0 == Ok(0) && s.poolBalance1 == Ok(0)
    requires a.destination.amount == Dummy && a.minLiquidity.None?
    ensures Prepare(AsWritten, a, None, s) == (Panicked, a.(minLiquidity := Some(s.minLiquidity)))
    ensures Prepare(Corrected, a, None, s) == (Done, a.(minLiquidity := Some(s.minLiquidity)))
  {
    var l := Locals(true, 0, 0, 0, 0, true, 0, 0, None);
    assert Start(a, None, s) == Proceed(a, l);
    PoolInvariantIsFloorSqrt(l);
  }
}
