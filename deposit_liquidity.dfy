/**
 * The deposit-liquidity action of the constant-product (x*y=k) pool
 * (pallets/pool-xyk/src/action_deposit_liquidity.rs).
 *
 * `prepare_and_validate` is given twice: as pure stage functions composed by
 * `Prepare`, and as the method `DepositLiquidityAction.PrepareAndValidate`,
 * which updates the action's fields step by step as the source does and is
 * proved equal to `Prepare`. Everything the source reads from other pallets
 * arrives in a `Snapshot`.
 */
module DepositLiquidity {
  import opened Wrappers
  import opened Fixed
  import opened Bound

  type AssetId(==)
  type AccountId(==)
  type TechAccountId(==)

  datatype Error =
    | SourceAndClientAccountDoNotMatchAsEqual
    | InvalidAssetForLiquidityMarking
    | AccountBalanceIsInvalid
    | PoolIsInvalid
    | InitialLiqudityDepositRatioMustBeDefined
    | InvalidDepositLiquidityDestinationAmount
    | ZeroValueInAmountParameter
    | InvalidDepositLiquidityBasicAssetAmount
    | InvalidDepositLiquidityTargetAssetAmount
    | CalculatedValueIsNotMeetsRequiredBoundaries
    | RangeValuesIsInvalid
    | ThisCaseIsNotSupported
    | ImpossibleToDecideDepositLiquidityAmounts
    | PairSwapActionMinimumLiquidityIsSmallerThanRecommended
    | DestinationAmountOfLiquidityIsNotLargeEnough
    | SourceBaseAmountIsNotLargeEnough
    | TargetBaseAmountIsNotLargeEnough
    | FixedWrapperCalculationFailed   // raised by `to_balance!`
    | Foreign(code: nat)              // raised inside another pallet's call

  /** How a call ends: `Ok(())`, an error, or a runtime panic (a failed unwrap or a u128 underflow). */
  datatype Status = Done | Failed(error: Error) | Panicked

  datatype Leg = Leg(asset: AssetId, amount: Bounds)

  /** The fields of `DepositLiquidityAction`. */
  datatype Action = Action(
    source0: Leg,
    source1: Leg,
    destination: Leg,
    clientAccount: Option<AccountId>,
    receiverAccount: Option<AccountId>,
    minLiquidity: Option<Balance>,
    poolAccount: TechAccountId)

  /** The results of the calls `prepare_and_validate` makes into other pallets, and `MIN_LIQUIDITY`. */
  datatype Snapshot = Snapshot(
    poolAccountId: Result<AccountId, Error>,      // tech_account_id_to_account_id(pool_account)
    poolValidity: Outcome<Error>,                 // is_pool_account_valid_for(source.0.asset, pool_account)
    markingAsset: Result<AssetId, Error>,         // get_marking_asset(pool_account)
    sourceBalance0: Result<Balance, Error>,       // free_balance(source.0.asset, source)
    sourceBalance1: Result<Balance, Error>,       // free_balance(source.1.asset, source)
    poolBalance0: Result<Balance, Error>,         // free_balance(source.0.asset, pool account)
    poolBalance1: Result<Balance, Error>,         // free_balance(source.1.asset, pool account)
    totalIssuance: Result<Balance, Error>,        // total_issuance(destination.asset)
    calcDepositLiquidity: (Balance, Balance, Balance, Balance, Balance, Balance, Balance)
                          -> Result<(Balance, Balance, Balance), Error>,   // calc_deposit_liquidity_1
    minLiquidity: Balance)                        // MIN_LIQUIDITY

  /**
   * Three places of `prepare_and_validate` read differently from what they
   * evidently intend. `AsWritten` follows the code; `Corrected` divides by
   * `destination_k` at line 198, guards the minimum liquidity of an empty pool
   * against the pool's own (zero) invariant at line 299, and locks the initial
   * liquidity at line 315 only in a concrete check.
   */
  datatype Revision = AsWritten | Corrected

  /** The local variables of `prepare_and_validate` that later steps read. */
  datatype Locals = Locals(
    abstractChecking: bool,
    sourceBase: Balance,     // balance_bs (0 in an abstract check, where it is never read)
    sourceTarget: Balance,   // balance_ts
    poolBase: Balance,       // balance_bp
    poolTarget: Balance,     // balance_tp
    emptyPool: bool,
    initX: Balance,
    initY: Balance,
    poolK: Option<Balance>)

  /** Where a step of `prepare_and_validate` leaves the action: running on, or stopped. */
  datatype Step = Proceed(action: Action, locals: Locals) | Halt(status: Status, action: Action)

  /** `to_balance!`: the wrapper's value as a balance, or the macro's error. */
  function ToBalance(f: FixedWrapper): (r: Result<Balance, Error>)
    ensures r.Ok? <==> f.Exact? && f.n < BALANCE_LIMIT
    ensures r.Ok? ==> r.value == f.n
    ensures r.Err? ==> r.error == FixedWrapperCalculationFailed
  {
    if f.Exact? && f.n < BALANCE_LIMIT then Ok(f.n) else Err(FixedWrapperCalculationFailed)
  }

  /** `is_abstract_checking`: some leg is still a placeholder. */
  predicate IsAbstractChecking(a: Action)
    ensures IsAbstractChecking(a) <==> Dummy in [a.source0.amount, a.source1.amount, a.destination.amount]
  {
    a.source0.amount == Dummy || a.source1.amount == Dummy || a.destination.amount == Dummy
  }

  /** Line 61: a check without a source account, or with a placeholder leg, is abstract. */
  predicate AbstractChecking(a: Action, sourceOpt: Option<AccountId>)
  {
    sourceOpt.None? || IsAbstractChecking(a)
  }

  function WithAmount(leg: Leg, amount: Bounds): Leg
  {
    leg.(amount := amount)
  }

  /** Lines 67-90 once the client account is known to agree with the source. */
  function BindAccounts(a: Action, source: AccountId): (r: Action)
    requires a.clientAccount.None? || a.clientAccount == Some(source)
  {
    a.(clientAccount := Some(source),
       receiverAccount := if a.receiverAccount.None? then Some(source) else a.receiverAccount)
  }

  /** Lines 60-153: accounts, the pool lookups, the balances, the pool's class and the initial ratio. */
  function Start(a: Action, sourceOpt: Option<AccountId>, s: Snapshot): Step
  {
    var abstractChecking := AbstractChecking(a, sourceOpt);
    if !abstractChecking && a.clientAccount.Some? && a.clientAccount.value != sourceOpt.value then
      Halt(Failed(SourceAndClientAccountDoNotMatchAsEqual), a)
    else
      var a1 := if abstractChecking then a else BindAccounts(a, sourceOpt.value);
      if s.poolAccountId.Err? then Halt(Failed(s.poolAccountId.error), a1)
      else if s.poolValidity.Fail? then Halt(Failed(s.poolValidity.error), a1)
      else if s.markingAsset.Err? then Halt(Failed(s.markingAsset.error), a1)
      else if a1.destination.asset != s.markingAsset.value then Halt(Failed(InvalidAssetForLiquidityMarking), a1)
      else if !abstractChecking && s.sourceBalance0.Err? then Halt(Failed(s.sourceBalance0.error), a1)
      else if !abstractChecking && s.sourceBalance1.Err? then Halt(Failed(s.sourceBalance1.error), a1)
      else
        var bs: Balance := if abstractChecking then 0 else s.sourceBalance0.value;
        var ts: Balance := if abstractChecking then 0 else s.sourceBalance1.value;
        if !abstractChecking && (bs == 0 || ts == 0) then Halt(Failed(AccountBalanceIsInvalid), a1)
        else if s.poolBalance0.Err? then Halt(Failed(s.poolBalance0.error), a1)
        else if s.poolBalance1.Err? then Halt(Failed(s.poolBalance1.error), a1)
        else
          var bp, tp := s.poolBalance0.value, s.poolBalance1.value;
          if !(bp == 0 && tp == 0) && bp == 0 then Halt(Failed(PoolIsInvalid), a1)
          else if !(bp == 0 && tp == 0) && tp == 0 then Halt(Failed(PoolIsInvalid), a1)
          else
            var emptyPool := bp == 0 && tp == 0;
            var fixesRatio := !abstractChecking && emptyPool;
            if fixesRatio && Definite(a1.source0.amount).None? then
              Halt(Failed(InitialLiqudityDepositRatioMustBeDefined), a1)
            else if fixesRatio && Definite(a1.source1.amount).None? then
              Halt(Failed(InitialLiqudityDepositRatioMustBeDefined), a1)
            else
              var initX: Balance := if fixesRatio then Definite(a1.source0.amount).value else 0;
              var initY: Balance := if fixesRatio then Definite(a1.source1.amount).value else 0;
              Proceed(a1, Locals(abstractChecking, bs, ts, bp, tp, emptyPool, initX, initY, None))
  }

  /** Lines 160-175: the pool's invariant k, or none in an abstract check of an empty pool. */
  function PoolInvariant(l: Locals): Result<Option<Balance>, Error>
  {
    if l.emptyPool && l.abstractChecking then Ok(None)
    else
      var fxw := if l.emptyPool then MultiplyAndSqrt(Exact(l.initX), Exact(l.initY))
                 else MultiplyAndSqrt(Exact(l.poolBase), Exact(l.poolTarget));
      match ToBalance(fxw)
      case Err(e) => Err(e)
      case Ok(k) => Ok(Some(k))
  }

  /**
   * Lines 204-219 (and 220-235): a `Desired` leg must equal the recomputed amount,
   * any other bound must accept it and is replaced by it.
   */
  function ResolveLeg(bound: Bounds, computed: Balance, mismatch: Error): Result<Bounds, Error>
  {
    match bound
    case Desired(x) => if x != computed then Err(mismatch) else Ok(bound)
    case _ =>
      if MeetsTheBoundaries(bound, computed) then Ok(Calculated(computed))
      else Err(CalculatedValueIsNotMeetsRequiredBoundaries)
  }

  /** Lines 196-236: the marker leg is `Desired(destinationK)`; the pool is not empty. */
  function MarkerDesired(rev: Revision, a: Action, l: Locals, poolK: Balance, destinationK: Balance): Step
  {
    if destinationK == 0 then Halt(Failed(ZeroValueInAmountParameter), a)
    else
      var fxwDestinationK := Exact(if rev == AsWritten then l.initX else destinationK);
      var fxwPieceToAdd := Div(Exact(poolK), fxwDestinationK);
      var recomX := ToBalance(Div(Exact(l.poolBase), fxwPieceToAdd));
      var recomY := ToBalance(Div(Exact(l.poolTarget), fxwPieceToAdd));
      if recomX.Err? then Halt(Failed(recomX.error), a)
      else if recomY.Err? then Halt(Failed(recomY.error), a)
      else
        match ResolveLeg(a.source0.amount, recomX.value, InvalidDepositLiquidityBasicAssetAmount)
        case Err(e) => Halt(Failed(e), a)
        case Ok(x) =>
          var a1 := a.(source0 := WithAmount(a.source0, x));
          match ResolveLeg(a1.source1.amount, recomY.value, InvalidDepositLiquidityTargetAssetAmount)
          case Err(e) => Halt(Failed(e), a1)
          case Ok(y) => Proceed(a1.(source1 := WithAmount(a1.source1, y)), l)
  }

  /** Lines 237-265: both source legs are ranges; the amounts come from `calc_deposit_liquidity_1`. */
  function RangeBoth(a: Action, l: Locals, s: Snapshot, xdes: Balance, xmin: Balance,
                     ydes: Balance, ymin: Balance, destAmount: Bounds): Step
  {
    if !(xdes >= xmin && ydes >= ymin) then Halt(Failed(RangeValuesIsInvalid), a)
    else if s.totalIssuance.Err? then Halt(Failed(s.totalIssuance.error), a)
    else
      match s.calcDepositLiquidity(s.totalIssuance.value, l.poolBase, l.poolTarget, xdes, ydes, xmin, ymin)
      case Err(e) => Halt(Failed(e), a)
      case Ok((calcXdes, calcYdes, calcMarker)) =>
        var a1 := a.(source0 := WithAmount(a.source0, Calculated(calcXdes)),
                     source1 := WithAmount(a.source1, Calculated(calcYdes)));
        if destAmount.Desired? then Halt(Failed(ThisCaseIsNotSupported), a1)
        else Proceed(a1.(destination := WithAmount(a1.destination, Calculated(calcMarker))), l)
  }

  /** Lines 155-273: the invariant k, then the missing amounts of a concrete check. */
  function ResolveAmounts(rev: Revision, a: Action, l0: Locals, s: Snapshot): Step
  {
    match PoolInvariant(l0)
    case Err(e) => Halt(Failed(e), a)
    case Ok(poolK) =>
      var l := l0.(poolK := poolK);
      if l.abstractChecking || poolK.None? then Proceed(a, l)
      else if l.emptyPool then
        match a.destination.amount
        case Desired(k) =>
          if k != poolK.value then Halt(Failed(InvalidDepositLiquidityDestinationAmount), a)
          else Proceed(a, l)
        case _ => Proceed(a.(destination := WithAmount(a.destination, Calculated(poolK.value))), l)
      else
        match (a.source0.amount, a.source1.amount, a.destination.amount)
        case (_, _, Desired(destinationK)) => MarkerDesired(rev, a, l, poolK.value, destinationK)
        case (RangeFromDesiredToMin(xdes, xmin), RangeFromDesiredToMin(ydes, ymin), destAmount) =>
          RangeBoth(a, l, s, xdes, xmin, ydes, ymin, destAmount)
        case _ => Halt(Failed(ImpossibleToDecideDepositLiquidityAmounts), a)
  }

  /** Lines 275-289: default the minimum liquidity, or check it against the recommended one. */
  function ResolveMinLiquidity(a: Action, l: Locals, recommended: Balance): Step
  {
    match a.minLiquidity
    case None => Proceed(a.(minLiquidity := Some(recommended)), l)
    case Some(m) =>
      if m < recommended then Halt(Failed(PairSwapActionMinimumLiquidityIsSmallerThanRecommended), a)
      else Proceed(a, l)
  }

  /** The invariant the minimum-liquidity guard compares with (line 299). */
  function GuardInvariant(rev: Revision, l: Locals, poolK: Balance): Balance
  {
    if rev == Corrected && l.emptyPool then 0 else poolK
  }

  /** Lines 291-311: the minimum-liquidity guard and the source account's balances. */
  function CheckLimits(rev: Revision, a: Action, l: Locals): Step
  {
    if l.abstractChecking then Proceed(a, l)
    else
      match (a.minLiquidity, Definite(a.source0.amount), Definite(a.source1.amount),
             Definite(a.destination.amount), l.poolK)
      case (Some(m), Some(base), Some(target), Some(dest), Some(poolK)) =>
        var k := GuardInvariant(rev, l, poolK);
        if m > k && dest < m - k then Halt(Failed(DestinationAmountOfLiquidityIsNotLargeEnough), a)
        else if l.sourceBase < base then Halt(Failed(SourceBaseAmountIsNotLargeEnough), a)
        else if l.sourceTarget < target then Halt(Failed(TargetBaseAmountIsNotLargeEnough), a)
        else Proceed(a, l)
      case _ => Halt(Panicked, a)
  }

  /**
   * Lines 313-319: an empty pool keeps `min_liquidity` of the minted amount locked.
   * As written this also runs in an abstract check, whose marker bound may still
   * be a placeholder; the corrected reading locks only in a concrete check.
   */
  function Finish(rev: Revision, a: Action, l: Locals): (Status, Action)
  {
    if !l.emptyPool || (rev == Corrected && l.abstractChecking) then (Done, a)
    else
      match (Definite(a.destination.amount), a.minLiquidity)
      case (Some(dest), Some(m)) =>
        if dest < m then (Panicked, a)   // u128 underflow
        else (Done, a.(destination := WithAmount(a.destination, Calculated(dest - m))))
      case _ => (Panicked, a)
  }

  /** `prepare_and_validate`: the outcome and the action's fields afterwards (an error keeps earlier updates). */
  function Prepare(rev: Revision, a: Action, sourceOpt: Option<AccountId>, s: Snapshot): (Status, Action)
  {
    match Start(a, sourceOpt, s)
    case Halt(st, a1) => (st, a1)
    case Proceed(a1, l1) =>
      match ResolveAmounts(rev, a1, l1, s)
      case Halt(st, a2) => (st, a2)
      case Proceed(a2, l2) =>
        match ResolveMinLiquidity(a2, l2, s.minLiquidity)
        case Halt(st, a3) => (st, a3)
        case Proceed(a3, l3) =>
          match CheckLimits(rev, a3, l3)
          case Halt(st, a4) => (st, a4)
          case Proceed(a4, l4) => Finish(rev, a4, l4)
  }

  function StepOf(halt: Option<Status>, a: Action, l: Locals): Step
  {
    if halt.Some? then Halt(halt.value, a) else Proceed(a, l)
  }

  /** A call into the ledger that `reserve` makes once its guard passes. */
  datatype LedgerCall =
    | TransferIn(asset: AssetId, from: AccountId, pool: TechAccountId, amount: Balance)
    | MintTo(asset: AssetId, issuer: AccountId, to: AccountId, amount: Balance)
    | UpdateReserves(base: AssetId, target: AssetId)   // with the pool's balances read back

  class DepositLiquidityAction {
    var source0: Leg
    var source1: Leg
    var destination: Leg
    var clientAccount: Option<AccountId>
    var receiverAccount: Option<AccountId>
    var minLiquidity: Option<Balance>
    var poolAccount: TechAccountId

    constructor (a: Action)
      ensures Record() == a
    {
      source0, source1, destination := a.source0, a.source1, a.destination;
      clientAccount, receiverAccount := a.clientAccount, a.receiverAccount;
      minLiquidity, poolAccount := a.minLiquidity, a.poolAccount;
    }

    /** The fields as one value. */
    function Record(): Action
      reads this
    {
      Action(source0, source1, destination, clientAccount, receiverAccount, minLiquidity, poolAccount)
    }

    /**
     * `prepare_and_validate`, updating the fields in place. `rev` chooses between
     * the code as written and its corrected reading (see `Revision`). The body runs
     * the source's steps in order; each helper below is one stretch of it.
     */
    method PrepareAndValidate(rev: Revision, sourceOpt: Option<AccountId>, s: Snapshot) returns (status: Status)
      modifies this
      ensures (status, Record()) == Prepare(rev, old(Record()), sourceOpt, s)
    {
      var halt, l := Begin(sourceOpt, s);
      if halt.Some? {
        return halt.value;
      }
      halt, l := DeriveAmounts(rev, l, s);
      if halt.Some? {
        return halt.value;
      }
      halt := SettleMinLiquidity(l, s.minLiquidity);
      if halt.Some? {
        return halt.value;
      }
      halt := CheckAccountLimits(rev, l);
      if halt.Some? {
        return halt.value;
      }
      status := LockInitialLiquidity(rev, l);
    }

    /** Lines 60-153. */
    method Begin(sourceOpt: Option<AccountId>, s: Snapshot) returns (halt: Option<Status>, l: Locals)
      modifies this
      ensures Start(old(Record()), sourceOpt, s) == StepOf(halt, Record(), l)
    {
      l := Locals(false, 0, 0, 0, 0, false, 0, 0, None);
      var abstractChecking := sourceOpt.None? || IsAbstractChecking(Record());
      if !abstractChecking {
        var source := sourceOpt.value;
        match clientAccount {
          case None =>
            clientAccount := Some(source);
          case Some(ca) =>
            if ca != source {
              return Some(Failed(SourceAndClientAccountDoNotMatchAsEqual)), l;
            }
        }
        if receiverAccount.None? {
          receiverAccount := clientAccount;
        }
      }
      if s.poolAccountId.Err? {
        return Some(Failed(s.poolAccountId.error)), l;
      }
      if s.poolValidity.Fail? {
        return Some(Failed(s.poolValidity.error)), l;
      }
      if s.markingAsset.Err? {
        return Some(Failed(s.markingAsset.error)), l;
      }
      if destination.asset != s.markingAsset.value {
        return Some(Failed(InvalidAssetForLiquidityMarking)), l;
      }
      var balanceBs: Balance, balanceTs: Balance := 0, 0;
      if !abstractChecking {
        if s.sourceBalance0.Err? {
          return Some(Failed(s.sourceBalance0.error)), l;
        }
        if s.sourceBalance1.Err? {
          return Some(Failed(s.sourceBalance1.error)), l;
        }
        balanceBs, balanceTs := s.sourceBalance0.value, s.sourceBalance1.value;
      }
      if !abstractChecking && (balanceBs == 0 || balanceTs == 0) {
        return Some(Failed(AccountBalanceIsInvalid)), l;
      }
      if s.poolBalance0.Err? {
        return Some(Failed(s.poolBalance0.error)), l;
      }
      if s.poolBalance1.Err? {
        return Some(Failed(s.poolBalance1.error)), l;
      }
      var balanceBp, balanceTp := s.poolBalance0.value, s.poolBalance1.value;

      var emptyPool := false;
      if balanceBp == 0 && balanceTp == 0 {
        emptyPool := true;
      } else if balanceBp == 0 {
        return Some(Failed(PoolIsInvalid)), l;
      } else if balanceTp == 0 {
        return Some(Failed(PoolIsInvalid)), l;
      }

      var initX: Balance, initY: Balance := 0, 0;
      if !abstractChecking && emptyPool {
        var x := Definite(source0.amount);
        if x.None? {
          return Some(Failed(InitialLiqudityDepositRatioMustBeDefined)), l;
        }
        initX := x.value;
        var y := Definite(source1.amount);
        if y.None? {
          return Some(Failed(InitialLiqudityDepositRatioMustBeDefined)), l;
        }
        initY := y.value;
      }
      halt, l := None, Locals(abstractChecking, balanceBs, balanceTs, balanceBp, balanceTp, emptyPool, initX, initY, None);
    }

    /** Lines 155-273. */
    method DeriveAmounts(rev: Revision, l0: Locals, s: Snapshot) returns (halt: Option<Status>, l: Locals)
      modifies this
      ensures ResolveAmounts(rev, old(Record()), l0, s) == StepOf(halt, Record(), l)
    {
      l := l0;
      var poolK: Option<Balance> := None;
      if !(l.emptyPool && l.abstractChecking) {
        var fxwValue := if l.emptyPool then MultiplyAndSqrt(Exact(l.initX), Exact(l.initY))
                        else MultiplyAndSqrt(Exact(l.poolBase), Exact(l.poolTarget));
        var value := ToBalance(fxwValue);
        if value.Err? {
          return Some(Failed(value.error)), l;
        }
        poolK := Some(value.value);
      }
      l := l.(poolK := poolK);
      if l.abstractChecking || poolK.None? {
        return None, l;
      }
      if l.emptyPool {
        match destination.amount {
          case Desired(k) =>
            if k != poolK.value {
              return Some(Failed(InvalidDepositLiquidityDestinationAmount)), l;
            }
          case _ =>
            destination := WithAmount(destination, Calculated(poolK.value));
        }
        return None, l;
      }
      match (source0.amount, source1.amount, destination.amount) {
        case (_, _, Desired(destinationK)) =>
          halt := MarkerDesiredInPlace(rev, l, poolK.value, destinationK);
        case (RangeFromDesiredToMin(xdes, xmin), RangeFromDesiredToMin(ydes, ymin), destAmount) =>
          halt := RangeBothInPlace(l, s, xdes, xmin, ydes, ymin, destAmount);
        case _ =>
          halt := Some(Failed(ImpossibleToDecideDepositLiquidityAmounts));
      }
    }

    /** Lines 196-236. */
    method MarkerDesiredInPlace(rev: Revision, l: Locals, poolK: Balance, destinationK: Balance)
      returns (halt: Option<Status>)
      modifies this
      ensures MarkerDesired(rev, old(Record()), l, poolK, destinationK) == StepOf(halt, Record(), l)
    {
      var ox, oy := source0.amount, source1.amount;
      if destinationK == 0 {
        return Some(Failed(ZeroValueInAmountParameter));
      }
      var fxwDestinationK := Exact(if rev == AsWritten then l.initX else destinationK);
      var fxwPieceToAdd := Div(Exact(poolK), fxwDestinationK);
      var recomX := ToBalance(Div(Exact(l.poolBase), fxwPieceToAdd));
      if recomX.Err? {
        return Some(Failed(recomX.error));
      }
      var recomY := ToBalance(Div(Exact(l.poolTarget), fxwPieceToAdd));
      if recomY.Err? {
        return Some(Failed(recomY.error));
      }
      match ox {
        case Desired(x) =>
          if x != recomX.value {
            return Some(Failed(InvalidDepositLiquidityBasicAssetAmount));
          }
        case _ =>
          if !MeetsTheBoundaries(ox, recomX.value) {
            return Some(Failed(CalculatedValueIsNotMeetsRequiredBoundaries));
          }
          source0 := WithAmount(source0, Calculated(recomX.value));
      }
      match oy {
        case Desired(y) =>
          if y != recomY.value {
            return Some(Failed(InvalidDepositLiquidityTargetAssetAmount));
          }
        case _ =>
          if !MeetsTheBoundaries(oy, recomY.value) {
            return Some(Failed(CalculatedValueIsNotMeetsRequiredBoundaries));
          }
          source1 := WithAmount(source1, Calculated(recomY.value));
      }
      halt := None;
    }

    /** Lines 237-265. */
    method RangeBothInPlace(l: Locals, s: Snapshot, xdes: Balance, xmin: Balance,
                            ydes: Balance, ymin: Balance, destAmount: Bounds)
      returns (halt: Option<Status>)
      modifies this
      ensures RangeBoth(old(Record()), l, s, xdes, xmin, ydes, ymin, destAmount) == StepOf(halt, Record(), l)
    {
      if !(xdes >= xmin && ydes >= ymin) {
        return Some(Failed(RangeValuesIsInvalid));
      }
      if s.totalIssuance.Err? {
        return Some(Failed(s.totalIssuance.error));
      }
      var calculated := s.calcDepositLiquidity(s.totalIssuance.value, l.poolBase, l.poolTarget,
                                               xdes, ydes, xmin, ymin);
      if calculated.Err? {
        return Some(Failed(calculated.error));
      }
      var (calcXdes, calcYdes, calcMarker) := calculated.value;
      source0 := WithAmount(source0, Calculated(calcXdes));
      source1 := WithAmount(source1, Calculated(calcYdes));
      if destAmount.Desired? {
        return Some(Failed(ThisCaseIsNotSupported));
      }
      destination := WithAmount(destination, Calculated(calcMarker));
      halt := None;
    }

    /** Lines 275-289. */
    method SettleMinLiquidity(l: Locals, recommended: Balance) returns (halt: Option<Status>)
      modifies this
      ensures ResolveMinLiquidity(old(Record()), l, recommended) == StepOf(halt, Record(), l)
    {
      match minLiquidity {
        case None =>
          minLiquidity := Some(recommended);
        case Some(m) =>
          if m < recommended {
            return Some(Failed(PairSwapActionMinimumLiquidityIsSmallerThanRecommended));
          }
      }
      halt := None;
    }

    /** Lines 291-311; reads the fields only. */
    method CheckAccountLimits(rev: Revision, l: Locals) returns (halt: Option<Status>)
      ensures CheckLimits(rev, Record(), l) == StepOf(halt, Record(), l)
    {
      if l.abstractChecking {
        return None;
      }
      var baseAmount := Definite(source0.amount);
      var targetAmount := Definite(source1.amount);
      var destinationAmount := Definite(destination.amount);
      if minLiquidity.None? || baseAmount.None? || targetAmount.None? || destinationAmount.None? || l.poolK.None? {
        return Some(Panicked);
      }
      var m := minLiquidity.value;
      var k := GuardInvariant(rev, l, l.poolK.value);
      if m > k && destinationAmount.value < m - k {
        return Some(Failed(DestinationAmountOfLiquidityIsNotLargeEnough));
      }
      if l.sourceBase < baseAmount.value {
        return Some(Failed(SourceBaseAmountIsNotLargeEnough));
      }
      if l.sourceTarget < targetAmount.value {
        return Some(Failed(TargetBaseAmountIsNotLargeEnough));
      }
      halt := None;
    }

    /** Lines 313-319. */
    method LockInitialLiquidity(rev: Revision, l: Locals) returns (status: Status)
      modifies this
      ensures Finish(rev, old(Record()), l) == (status, Record())
    {
      if l.emptyPool && !(rev == Corrected && l.abstractChecking) {
        var dest := Definite(destination.amount);
        if dest.None? || minLiquidity.None? || dest.value < minLiquidity.value {
          return Panicked;
        }
        destination := WithAmount(destination, Calculated(dest.value - minLiquidity.value));
      }
      status := Done;
    }

    /**
     * `reserve`: only the client account may move the funds; it then moves both
     * source amounts into the pool, mints the marker amount to the receiver and
     * refreshes the pool's reserves.
     */
    method Reserve(source: AccountId, poolAccountId: Result<AccountId, Error>)
      returns (status: Status, calls: seq<LedgerCall>)
      ensures clientAccount != Some(source) ==>
                status == Failed(SourceAndClientAccountDoNotMatchAsEqual) && calls == []
      ensures clientAccount == Some(source) && poolAccountId.Err? ==>
                status == Failed(poolAccountId.error) && calls == []
      ensures status == Done <==>
                && clientAccount == Some(source) && poolAccountId.Ok?
                && Definite(source0.amount).Some? && Definite(source1.amount).Some?
                && Definite(destination.amount).Some? && receiverAccount.Some?
      ensures status == Done ==> calls == [
                TransferIn(source0.asset, source, poolAccount, Definite(source0.amount).value),
                TransferIn(source1.asset, source, poolAccount, Definite(source1.amount).value),
                MintTo(destination.asset, poolAccountId.value, receiverAccount.value,
                       Definite(destination.amount).value),
                UpdateReserves(source0.asset, source1.asset)]
      ensures status != Done ==> calls == []
    {
      if Some(source) != clientAccount {
        return Failed(SourceAndClientAccountDoNotMatchAsEqual), [];
      }
      if poolAccountId.Err? {
        return Failed(poolAccountId.error), [];
      }
      var poolAccountReprSys := poolAccountId.value;
      var amount0 := Definite(source0.amount);
      var amount1 := Definite(source1.amount);
      var marker := Definite(destination.amount);
      if amount0.None? || amount1.None? || marker.None? || receiverAccount.None? {
        return Panicked, [];
      }
      calls := [TransferIn(source0.asset, source, poolAccount, amount0.value),
                TransferIn(source1.asset, source, poolAccount, amount1.value),
                MintTo(destination.asset, poolAccountReprSys, receiverAccount.value, marker.value),
                UpdateReserves(source0.asset, source1.asset)];
      status := Done;
    }

    /** The action settles by instant auto-claim. */
    function InstantAutoClaimUsed(): (used: bool)
      ensures used
    {
      true
    }

    /** The action never waits for a triggered claim. */
    function TriggeredAutoClaimUsed(): (used: bool)
      ensures !used
    {
      false
    }

    function IsAbleToClaim(): (able: bool)
      ensures able
    {
      true
    }

    /** `claim` always succeeds: the deposit is complete once `reserve` has run. */
    function Claim(source: AccountId): (claimed: bool)
      ensures claimed
    {
      true
    }
  }
}
