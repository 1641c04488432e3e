/** The contract's records: deposits and jars, product terms, accounts. */
module Types {
  import opened Numbers

  type AccountId = string
  type ProductId = string
  type Score = n: nat | n <= 0xFFFF witness 0

  datatype Option<+T> = None | Some(value: T) {
    function GetOr(default: T): T {
      if Some? then value else default
    }
  }

  /** Why a call aborts. An aborted call leaves the contract as it was. */
  datatype Error =
    | AccountNotFound
    | JarNotFound
    | ProductNotFound
    | ProductExists
    | ProductRejected
    | ProductDisabled
    | OutOfCap
    | NotVerified
    | JarIsLocked
    | FeeExceedsAmount
    | NothingToRestake
    | NotEnoughFunds
    | TimezoneRequired
    | TimestampOutOfRange
    | TimestampFromFuture
    | DaysOffsetOutOfRange
    | TooManyJars
    | BadAirdropSplit
    | AccountNotEmpty
    | PrincipalMismatch
    | IndexOutOfRange
    | NoSuchPromise

  datatype Result<+T> = Ok(value: T) | Err(error: Error) {
    predicate IsFailure() {
      Err?
    }

    function PropagateFailure<U>(): Result<U>
      requires Err?
    {
      Err(error)
    }

    function Extract(): T
      requires Ok?
    {
      value
    }
  }

  datatype Deposit = Deposit(createdAt: Timestamp, principal: TokenAmount)

  /** Interest already computed for a jar, and the moment up to which it counts. */
  datatype JarCache = JarCache(updatedAt: Timestamp, interest: TokenAmount)

  datatype Jar = Jar(
    deposits: seq<Deposit>,
    cache: Option<JarCache>,
    isLocked: bool,
    claimRemainder: nat)

  const DEFAULT_JAR := Jar([], None, false, 0)

  /** A product setting that is either constant or depends on an account feature. */
  datatype Configurable<+T> = Constant(value: T) | Tier(default: T, fallback: T) {
    function Resolve(isEnabled: bool): T {
      match this
      case Constant(v) => v
      case Tier(d, f) => if isEnabled then d else f
    }
  }

  datatype Terms =
    | Fixed(lockupTerm: Duration, apy: Configurable<UDecimal>)
    | Flexible(apy: Configurable<UDecimal>)
    | ScoreBased(scoreCap: Score, lockupTerm: Duration)
    | TieredScoreBased(tieredScoreCap: Configurable<Score>, lockupTerm: Duration)
  {
    predicate IsScoreBased() {
      ScoreBased? || TieredScoreBased?
    }

    predicate AllowsEarlyWithdrawal() {
      Flexible?
    }

    /** Matured: strictly more than the lockup term has passed. */
    predicate IsLiquid(deposit: Deposit, now: Timestamp) {
      Flexible? || now > deposit.createdAt + lockupTerm
    }
  }

  datatype WithdrawalFee = Fix(amount: TokenAmount) | Percent(percent: UDecimal)

  datatype Product = Product(
    id: ProductId,
    capMin: TokenAmount,
    capMax: TokenAmount,
    terms: Terms,
    withdrawalFee: Option<WithdrawalFee>,
    publicKey: Option<string>,
    isEnabled: bool)
  {
    function CalculateFee(principal: TokenAmount): TokenAmount {
      match withdrawalFee
      case None => 0
      case Some(Fix(amount)) => amount
      case Some(Percent(percent)) => Mul(percent, principal)
    }

    predicate AcceptsAmount(amount: TokenAmount) {
      capMin <= amount <= capMax
    }

    /** The checks a product passes before it is stored. A percentage compares
        with one through its significand and its power of ten. */
    predicate IsAdmissible() {
      && (terms.IsScoreBased() ==> publicKey.Some?)
      && (withdrawalFee.Some? ==>
            match withdrawalFee.value
            case Fix(amount) => amount < capMin
            case Percent(percent) => percent.significand < Pow10(percent.exponent) && percent.exponent <= MAX_EXPONENT)
      && capMin < capMax
      && ((terms.Fixed? || terms.Flexible?) ==>
            forall isEnabled :: terms.apy.Resolve(isEnabled).exponent <= MAX_EXPONENT)
    }
  }

  const MAX_EXPONENT: nat := 38

  datatype Features = Features(increasedApy: bool, increasedScoreCap: bool)
  datatype Feature = IncreasedApy | IncreasedScoreCap

  function WithFeature(features: Features, feature: Feature, isEnabled: bool): Features {
    match feature
    case IncreasedApy => features.(increasedApy := isEnabled)
    case IncreasedScoreCap => features.(increasedScoreCap := isEnabled)
  }

  /** Shift from UTC in milliseconds; the least 64-bit value means "not set". */
  datatype Timezone = Timezone(offset: int) {
    predicate IsValid() {
      offset != I64_MIN
    }

    /** The shifted time still fits an unsigned 64-bit timestamp. */
    predicate InRange(t: Timestamp) {
      0 <= offset + t <= U64_MAX
    }

    function Adjust(t: Timestamp): Timestamp
      requires InRange(t)
    {
      offset + t
    }

    function LocalDay(t: Timestamp): nat
      requires InRange(t)
    {
      Day(Adjust(t))
    }
  }

  const NO_TIMEZONE := Timezone(I64_MIN)

  datatype DailyScore = DailyScore(value: Score, booster: Score)

  const NO_SCORE := DailyScore(0, 0)

  /** The two-day window: `today` is the day of the last update, `yesterday` the
      day before it. */
  datatype ScoreWindow = ScoreWindow(updatedAt: Timestamp, today: DailyScore, yesterday: DailyScore)

  datatype Account = Account(
    nonce: nat,
    jars: map<ProductId, Jar>,
    timezone: Timezone,
    score: ScoreWindow,
    features: Features)

  function NewAccount(now: Timestamp): Account {
    Account(0, map[], NO_TIMEZONE, ScoreWindow(now, NO_SCORE, NO_SCORE), Features(false, false))
  }
}
