/**
 * The value types the token cache and the token utilities work on: parties and keys, token types,
 * issued token types, fungible token states, and the ledger library's `Amount` with the three
 * operations the core calls on it (`plus`, `compareTo` and `fromDecimal` for whole numbers).
 * `Amount` belongs to the ledger library; only its observable behaviour is modelled here.
 */
module TokenTypes {
  import opened Wrappers

  const LONG_MIN: int := -0x8000_0000_0000_0000
  const LONG_MAX: int := 0x7fff_ffff_ffff_ffff
  const INT_MIN: int := -0x8000_0000
  const INT_MAX: int := 0x7fff_ffff

  /** Kotlin `Long`. */
  type Int64 = x: int | LONG_MIN <= x <= LONG_MAX
  /** Kotlin `Int`. */
  type Int32 = x: int | INT_MIN <= x <= INT_MAX
  /** The quantity of an `Amount`: a `Long` that the constructor requires to be non-negative. */
  type Quantity = q: int | 0 <= q <= LONG_MAX

  datatype PublicKey = PublicKey(encoded: seq<bv8>)

  /** A well-known identity; issuers are always well known. */
  datatype Party = Party(name: string, owningKey: PublicKey)

  /** A holder: either a well-known party or an anonymous key. */
  datatype AbstractParty =
    | KnownParty(party: Party)
    | AnonymousParty(key: PublicKey)
  {
    function OwningKey(): PublicKey {
      match this
      case KnownParty(p) => p.owningKey
      case AnonymousParty(k) => k
    }
  }

  /** The runtime class of a token type, used as the second level of the cache's key. */
  datatype TokenClass = TokenClass(qualifiedName: string)

  /** A `BigDecimal`: the number `unscaled * 10^(-scale)`; equality compares both fields, as `equals` does. */
  datatype Decimal = Decimal(unscaled: int, scale: int)

  datatype TokenType = TokenType(tokenClass: TokenClass, tokenIdentifier: string, fractionDigits: nat)
  {
    /** One display unit is `10^(-fractionDigits)` of the token. */
    function DisplayTokenSize(): Decimal {
      Decimal(1, fractionDigits)
    }
  }

  datatype IssuedTokenType = IssuedTokenType(issuer: Party, tokenType: TokenType)
  {
    function DisplayTokenSize(): Decimal {
      tokenType.DisplayTokenSize()
    }
  }

  /** `quantity` smallest units of `token`, each worth `displayTokenSize` display units. */
  datatype Amount<T> = Amount(quantity: Quantity, displayTokenSize: Decimal, token: T)

  /** A fungible token state: an amount of an issued token type held by `holder`. */
  datatype FungibleToken = FungibleToken(amount: Amount<IssuedTokenType>, holder: AbstractParty)

  /** A non-fungible token state: one issued token type held by `holder`. */
  datatype NonFungibleToken = NonFungibleToken(token: IssuedTokenType, holder: AbstractParty)

  /** The exceptions the amount operations throw. */
  datatype AmountError =
    | EmptyCollection      // `reduce` on an empty iterable (UnsupportedOperationException)
    | TokenMismatch        // `checkToken`: the tokens differ (IllegalArgumentException)
    | DisplaySizeMismatch  // `checkToken`: the display sizes differ (IllegalArgumentException)
    | Overflow             // `Math.addExact` or `longValueExact` left the Long range (ArithmeticException)
    | NegativeQuantity     // the `Amount` constructor's `quantity >= 0` requirement

  /** `checkToken` accepts the pair: same token and same display size. */
  predicate SameToken<T(==)>(a: Amount<T>, b: Amount<T>) {
    a.token == b.token && a.displayTokenSize == b.displayTokenSize
  }

  /** The error `checkToken` raises for the pair, tested in the library's order. */
  function TokenCheck<T(==)>(a: Amount<T>, b: Amount<T>): (r: Option<AmountError>)
    ensures r.None? <==> SameToken(a, b)
  {
    if b.token != a.token then Some(TokenMismatch)
    else if b.displayTokenSize != a.displayTokenSize then Some(DisplaySizeMismatch)
    else None
  }

  /** `a + b`: checks the tokens, then adds the quantities with overflow detection. */
  function Plus<T(==)>(a: Amount<T>, b: Amount<T>): (r: Result<Amount<T>, AmountError>)
    ensures r.Ok? <==> SameToken(a, b) && a.quantity + b.quantity <= LONG_MAX
    ensures r.Ok? ==> r.value.quantity == a.quantity + b.quantity
    ensures r.Ok? ==> r.value.token == a.token && r.value.displayTokenSize == a.displayTokenSize
    ensures !SameToken(a, b) ==> r == Err(TokenCheck(a, b).value)
    ensures SameToken(a, b) && a.quantity + b.quantity > LONG_MAX ==> r == Err(Overflow)
  {
    match TokenCheck(a, b)
    case Some(e) => Err(e)
    case None =>
      if a.quantity + b.quantity > LONG_MAX then Err(Overflow)
      else Ok(Amount(a.quantity + b.quantity, a.displayTokenSize, a.token))
  }

  /** `a >= b` through `compareTo`, which checks the tokens first. */
  function AtLeast<T(==)>(a: Amount<T>, b: Amount<T>): (r: Result<bool, AmountError>)
    ensures r.Ok? <==> SameToken(a, b)
    ensures r.Ok? ==> (r.value <==> a.quantity >= b.quantity)
  {
    match TokenCheck(a, b)
    case Some(e) => Err(e)
    case None => Ok(a.quantity >= b.quantity)
  }

  function Pow10(n: nat): (r: nat)
    ensures r >= 1
  {
    if n == 0 then 1 else 10 * Pow10(n - 1)
  }

  /**
   * `Amount.fromDecimal` applied to a whole number of display units of a token whose display size
   * is `10^(-fractionDigits)`: the division is exact, `longValueExact` rejects a count outside the
   * Long range, and the constructor rejects a negative count.
   */
  function FromWholeUnits<T>(units: int, fractionDigits: nat, token: T): (r: Result<Amount<T>, AmountError>)
    ensures r.Ok? <==> 0 <= units * Pow10(fractionDigits) <= LONG_MAX
    ensures r.Ok? ==> r.value.quantity == units * Pow10(fractionDigits)
    ensures r.Ok? ==> r.value.displayTokenSize == Decimal(1, fractionDigits) && r.value.token == token
    ensures units < 0 && LONG_MIN <= units * Pow10(fractionDigits) ==> r == Err(NegativeQuantity)
  {
    var tokenCount := units * Pow10(fractionDigits);
    if tokenCount < LONG_MIN || LONG_MAX < tokenCount then Err(Overflow)
    else if tokenCount < 0 then Err(NegativeQuantity)
    else Ok(Amount(tokenCount, Decimal(1, fractionDigits), token))
  }
}
