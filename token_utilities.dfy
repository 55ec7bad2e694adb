/**
 * Helpers for building amounts from whole numbers, wrapping amounts and token types with an issuer
 * or a holder, stripping the issuer again, and summing sequences of amounts.
 */
module TokenUtilities {
  import opened Wrappers
  import opened TokenTypes

  // ---------------------------------------------------------------------------------------------
  // Amounts from whole numbers (`amount(n, token)` and its infix spelling `n of token`)
  // ---------------------------------------------------------------------------------------------

  /** `amount(n: Long, token)`: `n` whole display units of an unissued token type. */
  function AmountOf(n: Int64, token: TokenType): (r: Result<Amount<TokenType>, AmountError>)
    ensures r.Ok? <==> 0 <= n && n * Pow10(token.fractionDigits) <= LONG_MAX
    ensures r.Ok? ==> r.value.quantity == n * Pow10(token.fractionDigits)
    ensures r.Ok? ==> r.value.displayTokenSize == token.DisplayTokenSize() && r.value.token == token
  {
    FromWholeUnits(n, token.fractionDigits, token)
  }

  /** `amount(n: Int, token)`: delegates to the Long overload on the widened value. */
  function AmountOfInt(n: Int32, token: TokenType): (r: Result<Amount<TokenType>, AmountError>)
    ensures r == AmountOf(n as Int64, token)
    ensures token.fractionDigits <= 9 ==> (r.Ok? <==> 0 <= n)
  {
    IntUnitsFitInLong(n, token.fractionDigits);
    AmountOf(n as Int64, token)
  }

  /** `amount(n: Long, issuedToken)`: `n` whole display units of an issued token type. */
  function IssuedAmountOf(n: Int64, token: IssuedTokenType): (r: Result<Amount<IssuedTokenType>, AmountError>)
    ensures r.Ok? <==> 0 <= n && n * Pow10(token.tokenType.fractionDigits) <= LONG_MAX
    ensures r.Ok? ==> r.value.quantity == n * Pow10(token.tokenType.fractionDigits)
    ensures r.Ok? ==> r.value.displayTokenSize == token.DisplayTokenSize() && r.value.token == token
  {
    FromWholeUnits(n, token.tokenType.fractionDigits, token)
  }

  /** `amount(n: Int, issuedToken)`: delegates to the Long overload on the widened value. */
  function IssuedAmountOfInt(n: Int32, token: IssuedTokenType): (r: Result<Amount<IssuedTokenType>, AmountError>)
    ensures r == IssuedAmountOf(n as Int64, token)
    ensures token.tokenType.fractionDigits <= 9 ==> (r.Ok? <==> 0 <= n)
  {
    IntUnitsFitInLong(n, token.tokenType.fractionDigits);
    IssuedAmountOf(n as Int64, token)
  }

  lemma {:induction false} Pow10Monotone(d: nat, e: nat)
    requires d <= e
    ensures Pow10(d) <= Pow10(e)
    decreases e
  {
    if d < e {
      Pow10Monotone(d, e - 1);
    }
  }

  /** A non-negative Int of whole units never overflows a Long for up to nine fraction digits. */
  lemma IntUnitsFitInLong(n: Int32, d: nat)
    ensures 0 <= n && d <= 9 ==> n * Pow10(d) <= LONG_MAX
  {
    if 0 <= n && d <= 9 {
      Pow10Monotone(d, 9);
      assert Pow10(9) == 1_000_000_000;
      var p := Pow10(d);
      assert n * p <= INT_MAX * p;
      assert INT_MAX * p <= INT_MAX * 1_000_000_000;
    }
  }

  // ---------------------------------------------------------------------------------------------
  // Wrapping with an issuer or a holder, and stripping the issuer
  // ---------------------------------------------------------------------------------------------

  /** `token issuedBy issuer`. */
  function TokenIssuedBy(token: TokenType, issuer: Party): (r: IssuedTokenType)
    ensures r.issuer == issuer && r.tokenType == token
  {
    IssuedTokenType(issuer, token)
  }

  /** `amount issuedBy issuer`: the same quantity and display size of the issued token type. */
  function IssuedBy(a: Amount<TokenType>, issuer: Party): (r: Amount<IssuedTokenType>)
    ensures r.quantity == a.quantity && r.displayTokenSize == a.displayTokenSize
    ensures r.token == TokenIssuedBy(a.token, issuer)
  {
    Amount(a.quantity, a.displayTokenSize, TokenIssuedBy(a.token, issuer))
  }

  /** `amount ownedBy holder`: a fungible token state holding exactly `a`. */
  function OwnedBy(a: Amount<IssuedTokenType>, holder: AbstractParty): (r: FungibleToken)
    ensures r.amount == a && r.holder == holder
  {
    FungibleToken(a, holder)
  }

  /** `issuedToken ownedBy holder`: a non-fungible token state. */
  function IssuedTokenOwnedBy(token: IssuedTokenType, holder: AbstractParty): (r: NonFungibleToken)
    ensures r.token == token && r.holder == holder
  {
    NonFungibleToken(token, holder)
  }

  /** `withoutIssuer()`: the same quantity and display size of the underlying token type. */
  function WithoutIssuer(a: Amount<IssuedTokenType>): (r: Amount<TokenType>)
    ensures r.quantity == a.quantity && r.displayTokenSize == a.displayTokenSize
    ensures r.token == a.token.tokenType
  {
    Amount(a.quantity, a.displayTokenSize, a.token.tokenType)
  }

  /** Stripping the issuer undoes issuing. */
  lemma WithoutIssuerUndoesIssuedBy(a: Amount<TokenType>, issuer: Party)
    ensures WithoutIssuer(IssuedBy(a, issuer)) == a
  {
  }

  /** Re-issuing by the original issuer undoes stripping. */
  lemma IssuedByUndoesWithoutIssuer(a: Amount<IssuedTokenType>)
    ensures IssuedBy(WithoutIssuer(a), a.token.issuer) == a
  {
  }

  /** Issuing by one issuer keeps two amounts compatible exactly when they were. */
  lemma IssuedByKeepsCompatibility(a: Amount<TokenType>, b: Amount<TokenType>, issuer: Party)
    ensures SameToken(IssuedBy(a, issuer), IssuedBy(b, issuer)) <==> SameToken(a, b)
  {
  }

  // ---------------------------------------------------------------------------------------------
  // Sums
  // ---------------------------------------------------------------------------------------------

  /** The reference sum: the quantities added up, with no range limit. */
  function QuantitySum<T>(xs: seq<Amount<T>>): nat
  {
    if xs == [] then 0 else xs[0].quantity + QuantitySum(xs[1..])
  }

  /** Every element passes `checkToken` against `a`. */
  predicate AllSameToken<T(==)>(a: Amount<T>, xs: seq<Amount<T>>) {
    forall i :: 0 <= i < |xs| ==> SameToken(a, xs[i])
  }

  /** The amounts can be added up: one token, one display size, and a total that fits in a Long. */
  predicate Summable<T(==)>(xs: seq<Amount<T>>) {
    xs != [] && AllSameToken(xs[0], xs) && QuantitySum(xs) <= LONG_MAX
  }

  /** `a` is the total of the non-empty `xs`, in the token and display size of the first element. */
  predicate IsSumOf<T(==)>(a: Amount<T>, xs: seq<Amount<T>>)
    requires xs != []
  {
    a.quantity == QuantitySum(xs) && a.token == xs[0].token && a.displayTokenSize == xs[0].displayTokenSize
  }

  /** The body of `reduce { left, right -> left + right }` once the first element is the accumulator. */
  function FoldPlus<T(==)>(acc: Amount<T>, xs: seq<Amount<T>>): Result<Amount<T>, AmountError>
    decreases |xs|
  {
    if xs == [] then Ok(acc)
    else match Plus(acc, xs[0])
      case Err(e) => Err(e)
      case Ok(next) => FoldPlus(next, xs[1..])
  }

  /** The left fold succeeds exactly when every addition is accepted and the running total stays in range. */
  lemma {:induction false} FoldPlusSpec<T>(acc: Amount<T>, xs: seq<Amount<T>>)
    ensures FoldPlus(acc, xs).Ok? <==> AllSameToken(acc, xs) && acc.quantity + QuantitySum(xs) <= LONG_MAX
    ensures FoldPlus(acc, xs).Ok? ==>
      && FoldPlus(acc, xs).value.quantity == acc.quantity + QuantitySum(xs)
      && FoldPlus(acc, xs).value.token == acc.token
      && FoldPlus(acc, xs).value.displayTokenSize == acc.displayTokenSize
    decreases |xs|
  {
    if xs != [] {
      var p := Plus(acc, xs[0]);
      if p.Ok? {
        FoldPlusSpec(p.value, xs[1..]);
        assert AllSameToken(acc, xs) <==> AllSameToken(p.value, xs[1..]) by {
          if AllSameToken(p.value, xs[1..]) {
            forall i | 0 <= i < |xs| ensures SameToken(acc, xs[i]) {
              if i > 0 { assert xs[i] == xs[1..][i - 1]; }
            }
          }
        }
      } else if SameToken(acc, xs[0]) {
        assert acc.quantity + QuantitySum(xs) > LONG_MAX;
      }
    }
  }

  /** `sumTokensOrThrow()`: `reduce` with `+`; throws on an empty sequence. */
  function SumTokensOrThrow<T(==)>(xs: seq<Amount<T>>): (r: Result<Amount<T>, AmountError>)
    ensures xs == [] ==> r == Err(EmptyCollection)
    ensures r.Ok? <==> Summable(xs)
    ensures r.Ok? ==> IsSumOf(r.value, xs)
  {
    if xs == [] then Err(EmptyCollection)
    else
      FoldPlusSpec(xs[0], xs[1..]);
      assert AllSameToken(xs[0], xs) <==> AllSameToken(xs[0], xs[1..]) by {
        if AllSameToken(xs[0], xs[1..]) {
          forall i | 0 <= i < |xs| ensures SameToken(xs[0], xs[i]) {
            if i > 0 { assert xs[i] == xs[1..][i - 1]; }
          }
        }
      }
      FoldPlus(xs[0], xs[1..])
  }

  /** `sumTokensOrNull()`: null for an empty sequence, otherwise the `reduce` sum. */
  function SumTokensOrNull<T(==)>(xs: seq<Amount<T>>): (r: Result<Option<Amount<T>>, AmountError>)
    ensures xs == [] ==> r == Ok(None)
    ensures xs != [] ==> (r.Ok? <==> Summable(xs))
    ensures xs != [] && r.Ok? ==> r.value.Some? && IsSumOf(r.value.value, xs)
  {
    if xs == [] then Ok(None)
    else match SumTokensOrThrow(xs)
      case Err(e) => Err(e)
      case Ok(a) => Ok(Some(a))
  }

  /** `sumTokensOrZero(token)`: a zero amount of `token` for an empty sequence, otherwise the `reduce` sum. */
  function SumTokensOrZero(xs: seq<Amount<TokenType>>, token: TokenType): (r: Result<Amount<TokenType>, AmountError>)
    ensures xs == [] ==> r == Ok(Amount(0, token.DisplayTokenSize(), token))
    ensures xs != [] ==> r == SumTokensOrThrow(xs)
    ensures r.Ok? ==> r.value.quantity == QuantitySum(xs)
  {
    if xs != [] then SumTokensOrThrow(xs) else Ok(Amount(0, token.DisplayTokenSize(), token))
  }

  /** `sumIssuedTokensOrThrow()`: the same `reduce` over amounts of issued token types. */
  function SumIssuedTokensOrThrow(xs: seq<Amount<IssuedTokenType>>): (r: Result<Amount<IssuedTokenType>, AmountError>)
    ensures r == SumTokensOrThrow(xs)
  {
    if xs == [] then Err(EmptyCollection) else FoldPlus(xs[0], xs[1..])
  }

  /** `sumIssuedTokensOrNull()`: null for an empty sequence, otherwise the `reduce` sum. */
  function SumIssuedTokensOrNull(xs: seq<Amount<IssuedTokenType>>): (r: Result<Option<Amount<IssuedTokenType>>, AmountError>)
    ensures r == SumTokensOrNull(xs)
  {
    if xs == [] then Ok(None)
    else match SumIssuedTokensOrThrow(xs)
      case Err(e) => Err(e)
      case Ok(a) => Ok(Some(a))
  }

  /** `sumIssuedTokensOrZero(token)`: a zero amount of `token` for an empty sequence, otherwise the `reduce` sum. */
  function SumIssuedTokensOrZero(xs: seq<Amount<IssuedTokenType>>, token: IssuedTokenType): (r: Result<Amount<IssuedTokenType>, AmountError>)
    ensures xs == [] ==> r == Ok(Amount(0, token.DisplayTokenSize(), token))
    ensures xs != [] ==> r == SumTokensOrThrow(xs)
    ensures r.Ok? ==> r.value.quantity == QuantitySum(xs)
  {
    if xs != [] then SumIssuedTokensOrThrow(xs) else Ok(Amount(0, token.DisplayTokenSize(), token))
  }

  /** Every amount of `xs` issued by `issuer`. */
  function IssueAll(xs: seq<Amount<TokenType>>, issuer: Party): (r: seq<Amount<IssuedTokenType>>)
    ensures |r| == |xs|
    ensures forall i :: 0 <= i < |xs| ==> r[i] == IssuedBy(xs[i], issuer)
  {
    seq(|xs|, i requires 0 <= i < |xs| => IssuedBy(xs[i], issuer))
  }

  lemma {:induction false} IssueAllKeepsQuantities(xs: seq<Amount<TokenType>>, issuer: Party)
    ensures QuantitySum(IssueAll(xs, issuer)) == QuantitySum(xs)
    decreases |xs|
  {
    if xs != [] {
      IssueAllKeepsQuantities(xs[1..], issuer);
      assert IssueAll(xs, issuer)[1..] == IssueAll(xs[1..], issuer);
    }
  }

  /** Summing then issuing gives the same result as issuing then summing. */
  lemma IssuingCommutesWithSum(xs: seq<Amount<TokenType>>, issuer: Party)
    ensures SumIssuedTokensOrThrow(IssueAll(xs, issuer)).Ok? <==> SumTokensOrThrow(xs).Ok?
    ensures SumTokensOrThrow(xs).Ok? ==>
      SumIssuedTokensOrThrow(IssueAll(xs, issuer)).value == IssuedBy(SumTokensOrThrow(xs).value, issuer)
  {
    var ys := IssueAll(xs, issuer);
    IssueAllKeepsQuantities(xs, issuer);
    if xs != [] {
      assert AllSameToken(ys[0], ys) <==> AllSameToken(xs[0], xs) by {
        forall i | 0 <= i < |xs| ensures SameToken(ys[0], ys[i]) <==> SameToken(xs[0], xs[i]) {
          IssuedByKeepsCompatibility(xs[0], xs[i], issuer);
        }
      }
    }
  }
}
