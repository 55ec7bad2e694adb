# Token selection cache and token utilities

A Dafny model of two parts of a token SDK for a distributed ledger.

- **The token selection cache** (`VaultWatcherService`). This is an in-memory index from owner key to
  token class to token identifier to a set of fungible token records. Each record carries a lock
  flag: `true` means an in-flight selection has claimed it. `onVaultUpdate` applies a vault
  update: consumed records are removed and produced records are added. `selectTokens` walks the records
  under a key, skips those the optional predicate rejects, and claims free ones with a
  compare-and-set until the running total reaches the requested amount. `unlockToken` releases a
  claim.
- **The token utilities** (`TokenUtilities.kt`). These build amounts from whole numbers, wrap
  amounts and token types with an issuer or a holder, strip the issuer, and sum sequences of
  amounts by a `reduce` over `Amount.plus`.

Layout:

- `wrappers.dfy` holds `Option` (a Kotlin nullable) and `Result` (a value or a thrown exception).
- `token_types.dfy` holds the value types: parties, token types, issued token types, fungible and
  non-fungible token states, and `Amount`. It also models the three `Amount` operations the core
  calls: `plus`, `compareTo` and `fromDecimal` on whole numbers. `Amount` belongs to the ledger
  library, so only its observable behaviour is modelled: the token check, then the overflow check
  of a 64-bit `Long`.
- `token_utilities.dfy` holds the pure utilities as functions. Lemmas relate them to a reference
  sum, to each other, and to their inverses.
- `vault_watcher.dfy` holds the cache.
  - The nested concurrent maps become a `map` value in the field `cache` of the class
    `VaultWatcherService`. Its methods reassign that field.
  - Each method is proved against a specification function on the old cache (`Added`, `Removed`,
    `Unlocked`, `Updated`, `EnsurePath`). Lemmas state what those functions do, key by key.
  - The claim loop of `selectTokens` is the method `SelectFrom`. It runs over the record set read
    at the start of the call, and its contract is the predicate `SelectionSpec`.

Every operation is modelled as atomic. The per-entry compare-and-set `replace(t, false, true)`
becomes "if the flag is false, set it to true".

A failed `selectTokens` does not release the records it claimed. They stay locked until
`unlockToken` frees them. The model states this through `SelectFrom`'s postcondition
`after == LockedAll(s, lockedTokens)` and `SelectTokens`' postcondition that the new cache is the old
one with exactly the claimed records under the request's key locked. Both hold on every outcome.

## Model

| member | source | states |
|---|---|---|
| TokenTypes.Plus | workflow/src/main/kotlin/com/r3/corda/sdk/token/workflow/selection/VaultWatcherService.kt:98 | `Amount.plus` succeeds exactly when the two amounts have the same token and display size and the sum fits in a Long. On success the quantities add and the token is kept. A token mismatch reports the check's error, and a sum out of range reports overflow. |
| TokenTypes.AtLeast | workflow/src/main/kotlin/com/r3/corda/sdk/token/workflow/selection/VaultWatcherService.kt:99 | `>=` on amounts is defined exactly for matching tokens and then compares quantities. |
| TokenTypes.TokenCheck | workflow/src/main/kotlin/com/r3/corda/sdk/token/workflow/selection/VaultWatcherService.kt:98 | The token check raises no error exactly when token and display size agree. |
| TokenTypes.FromWholeUnits | contract/src/main/kotlin/com/r3/corda/sdk/token/contracts/utilities/TokenUtilities.kt:21 | `fromDecimal` on n whole units succeeds exactly when n·10^fractionDigits lies in 0..Long.MAX. The result then has that quantity, display size 10^-fractionDigits and the given token. A negative count that fits a Long is rejected by the non-negative check. |
| TokenUtilities.AmountOf | contract/src/main/kotlin/com/r3/corda/sdk/token/contracts/utilities/TokenUtilities.kt:21 | `amount(n: Long, token)` succeeds exactly when 0 ≤ n and n·10^fd fits in a Long, and then holds n·10^fd smallest units of `token`. |
| TokenUtilities.AmountOfInt | contract/src/main/kotlin/com/r3/corda/sdk/token/contracts/utilities/TokenUtilities.kt:19 | The Int overload agrees with the Long overload on the widened value. For up to nine fraction digits it succeeds exactly when n ≥ 0. |
| TokenUtilities.IssuedAmountOf | contract/src/main/kotlin/com/r3/corda/sdk/token/contracts/utilities/TokenUtilities.kt:30-32 | The Long overload for an issued token type has the same success condition, quantity and token as `AmountOf`. |
| TokenUtilities.IssuedAmountOfInt | contract/src/main/kotlin/com/r3/corda/sdk/token/contracts/utilities/TokenUtilities.kt:26-28 | The Int overload for an issued token type agrees with its Long overload on the widened value. It succeeds exactly when n ≥ 0 for up to nine fraction digits. |
| TokenUtilities.IntUnitsFitInLong | contract/src/main/kotlin/com/r3/corda/sdk/token/contracts/utilities/TokenUtilities.kt:19 | A non-negative Int times 10^d, for d ≤ 9, never exceeds Long.MAX. Widening an Int therefore cannot overflow the conversion. |
| TokenUtilities.TokenIssuedBy | contract/src/main/kotlin/com/r3/corda/sdk/token/contracts/utilities/TokenUtilities.kt:66-68 | `token issuedBy p` is the issued token type with issuer p around `token`. |
| TokenUtilities.IssuedBy | contract/src/main/kotlin/com/r3/corda/sdk/token/contracts/utilities/TokenUtilities.kt:59-63 | `amount issuedBy p` keeps quantity and display size and only wraps the token with issuer p. |
| TokenUtilities.OwnedBy | contract/src/main/kotlin/com/r3/corda/sdk/token/contracts/utilities/TokenUtilities.kt:72-76 | `amount ownedBy h` is the fungible token state of exactly that amount, held by h. |
| TokenUtilities.IssuedTokenOwnedBy | contract/src/main/kotlin/com/r3/corda/sdk/token/contracts/utilities/TokenUtilities.kt:79-83 | `issuedToken ownedBy h` is the non-fungible token state of that token, held by h. |
| TokenUtilities.WithoutIssuer | contract/src/main/kotlin/com/r3/corda/sdk/token/contracts/utilities/TokenUtilities.kt:132-134 | `withoutIssuer` keeps quantity and display size and replaces the issued token type by its underlying token type. |
| TokenUtilities.WithoutIssuerUndoesIssuedBy | contract/src/main/kotlin/com/r3/corda/sdk/token/contracts/utilities/TokenUtilities.kt:132-134 | Round trip: `withoutIssuer(a issuedBy p) == a`. |
| TokenUtilities.IssuedByUndoesWithoutIssuer | contract/src/main/kotlin/com/r3/corda/sdk/token/contracts/utilities/TokenUtilities.kt:59-63 | Round trip in the other direction: re-issuing a stripped amount by its own issuer gives the amount back. |
| TokenUtilities.IssuedByKeepsCompatibility | contract/src/main/kotlin/com/r3/corda/sdk/token/contracts/utilities/TokenUtilities.kt:59-63 | Two amounts issued by the same party can be added exactly when the unissued amounts can. |
| TokenUtilities.FoldPlusSpec | contract/src/main/kotlin/com/r3/corda/sdk/token/contracts/utilities/TokenUtilities.kt:119-121 | The left fold of `plus` from an accumulator succeeds exactly when every element matches the accumulator's token and the total fits in a Long. On success it yields the reference sum in the accumulator's token. |
| TokenUtilities.SumTokensOrThrow | contract/src/main/kotlin/com/r3/corda/sdk/token/contracts/utilities/TokenUtilities.kt:119-121 | `sumTokensOrThrow` throws on an empty sequence. It succeeds exactly when all amounts share the first one's token and display size and the total fits in a Long. The result is then the reference sum. |
| TokenUtilities.SumTokensOrNull | contract/src/main/kotlin/com/r3/corda/sdk/token/contracts/utilities/TokenUtilities.kt:115-117 | `sumTokensOrNull` gives null on an empty sequence. Otherwise it succeeds exactly when the amounts are summable, and then gives their sum. |
| TokenUtilities.SumTokensOrZero | contract/src/main/kotlin/com/r3/corda/sdk/token/contracts/utilities/TokenUtilities.kt:123-125 | `sumTokensOrZero(token)` gives a zero amount of `token` on an empty sequence and the `sumTokensOrThrow` result otherwise. Any result's quantity is the reference sum. |
| TokenUtilities.SumIssuedTokensOrThrow | contract/src/main/kotlin/com/r3/corda/sdk/token/contracts/utilities/TokenUtilities.kt:105-107 | The issued variant behaves exactly as `sumTokensOrThrow`. |
| TokenUtilities.SumIssuedTokensOrNull | contract/src/main/kotlin/com/r3/corda/sdk/token/contracts/utilities/TokenUtilities.kt:101-103 | The issued variant behaves exactly as `sumTokensOrNull`. |
| TokenUtilities.SumIssuedTokensOrZero | contract/src/main/kotlin/com/r3/corda/sdk/token/contracts/utilities/TokenUtilities.kt:109-111 | The issued variant gives a zero amount of `token` on an empty sequence and the `reduce` sum otherwise. |
| TokenUtilities.IssueAllKeepsQuantities | contract/src/main/kotlin/com/r3/corda/sdk/token/contracts/utilities/TokenUtilities.kt:59-63 | Issuing every amount of a sequence keeps the total quantity. |
| TokenUtilities.IssuingCommutesWithSum | contract/src/main/kotlin/com/r3/corda/sdk/token/contracts/utilities/TokenUtilities.kt:101-107 | Summing issued amounts succeeds exactly when summing the unissued ones does. The issued sum is then the unissued sum issued by the same party. |
| VaultWatcher.IssuerPlaysNoPartInKey | workflow/src/main/kotlin/com/r3/corda/sdk/token/workflow/selection/VaultWatcherService.kt:112-117 | `processToken` keys a record by holder key, token class and token identifier only: two amounts of one token type held by one party get the same key whatever their issuers. |
| VaultWatcher.RequestKeyMatches | workflow/src/main/kotlin/com/r3/corda/sdk/token/workflow/selection/VaultWatcherService.kt:112-117 | A record lies under the key `selectTokens` searches exactly when its holder key is the requested owner and its token class and identifier are the requested ones. |
| VaultWatcher.ForeignIssuerIsRejected | workflow/src/main/kotlin/com/r3/corda/sdk/token/workflow/selection/VaultWatcherService.kt:87-98 | A record under the request's key but from another issuer is refused by `amountLocked += token.amount` with a token mismatch, so a selection can end in `AmountRejected(TokenMismatch)`. |
| VaultWatcher.Put | workflow/src/main/kotlin/com/r3/corda/sdk/token/workflow/selection/VaultWatcherService.kt:124-130 | Writing a record set under a key through the `computeIfAbsent` chain stores it there. It changes no other key's records and removes no existing map. |
| VaultWatcher.PutKeepsWellKeyed | workflow/src/main/kotlin/com/r3/corda/sdk/token/workflow/selection/VaultWatcherService.kt:32 | Storing records that all belong under a key keeps every record under its own (owner, class, identifier) key. |
| VaultWatcher.EnsurePathKeepsEntries | workflow/src/main/kotlin/com/r3/corda/sdk/token/workflow/selection/VaultWatcherService.kt:119-131 | `getTokenSet` creates the maps for its key. No key's records change, and every existing map stays. |
| VaultWatcher.AddedSpec | workflow/src/main/kotlin/com/r3/corda/sdk/token/workflow/selection/VaultWatcherService.kt:65-73 | After an add the record is present. A new record is stored free. A record already present keeps its flag, so the cache is unchanged. Other keys are untouched. |
| VaultWatcher.RemovedSpec | workflow/src/main/kotlin/com/r3/corda/sdk/token/workflow/selection/VaultWatcherService.kt:57-63 | A remove deletes the record whatever its flag and touches no other entry. Removing an absent record changes no key's records. |
| VaultWatcher.RemovedIdempotent | workflow/src/main/kotlin/com/r3/corda/sdk/token/workflow/selection/VaultWatcherService.kt:57-63 | A second removal of the same record is a no-op. |
| VaultWatcher.UnlockedSpec | workflow/src/main/kotlin/com/r3/corda/sdk/token/workflow/selection/VaultWatcherService.kt:75-80 | Unlocking turns a locked flag free. A free or absent record, and every other key, is left as it was. |
| VaultWatcher.RemoveAllSpec | workflow/src/main/kotlin/com/r3/corda/sdk/token/workflow/selection/VaultWatcherService.kt:53 | Removing a sequence of records leaves each key's records minus those of the sequence that belong under it. |
| VaultWatcher.AddAllSpec | workflow/src/main/kotlin/com/r3/corda/sdk/token/workflow/selection/VaultWatcherService.kt:54 | Adding a sequence of records keeps each key's old records with their flags and adds the new ones that belong under it as free. |
| VaultWatcher.UpdatedSpec | workflow/src/main/kotlin/com/r3/corda/sdk/token/workflow/selection/VaultWatcherService.kt:52-55 | After a vault update, each key holds its old records minus the consumed ones, plus the produced ones. Produced records that were not already present are free. |
| VaultWatcher.ConsumedAndProducedIsFree | workflow/src/main/kotlin/com/r3/corda/sdk/token/workflow/selection/VaultWatcherService.kt:52-55 | A record both consumed and produced by one update ends up present and free, because removals run first. |
| VaultWatcher.StartupSpec | workflow/src/main/kotlin/com/r3/corda/sdk/token/workflow/selection/VaultWatcherService.kt:47 | Loading a snapshot into an empty cache leaves each key holding exactly its snapshot records, all free. |
| VaultWatcher.RemoveAllKeepsWellKeyed | workflow/src/main/kotlin/com/r3/corda/sdk/token/workflow/selection/VaultWatcherService.kt:53 | Removals keep every record under its own key. |
| VaultWatcher.AddAllKeepsWellKeyed | workflow/src/main/kotlin/com/r3/corda/sdk/token/workflow/selection/VaultWatcherService.kt:54 | Additions keep every record under its own key, so a record appears in at most one set. |
| VaultWatcher.WalkStart | workflow/src/main/kotlin/com/r3/corda/sdk/token/workflow/selection/VaultWatcherService.kt:87-90 | Before the loop nothing is claimed, the running total is a zero amount of the requested token, and every record is still to be visited. |
| VaultWatcher.SkipStep | workflow/src/main/kotlin/com/r3/corda/sdk/token/workflow/selection/VaultWatcherService.kt:92-94 | A record the predicate rejects, or one already locked, is not claimable. Visiting it keeps the bookkeeping. |
| VaultWatcher.ClaimStep | workflow/src/main/kotlin/com/r3/corda/sdk/token/workflow/selection/VaultWatcherService.kt:94-96 | Winning the compare-and-set on a free, accepted record appends a new, distinct, claimable record. The set then equals the start set with exactly the claimed records locked. |
| VaultWatcher.ContinueStep | workflow/src/main/kotlin/com/r3/corda/sdk/token/workflow/selection/VaultWatcherService.kt:96-101 | A claim whose sum stays below the request keeps the loop invariant: the claimed records all match the requested token, and every prefix total is below the request. |
| VaultWatcher.EnoughExit | workflow/src/main/kotlin/com/r3/corda/sdk/token/workflow/selection/VaultWatcherService.kt:99-100 | A claim whose sum reaches the request ends with success. The claimed records cover the request and every proper prefix falls short of it. |
| VaultWatcher.RejectExit | workflow/src/main/kotlin/com/r3/corda/sdk/token/workflow/selection/VaultWatcherService.kt:98 | A claimed record whose amount `plus` rejects ends the call with that error, and the record stays locked. |
| VaultWatcher.ExhaustedExit | workflow/src/main/kotlin/com/r3/corda/sdk/token/workflow/selection/VaultWatcherService.kt:105-108 | After visiting every record, a total below the request means insufficient balance. Every claimable record was then claimed. |
| VaultWatcher.ScarceSelectionFails | workflow/src/main/kotlin/com/r3/corda/sdk/token/workflow/selection/VaultWatcherService.kt:105-107 | If the free records the predicate accepts total less than the request, a selection that meets `SelectionSpec` does not succeed. If those records all carry the requested token, the outcome is `InsufficientBalance`. |
| VaultWatcher.SelectFrom | workflow/src/main/kotlin/com/r3/corda/sdk/token/workflow/selection/VaultWatcherService.kt:87-108 | The claim loop meets `SelectionSpec`, listed below, and its output set is the input set with exactly the claimed records locked. |
| VaultWatcher.VaultWatcherService.constructor | workflow/src/main/kotlin/com/r3/corda/sdk/token/workflow/selection/VaultWatcherService.kt:47 | The start-up load adds the snapshot records in order, leaving the cache equal to `AddAll` on an empty cache. |
| VaultWatcher.VaultWatcherService.GetTokenSet | workflow/src/main/kotlin/com/r3/corda/sdk/token/workflow/selection/VaultWatcherService.kt:119-131 | It returns the records under the key, or an empty set, and the cache becomes `EnsurePath` of the old cache. |
| VaultWatcher.VaultWatcherService.StoreTokenSet | workflow/src/main/kotlin/com/r3/corda/sdk/token/workflow/selection/VaultWatcherService.kt:123 | Mutating the returned set is a write through to the cache under its key: the new cache is `Put(old, k, s)`. Records stored under their own key keep every record under its own key. |
| VaultWatcher.VaultWatcherService.AddTokenToCache | workflow/src/main/kotlin/com/r3/corda/sdk/token/workflow/selection/VaultWatcherService.kt:65-73 | The new cache is `Added(old, t)`. The overwrite warning is logged exactly when the record was already present. |
| VaultWatcher.VaultWatcherService.RemoveTokenFromCache | workflow/src/main/kotlin/com/r3/corda/sdk/token/workflow/selection/VaultWatcherService.kt:57-63 | The new cache is `Removed(old, t)`. The warning is logged exactly when the record was absent or free. |
| VaultWatcher.VaultWatcherService.UnlockToken | workflow/src/main/kotlin/com/r3/corda/sdk/token/workflow/selection/VaultWatcherService.kt:75-80 | The new cache is `Unlocked(old, t)`. |
| VaultWatcher.VaultWatcherService.OnVaultUpdate | workflow/src/main/kotlin/com/r3/corda/sdk/token/workflow/selection/VaultWatcherService.kt:52-55 | The new cache is `Updated(old, u)`: every consumed record is removed, then every produced record is added. |
| VaultWatcher.VaultWatcherService.SelectTokens | workflow/src/main/kotlin/com/r3/corda/sdk/token/workflow/selection/VaultWatcherService.kt:82-110 | See the `SelectTokens` details below. |

`SelectFrom` and `SelectTokens` share `SelectionSpec`, which states, on the records under the key:

- The claimed records are distinct. Each was free and accepted by the predicate at the start.
- Every proper non-empty prefix of the claimed records totals less than the request.
- On success the claimed records are returned. They all match the requested token and they cover the request.
- On `InsufficientBalance`, every claimable record was claimed, yet the claimed total is below the request.
- On a rejected addition, the last claimed record's amount is the one that `plus` refused.

`SelectTokens` details:

- The records under the request's key satisfy `SelectionSpec`.
- The new cache differs from the old one only under that key.
- Under that key, exactly the claimed records are newly locked, on every outcome.
- Every record stays under its own key.

## Left out

- The start-up paging of the vault and the `trackBy`/`doOnNext` subscription are ledger I/O. Start-up is modelled as the constructor adding a given snapshot sequence.
- The `unlocker` executor is thread plumbing with no behaviour in the core.
- Concurrency of the nested concurrent maps is not modelled. Each operation is atomic.
- The live view that `getTokenSet` returns is modelled as a read followed by a write-back (`StoreTokenSet`).
- `SelectTokens` writes its locks back when the claim loop ends rather than one by one. Under the atomic model the two give the same cache.
- The iteration order of `set.keys` is left open: the claim loop picks any record still to be visited. Every contract holds for every order.
- The consumed and produced sets of a vault update are sequences in the model, that is, one enumeration order of each set.
- Log messages are not modelled. The warnings of `addTokenToCache` and `removeTokenFromCache` are modelled as a returned `warned` flag.
- The message text of `InsufficientBalanceException` is not modelled. The exception is `Err(InsufficientBalance)`.
- The exceptions thrown by `amountLocked += token.amount` are `Err(AmountRejected(cause))`.
- `amount` and `of` on `Double` and `BigDecimal` are not modelled: they convert floating point and arbitrary decimals through `BigDecimal`. Only the `Int` and `Long` overloads are modelled.
- The infix `of` spellings of the `Int` and `Long` overloads are the same calls as `amount`, so `AmountOf`, `AmountOfInt`, `IssuedAmountOf` and `IssuedAmountOfInt` model them.
- `FromWholeUnits` models `Amount.fromDecimal` only for whole numbers, the inputs of the `Int` and `Long` overloads. It takes the display size of a token type to be 10^-fractionDigits. The token type definition is not part of this model.
- `withNotary` only wraps a state in a library `TransactionState`, so it is not modelled.
- The flows MoveToken.kt and UpdateDistributionList.kt are not part of this model: they do network messaging, signing and identity lookups.
- The declarations in AbstractToken.kt, TokenCommand.kt and EvolvableTokenTypeCommand.kt are not part of this model: they hold no logic beyond what the value types here carry.
- An empty sequence given to `sumTokensOrThrow` is modelled as the error `EmptyCollection` rather than as a precondition, since `reduce` throws on it.
