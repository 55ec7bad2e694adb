/**
 * The token selection cache: an in-memory index owner -> token class -> token identifier -> token
 * records, each with a lock flag (`true` = locked by an in-flight selection), fed by vault updates and
 * drained by selections that claim free records until the requested amount is covered.
 *
 * Every operation is modelled as atomic; the per-entry compare-and-set of the concurrent map becomes
 * a conditional update of the flag.
 */
module VaultWatcher {
  import opened Wrappers
  import opened TokenTypes

  datatype StateRef = StateRef(txhash: seq<bv8>, index: nat)

  /** A token state with its ledger reference; equal records denote the same ledger state. */
  datatype StateAndRef = StateAndRef(data: FungibleToken, ref: StateRef)

  /** The three-level key of the cache. */
  datatype TokenKey = TokenKey(owner: PublicKey, tokenClass: TokenClass, tokenIdentifier: string)

  /** The records under one key, each mapped to its lock flag. */
  type TokenSet = map<StateAndRef, bool>

  type Cache = map<PublicKey, map<TokenClass, map<string, TokenSet>>>

  /** A vault update: the records consumed and the records produced by one transaction. */
  datatype VaultUpdate = VaultUpdate(consumed: seq<StateAndRef>, produced: seq<StateAndRef>)

  datatype SelectionError =
    | InsufficientBalance          // `InsufficientBalanceException`
    | AmountRejected(cause: AmountError)  // thrown by `amountLocked += token.amount`

  // ---------------------------------------------------------------------------------------------
  // The key of a record and the nested maps
  // ---------------------------------------------------------------------------------------------

  /** `processToken`: holder key, token class and token identifier of the record's issued token type. */
  function ProcessToken(token: FungibleToken): TokenKey {
    TokenKey(token.holder.OwningKey(), token.amount.token.tokenType.tokenClass, token.amount.token.tokenType.tokenIdentifier)
  }

  function KeyOf(t: StateAndRef): TokenKey {
    ProcessToken(t.data)
  }

  /** The key `selectTokens` searches: the request's owner, class and identifier; the issuer plays no part. */
  function RequestKey(owner: PublicKey, requested: Amount<IssuedTokenType>): TokenKey {
    TokenKey(owner, requested.token.tokenType.tokenClass, requested.token.tokenType.tokenIdentifier)
  }

  /** The issuer plays no part in a record's key: amounts of one token type held by one party share a key. */
  lemma IssuerPlaysNoPartInKey(a: Amount<IssuedTokenType>, b: Amount<IssuedTokenType>, holder: AbstractParty)
    requires a.token.tokenType == b.token.tokenType
    ensures ProcessToken(FungibleToken(a, holder)) == ProcessToken(FungibleToken(b, holder))
  {
  }

  /** A record lies under the key a request searches exactly when its holder key, class and identifier match. */
  lemma RequestKeyMatches(t: StateAndRef, owner: PublicKey, requested: Amount<IssuedTokenType>)
    ensures KeyOf(t) == RequestKey(owner, requested) <==>
      && t.data.holder.OwningKey() == owner
      && t.data.amount.token.tokenType.tokenClass == requested.token.tokenType.tokenClass
      && t.data.amount.token.tokenType.tokenIdentifier == requested.token.tokenType.tokenIdentifier
  {
  }

  /**
   * A record under the request's key whose issuer differs from the request's is refused by `plus`
   * with a token mismatch, whatever the running total: the `AmountRejected(TokenMismatch)` outcome.
   */
  lemma ForeignIssuerIsRejected(t: StateAndRef, owner: PublicKey, requested: Amount<IssuedTokenType>, total: Quantity)
    requires KeyOf(t) == RequestKey(owner, requested)
    requires t.data.amount.token.issuer != requested.token.issuer
    ensures Plus(requested.(quantity := total), t.data.amount) == Err(TokenMismatch)
  {
    assert t.data.amount.token != requested.token;
  }

  /** All three levels of maps exist for `k`. */
  predicate HasPath(c: Cache, k: TokenKey) {
    k.owner in c && k.tokenClass in c[k.owner] && k.tokenIdentifier in c[k.owner][k.tokenClass]
  }

  /** The records stored under `k`; no map at all reads as an empty one. */
  function Lookup(c: Cache, k: TokenKey): TokenSet {
    if HasPath(c, k) then c[k.owner][k.tokenClass][k.tokenIdentifier] else map[]
  }

  /** Store `s` under `k`, creating the missing levels as `computeIfAbsent` does. */
  function Put(c: Cache, k: TokenKey, s: TokenSet): (r: Cache)
    ensures HasPath(r, k) && Lookup(r, k) == s
    ensures forall k' :: k' != k ==> Lookup(r, k') == Lookup(c, k')
    ensures forall k' :: HasPath(c, k') ==> HasPath(r, k')
  {
    var byClass := if k.owner in c then c[k.owner] else map[];
    var byId := if k.tokenClass in byClass then byClass[k.tokenClass] else map[];
    c[k.owner := byClass[k.tokenClass := byId[k.tokenIdentifier := s]]]
  }

  /** The second write under a key replaces the first. */
  lemma PutPut(c: Cache, k: TokenKey, s: TokenSet, s': TokenSet)
    ensures Put(Put(c, k, s), k, s') == Put(c, k, s')
  {
    var byClass := if k.owner in c then c[k.owner] else map[];
    var byId := if k.tokenClass in byClass then byClass[k.tokenClass] else map[];
    assert byId[k.tokenIdentifier := s][k.tokenIdentifier := s'] == byId[k.tokenIdentifier := s'];
    assert byClass[k.tokenClass := byId[k.tokenIdentifier := s]][k.tokenClass := byId[k.tokenIdentifier := s']]
        == byClass[k.tokenClass := byId[k.tokenIdentifier := s']];
  }

  /** Every record sits under its own key; hence a record is under at most one key. */
  ghost predicate WellKeyed(c: Cache) {
    forall k, t :: t in Lookup(c, k) ==> KeyOf(t) == k
  }

  lemma PutKeepsWellKeyed(c: Cache, k: TokenKey, s: TokenSet)
    requires WellKeyed(c)
    requires forall t :: t in s ==> KeyOf(t) == k
    ensures WellKeyed(Put(c, k, s))
  {
  }

  // ---------------------------------------------------------------------------------------------
  // The cache operations on values
  // ---------------------------------------------------------------------------------------------

  /** `getTokenSet`: make sure the maps for `k` exist. */
  function EnsurePath(c: Cache, k: TokenKey): Cache {
    Put(c, k, Lookup(c, k))
  }

  /** `addTokenToCache`: `putIfAbsent(t, false)` under the record's key. */
  function Added(c: Cache, t: StateAndRef): Cache {
    var k := KeyOf(t);
    var s := Lookup(c, k);
    Put(c, k, if t in s then s else s[t := false])
  }

  /** `removeTokenFromCache`: `remove(t)` under the record's key. */
  function Removed(c: Cache, t: StateAndRef): Cache {
    var k := KeyOf(t);
    Put(c, k, Lookup(c, k) - {t})
  }

  /** `unlockToken`: `replace(t, true, false)` under the record's key. */
  function Unlocked(c: Cache, t: StateAndRef): Cache {
    var k := KeyOf(t);
    var s := Lookup(c, k);
    Put(c, k, if t in s && s[t] then s[t := false] else s)
  }

  /** Remove the records of `ts` in order. */
  function RemoveAll(c: Cache, ts: seq<StateAndRef>): Cache
    decreases |ts|
  {
    if ts == [] then c else Removed(RemoveAll(c, ts[..|ts| - 1]), ts[|ts| - 1])
  }

  /** Add the records of `ts` in order. */
  function AddAll(c: Cache, ts: seq<StateAndRef>): Cache
    decreases |ts|
  {
    if ts == [] then c else Added(AddAll(c, ts[..|ts| - 1]), ts[|ts| - 1])
  }

  /** `onVaultUpdate`: every consumed record is removed before any produced record is added. */
  function Updated(c: Cache, u: VaultUpdate): Cache {
    AddAll(RemoveAll(c, u.consumed), u.produced)
  }

  /** The records of `ts` that belong under `k`. */
  function Under(ts: seq<StateAndRef>, k: TokenKey): set<StateAndRef> {
    set t | t in ts && KeyOf(t) == k
  }

  /** The records of `ts` that belong under `k`, all free. */
  function FreeUnder(ts: seq<StateAndRef>, k: TokenKey): TokenSet {
    map t | t in Under(ts, k) :: false
  }

  // ---------------------------------------------------------------------------------------------
  // Properties of the cache operations
  // ---------------------------------------------------------------------------------------------

  /** `getTokenSet` only creates empty maps: no key's records change, and existing maps stay. */
  lemma EnsurePathKeepsEntries(c: Cache, k: TokenKey)
    ensures HasPath(EnsurePath(c, k), k)
    ensures forall k' :: Lookup(EnsurePath(c, k), k') == Lookup(c, k')
    ensures forall k' :: HasPath(c, k') ==> HasPath(EnsurePath(c, k), k')
  {
  }

  /**
   * A new record is stored free under its key; a record already present keeps its flag, so an
   * in-flight lock is never clobbered; nothing else changes.
   */
  lemma AddedSpec(c: Cache, t: StateAndRef)
    ensures t in Lookup(Added(c, t), KeyOf(t))
    ensures t !in Lookup(c, KeyOf(t)) ==> Lookup(Added(c, t), KeyOf(t)) == Lookup(c, KeyOf(t))[t := false]
    ensures t in Lookup(c, KeyOf(t)) ==> forall k :: Lookup(Added(c, t), k) == Lookup(c, k)
    ensures forall k :: k != KeyOf(t) ==> Lookup(Added(c, t), k) == Lookup(c, k)
  {
  }

  /**
   * Removal deletes the record whether locked or free and touches nothing else; removing an absent
   * record changes no key's records.
   */
  lemma RemovedSpec(c: Cache, t: StateAndRef)
    ensures Lookup(Removed(c, t), KeyOf(t)) == Lookup(c, KeyOf(t)) - {t}
    ensures forall k :: k != KeyOf(t) ==> Lookup(Removed(c, t), k) == Lookup(c, k)
    ensures t !in Lookup(c, KeyOf(t)) ==> forall k :: Lookup(Removed(c, t), k) == Lookup(c, k)
  {
  }

  /** A second removal of the same record is a no-op. */
  lemma RemovedIdempotent(c: Cache, t: StateAndRef)
    ensures Removed(Removed(c, t), t) == Removed(c, t)
  {
    var k := KeyOf(t);
    assert Lookup(c, k) - {t} - {t} == Lookup(c, k) - {t};
    PutPut(c, k, Lookup(c, k) - {t}, Lookup(c, k) - {t});
  }

  /** Unlocking changes a flag only from locked to free; free or absent records, and all others, stay. */
  lemma UnlockedSpec(c: Cache, t: StateAndRef)
    ensures var s := Lookup(c, KeyOf(t));
      t in s && s[t] ==> Lookup(Unlocked(c, t), KeyOf(t)) == s[t := false]
    ensures var s := Lookup(c, KeyOf(t));
      !(t in s && s[t]) ==> forall k :: Lookup(Unlocked(c, t), k) == Lookup(c, k)
    ensures forall k :: k != KeyOf(t) ==> Lookup(Unlocked(c, t), k) == Lookup(c, k)
  {
  }

  /** Removing a sequence of records removes exactly those that belong under each key. */
  lemma {:induction false} RemoveAllSpec(c: Cache, ts: seq<StateAndRef>, k: TokenKey)
    ensures Lookup(RemoveAll(c, ts), k) == Lookup(c, k) - Under(ts, k)
    decreases |ts|
  {
    if ts != [] {
      var init, last := ts[..|ts| - 1], ts[|ts| - 1];
      RemoveAllSpec(c, init, k);
      assert ts == init + [last];
      if KeyOf(last) == k {
        assert Under(ts, k) == Under(init, k) + {last};
      } else {
        assert Under(ts, k) == Under(init, k);
      }
    }
  }

  /** Adding one record on top of a set of free records and an older set. */
  lemma AddOnTop(f: TokenSet, l: TokenSet, t: StateAndRef)
    requires forall u :: u in f ==> !f[u]
    ensures (if t in f + l then f + l else (f + l)[t := false]) == f[t := false] + l
  {
  }

  lemma UnderSnoc(ts: seq<StateAndRef>, t: StateAndRef, k: TokenKey)
    ensures FreeUnder(ts + [t], k) == if KeyOf(t) == k then FreeUnder(ts, k)[t := false] else FreeUnder(ts, k)
  {
    if KeyOf(t) == k {
      assert Under(ts + [t], k) == Under(ts, k) + {t};
    } else {
      assert Under(ts + [t], k) == Under(ts, k);
    }
  }

  /**
   * Adding a sequence of records stores each new one free under its key and keeps every record that
   * was already there with its flag.
   */
  lemma {:induction false} AddAllSpec(c: Cache, ts: seq<StateAndRef>, k: TokenKey)
    ensures Lookup(AddAll(c, ts), k) == FreeUnder(ts, k) + Lookup(c, k)
    decreases |ts|
  {
    if ts != [] {
      var init, last := ts[..|ts| - 1], ts[|ts| - 1];
      AddAllSpec(c, init, k);
      assert ts == init + [last];
      UnderSnoc(init, last, k);
      if KeyOf(last) == k {
        AddOnTop(FreeUnder(init, k), Lookup(c, k), last);
      }
    }
  }

  /**
   * After an update, a key holds its old records minus the consumed ones, plus the produced ones;
   * produced records that were not already present are free.
   */
  lemma UpdatedSpec(c: Cache, u: VaultUpdate, k: TokenKey)
    ensures Lookup(Updated(c, u), k) == FreeUnder(u.produced, k) + (Lookup(c, k) - Under(u.consumed, k))
  {
    RemoveAllSpec(c, u.consumed, k);
    AddAllSpec(RemoveAll(c, u.consumed), u.produced, k);
  }

  /** A record both consumed and produced by one update ends up present and free. */
  lemma ConsumedAndProducedIsFree(c: Cache, u: VaultUpdate, t: StateAndRef)
    requires t in u.consumed && t in u.produced
    ensures t in Lookup(Updated(c, u), KeyOf(t)) && !Lookup(Updated(c, u), KeyOf(t))[t]
  {
    UpdatedSpec(c, u, KeyOf(t));
    assert t in Under(u.produced, KeyOf(t)) && t in Under(u.consumed, KeyOf(t));
  }

  /** Starting from an empty cache, each key holds exactly its records from the snapshot, all free. */
  lemma StartupSpec(ts: seq<StateAndRef>, k: TokenKey)
    ensures Lookup(AddAll(map[], ts), k) == FreeUnder(ts, k)
  {
  }

  lemma {:induction false} RemoveAllKeepsWellKeyed(c: Cache, ts: seq<StateAndRef>)
    requires WellKeyed(c)
    ensures WellKeyed(RemoveAll(c, ts))
    decreases |ts|
  {
    if ts != [] {
      var c' := RemoveAll(c, ts[..|ts| - 1]);
      RemoveAllKeepsWellKeyed(c, ts[..|ts| - 1]);
      PutKeepsWellKeyed(c', KeyOf(ts[|ts| - 1]), Lookup(c', KeyOf(ts[|ts| - 1])) - {ts[|ts| - 1]});
    }
  }

  lemma {:induction false} AddAllKeepsWellKeyed(c: Cache, ts: seq<StateAndRef>)
    requires WellKeyed(c)
    ensures WellKeyed(AddAll(c, ts))
    decreases |ts|
  {
    if ts != [] {
      var c' := AddAll(c, ts[..|ts| - 1]);
      var t := ts[|ts| - 1];
      AddAllKeepsWellKeyed(c, ts[..|ts| - 1]);
      var s := Lookup(c', KeyOf(t));
      PutKeepsWellKeyed(c', KeyOf(t), if t in s then s else s[t := false]);
    }
  }

  // ---------------------------------------------------------------------------------------------
  // Selection vocabulary
  // ---------------------------------------------------------------------------------------------

  /** `predicate?.test(t) != false`: no predicate, or one that accepts `t`. */
  predicate Accepts(p: Option<StateAndRef -> bool>, t: StateAndRef) {
    p.None? || p.value(t)
  }

  /**
   * The quantities of the records added up. It folds from the end because the claimed records grow
   * by appending, so each claim extends the total by one unfolding.
   */
  function Total(ts: seq<StateAndRef>): nat
    decreases |ts|
  {
    if ts == [] then 0 else Total(ts[..|ts| - 1]) + ts[|ts| - 1].data.amount.quantity
  }

  predicate Distinct(ts: seq<StateAndRef>) {
    forall i, j :: 0 <= i < j < |ts| ==> ts[i] != ts[j]
  }

  /** Every record's amount passes `checkToken` against the requested amount. */
  predicate AllSameTokenAs(requested: Amount<IssuedTokenType>, ts: seq<StateAndRef>) {
    forall i :: 0 <= i < |ts| ==> SameToken(requested, ts[i].data.amount)
  }

  /** `s` with every record of `ts` locked. */
  function LockedAll(s: TokenSet, ts: seq<StateAndRef>): TokenSet {
    map t | t in s :: s[t] || t in ts
  }

  /** The records of `s` a selection with predicate `p` may claim: free and accepted. */
  function Claimable(s: TokenSet, p: Option<StateAndRef -> bool>): set<StateAndRef> {
    set t | t in s && !s[t] && Accepts(p, t)
  }

  /**
   * What a selection over the records `s` promises, given the records `claimed` it locked (in order)
   * and its outcome `r`.
   */
  predicate SelectionSpec(s: TokenSet, p: Option<StateAndRef -> bool>, requested: Amount<IssuedTokenType>,
                          r: Result<seq<StateAndRef>, SelectionError>, claimed: seq<StateAndRef>)
  {
    // the claimed records are distinct, and each was free and accepted by the predicate
    && Distinct(claimed)
    && (forall t :: t in claimed ==> t in Claimable(s, p))
    // the walk stops at the first claim whose total reaches the request
    && (forall j :: 1 <= j < |claimed| ==> Total(claimed[..j]) < requested.quantity)
    // success: the claimed records cover the request
    && (r.Ok? ==>
          && r.value == claimed
          && AllSameTokenAs(requested, claimed)
          && Total(claimed) >= requested.quantity)
    // insufficient balance: every claimable record was claimed, yet they fall short
    // (the flags after the call are stated by `SelectFrom` and `SelectTokens`, not here)
    && (r == Err(InsufficientBalance) ==>
          && AllSameTokenAs(requested, claimed)
          && Total(claimed) < requested.quantity
          && Claimable(s, p) <= set t | t in claimed)
    // the addition of the last claimed record threw; it counts among the claimed records
    && (r.Err? && r.error.AmountRejected? ==>
          && claimed != []
          && AllSameTokenAs(requested, claimed[..|claimed| - 1])
          && Total(claimed[..|claimed| - 1]) <= LONG_MAX
          && Plus(requested.(quantity := Total(claimed[..|claimed| - 1])), claimed[|claimed| - 1].data.amount)
               == Err(r.error.cause))
  }

  /** The quantities of a set of records added up, peeling off one record at a time. */
  ghost function SetTotal(ts: set<StateAndRef>): nat
    decreases ts
  {
    if ts == {} then 0 else var t :| t in ts; t.data.amount.quantity + SetTotal(ts - {t})
  }

  /** Any record of the set can be the one peeled off first. */
  lemma {:induction false} SetTotalRemove(ts: set<StateAndRef>, u: StateAndRef)
    requires u in ts
    ensures SetTotal(ts) == u.data.amount.quantity + SetTotal(ts - {u})
    decreases ts
  {
    var t :| t in ts && SetTotal(ts) == t.data.amount.quantity + SetTotal(ts - {t});
    if t != u {
      SetTotalRemove(ts - {t}, u);
      SetTotalRemove(ts - {u}, t);
      assert ts - {t} - {u} == ts - {u} - {t};
    }
  }

  /** Distinct records drawn from a set total at most the set's total. */
  lemma {:induction false} SubTotal(ts: seq<StateAndRef>, pool: set<StateAndRef>)
    requires Distinct(ts)
    requires forall t :: t in ts ==> t in pool
    ensures Total(ts) <= SetTotal(pool)
    decreases |ts|
  {
    if ts != [] {
      var init, last := ts[..|ts| - 1], ts[|ts| - 1];
      assert forall i :: 0 <= i < |init| ==> init[i] == ts[i];
      SubTotal(init, pool - {last});
      SetTotalRemove(pool, last);
    }
  }

  /**
   * Scarcity: when the free records the predicate accepts total less than the request, a selection
   * does not succeed; when they all carry the requested token, it reports insufficient balance.
   */
  lemma ScarceSelectionFails(s: TokenSet, p: Option<StateAndRef -> bool>, requested: Amount<IssuedTokenType>,
                             r: Result<seq<StateAndRef>, SelectionError>, claimed: seq<StateAndRef>)
    requires SelectionSpec(s, p, requested, r, claimed)
    requires SetTotal(Claimable(s, p)) < requested.quantity
    ensures !r.Ok?
    ensures (forall t :: t in Claimable(s, p) ==> SameToken(requested, t.data.amount)) ==> r == Err(InsufficientBalance)
  {
    SubTotal(claimed, Claimable(s, p));
  }

  /** The bookkeeping of the walk: the records claimed so far, from the records visited so far. */
  ghost predicate ClaimedSoFar(s: TokenSet, p: Option<StateAndRef -> bool>, remaining: set<StateAndRef>,
                               locked: seq<StateAndRef>, current: TokenSet)
  {
    && remaining <= s.Keys
    && current == LockedAll(s, locked)
    && Distinct(locked)
    && (forall t :: t in locked ==> t in Claimable(s, p) && t !in remaining)
    && (forall t :: t in Claimable(s, p) && t !in remaining ==> t in locked)
  }

  /** The loop invariant of the walk: the bookkeeping, and the running total kept below the request. */
  ghost predicate WalkInvariant(s: TokenSet, p: Option<StateAndRef -> bool>, requested: Amount<IssuedTokenType>,
                                remaining: set<StateAndRef>, locked: seq<StateAndRef>, current: TokenSet,
                                amountLocked: Amount<IssuedTokenType>)
  {
    && ClaimedSoFar(s, p, remaining, locked, current)
    && AllSameTokenAs(requested, locked)
    && (forall j :: 1 <= j <= |locked| ==> Total(locked[..j]) < requested.quantity)
    && amountLocked.quantity == Total(locked)
    && SameToken(amountLocked, requested)
  }

  lemma WalkStart(s: TokenSet, p: Option<StateAndRef -> bool>, requested: Amount<IssuedTokenType>)
    ensures WalkInvariant(s, p, requested, s.Keys, [], s, requested.(quantity := 0))
  {
  }

  /** Visiting a record that is rejected or already locked claims nothing. */
  lemma SkipStep(s: TokenSet, p: Option<StateAndRef -> bool>, remaining: set<StateAndRef>,
                 locked: seq<StateAndRef>, current: TokenSet, t: StateAndRef)
    requires ClaimedSoFar(s, p, remaining, locked, current)
    requires t in remaining && !(Accepts(p, t) && t in current && !current[t])
    ensures ClaimedSoFar(s, p, remaining - {t}, locked, current)
  {
  }

  /** Winning the compare-and-set on a free, accepted record adds it to the claimed records. */
  lemma ClaimStep(s: TokenSet, p: Option<StateAndRef -> bool>, remaining: set<StateAndRef>,
                  locked: seq<StateAndRef>, current: TokenSet, t: StateAndRef)
    requires ClaimedSoFar(s, p, remaining, locked, current)
    requires t in remaining && Accepts(p, t) && t in current && !current[t]
    ensures ClaimedSoFar(s, p, remaining - {t}, locked + [t], current[t := true])
    ensures forall j :: 1 <= j <= |locked| ==> (locked + [t])[..j] == locked[..j]
    ensures (locked + [t])[..|locked|] == locked
  {
  }

  /** A claim whose running total stays below the request keeps the walk going. */
  lemma ContinueStep(s: TokenSet, p: Option<StateAndRef -> bool>, requested: Amount<IssuedTokenType>,
                     remaining: set<StateAndRef>, locked: seq<StateAndRef>, current: TokenSet,
                     amountLocked: Amount<IssuedTokenType>, t: StateAndRef, next: Amount<IssuedTokenType>)
    requires WalkInvariant(s, p, requested, remaining, locked, current, amountLocked)
    requires t in remaining && Accepts(p, t) && t in current && !current[t]
    requires Plus(amountLocked, t.data.amount) == Ok(next) && next.quantity < requested.quantity
    ensures WalkInvariant(s, p, requested, remaining - {t}, locked + [t], current[t := true], next)
  {
    ClaimStep(s, p, remaining, locked, current, t);
    var locked' := locked + [t];
    assert Total(locked') == Total(locked) + t.data.amount.quantity;
    assert locked'[..|locked'|] == locked';
  }

  /** A claim whose running total reaches the request ends the walk with success. */
  lemma EnoughExit(s: TokenSet, p: Option<StateAndRef -> bool>, requested: Amount<IssuedTokenType>,
                   remaining: set<StateAndRef>, locked: seq<StateAndRef>, current: TokenSet,
                   amountLocked: Amount<IssuedTokenType>, t: StateAndRef, next: Amount<IssuedTokenType>)
    requires WalkInvariant(s, p, requested, remaining, locked, current, amountLocked)
    requires t in remaining && Accepts(p, t) && t in current && !current[t]
    requires Plus(amountLocked, t.data.amount) == Ok(next) && next.quantity >= requested.quantity
    ensures SelectionSpec(s, p, requested, Ok(locked + [t]), locked + [t])
    ensures current[t := true] == LockedAll(s, locked + [t])
  {
    ClaimStep(s, p, remaining, locked, current, t);
    assert Total(locked + [t]) == Total(locked) + t.data.amount.quantity;
  }

  /** A claim whose amount cannot be added to the running total ends the walk with that error. */
  lemma RejectExit(s: TokenSet, p: Option<StateAndRef -> bool>, requested: Amount<IssuedTokenType>,
                   remaining: set<StateAndRef>, locked: seq<StateAndRef>, current: TokenSet,
                   amountLocked: Amount<IssuedTokenType>, t: StateAndRef)
    requires WalkInvariant(s, p, requested, remaining, locked, current, amountLocked)
    requires t in remaining && Accepts(p, t) && t in current && !current[t]
    requires Plus(amountLocked, t.data.amount).Err?
    ensures SelectionSpec(s, p, requested, Err(AmountRejected(Plus(amountLocked, t.data.amount).error)), locked + [t])
    ensures current[t := true] == LockedAll(s, locked + [t])
  {
    ClaimStep(s, p, remaining, locked, current, t);
    var locked' := locked + [t];
    assert locked'[..|locked'| - 1] == locked;
    assert amountLocked == requested.(quantity := Total(locked));
    if |locked| > 0 {
      assert locked[..|locked|] == locked;
    }
  }

  /** A walk that visited every record without reaching the request reports insufficient balance. */
  lemma ExhaustedExit(s: TokenSet, p: Option<StateAndRef -> bool>, requested: Amount<IssuedTokenType>,
                      locked: seq<StateAndRef>, current: TokenSet, amountLocked: Amount<IssuedTokenType>)
    requires WalkInvariant(s, p, requested, {}, locked, current, amountLocked)
    ensures amountLocked.quantity < requested.quantity ==> SelectionSpec(s, p, requested, Err(InsufficientBalance), locked)
    ensures amountLocked.quantity >= requested.quantity ==> SelectionSpec(s, p, requested, Ok(locked), locked)
  {
  }

  /**
   * The claim loop of `selectTokens` over the records `s` read at the start: records the predicate
   * rejects are skipped, free ones are locked by a compare-and-set and their amounts added to the
   * running total, and the walk stops once the total reaches the request. `after` is `s` with the
   * claimed records locked.
   */
  method SelectFrom(s: TokenSet, amountRequested: Amount<IssuedTokenType>, tokenPredicate: Option<StateAndRef -> bool>)
    returns (r: Result<seq<StateAndRef>, SelectionError>, lockedTokens: seq<StateAndRef>, after: TokenSet)
    ensures SelectionSpec(s, tokenPredicate, amountRequested, r, lockedTokens)
    ensures after == LockedAll(s, lockedTokens)
  {
    lockedTokens := [];
    after := s;
    var amountLocked := amountRequested.(quantity := 0);
    var remaining := s.Keys;
    WalkStart(s, tokenPredicate, amountRequested);
    while remaining != {}
      invariant WalkInvariant(s, tokenPredicate, amountRequested, remaining, lockedTokens, after, amountLocked)
      decreases remaining
    {
      var t :| t in remaining;
      var won := false;
      if Accepts(tokenPredicate, t) {
        // race to lock the record: replace(t, false, true)
        won := t in after && !after[t];
      }
      if !won {
        SkipStep(s, tokenPredicate, remaining, lockedTokens, after, t);
        remaining := remaining - {t};
        continue;
      }
      var sum := Plus(amountLocked, t.data.amount);
      if sum.Err? {
        // `amountLocked += ...` throws with the record already locked
        RejectExit(s, tokenPredicate, amountRequested, remaining, lockedTokens, after, amountLocked, t);
        r, lockedTokens, after := Err(AmountRejected(sum.error)), lockedTokens + [t], after[t := true];
        return;
      }
      var enough := AtLeast(sum.value, amountRequested);
      if enough.value {
        // `break`: the check after the loop then passes and the claimed records are returned
        EnoughExit(s, tokenPredicate, amountRequested, remaining, lockedTokens, after, amountLocked, t, sum.value);
        r, lockedTokens, after := Ok(lockedTokens + [t]), lockedTokens + [t], after[t := true];
        return;
      }
      ContinueStep(s, tokenPredicate, amountRequested, remaining, lockedTokens, after, amountLocked, t, sum.value);
      remaining, lockedTokens, after, amountLocked := remaining - {t}, lockedTokens + [t], after[t := true], sum.value;
    }
    ExhaustedExit(s, tokenPredicate, amountRequested, lockedTokens, after, amountLocked);
    var enough := AtLeast(amountLocked, amountRequested);
    if !enough.value {
      r := Err(InsufficientBalance);
    } else {
      r := Ok(lockedTokens);
    }
  }

  // ---------------------------------------------------------------------------------------------
  // The service
  // ---------------------------------------------------------------------------------------------

  class VaultWatcherService {
    var cache: Cache

    ghost predicate Valid()
      reads this
    {
      WellKeyed(cache)
    }

    /** The start-up load: every record of the vault snapshot is added in order. */
    constructor (existingStates: seq<StateAndRef>)
      ensures Valid()
      ensures cache == AddAll(map[], existingStates)
    {
      cache := map[];
      new;
      var i := 0;
      while i < |existingStates|
        invariant 0 <= i <= |existingStates|
        invariant Valid()
        invariant cache == AddAll(map[], existingStates[..i])
      {
        var _ := AddTokenToCache(existingStates[i]);
        assert existingStates[..i + 1][..i] == existingStates[..i];
        i := i + 1;
      }
      assert existingStates[..i] == existingStates;
    }

    /** `getTokenSet`: the records under the key, after creating any missing map on the way. */
    method GetTokenSet(owner: PublicKey, tokenClass: TokenClass, tokenIdentifier: string) returns (s: TokenSet)
      requires Valid()
      modifies this
      ensures Valid()
      ensures cache == EnsurePath(old(cache), TokenKey(owner, tokenClass, tokenIdentifier))
      ensures s == Lookup(old(cache), TokenKey(owner, tokenClass, tokenIdentifier))
    {
      ghost var k := TokenKey(owner, tokenClass, tokenIdentifier);
      var byClass := if owner in cache then cache[owner] else map[];
      var byId := if tokenClass in byClass then byClass[tokenClass] else map[];
      s := if tokenIdentifier in byId then byId[tokenIdentifier] else map[];
      cache := cache[owner := byClass[tokenClass := byId[tokenIdentifier := s]]];
      assert s == Lookup(old(cache), k);
      PutKeepsWellKeyed(old(cache), k, s);
    }

    /** Write the records under `k` back into the (existing) nested maps. */
    method StoreTokenSet(k: TokenKey, s: TokenSet)
      requires Valid()
      requires HasPath(cache, k)
      requires forall t :: t in s ==> KeyOf(t) == k
      modifies this
      ensures Valid()
      ensures cache == Put(old(cache), k, s)
    {
      PutKeepsWellKeyed(cache, k, s);
      var byClass := cache[k.owner];
      var byId := byClass[k.tokenClass];
      cache := cache[k.owner := byClass[k.tokenClass := byId[k.tokenIdentifier := s]]];
    }

    /**
     * `addTokenToCache`: store the record free unless it is already present; `warned` tells whether
     * the "attempted to overwrite" warning is logged.
     */
    method AddTokenToCache(t: StateAndRef) returns (warned: bool)
      requires Valid()
      modifies this
      ensures Valid()
      ensures cache == Added(old(cache), t)
      ensures warned <==> t in Lookup(old(cache), KeyOf(t))
    {
      var k := ProcessToken(t.data);
      var tokensForTypeInfo := GetTokenSet(k.owner, k.tokenClass, k.tokenIdentifier);
      warned := t in tokensForTypeInfo;
      if !warned {
        StoreTokenSet(k, tokensForTypeInfo[t := false]);
      }
      PutPut(old(cache), k, tokensForTypeInfo, if warned then tokensForTypeInfo else tokensForTypeInfo[t := false]);
      PutKeepsWellKeyed(old(cache), k, Lookup(cache, k));
    }

    /**
     * `removeTokenFromCache`: delete the record; `warned` tells whether the warning is logged, which
     * happens unless the removed record was present and locked.
     */
    method RemoveTokenFromCache(t: StateAndRef) returns (warned: bool)
      requires Valid()
      modifies this
      ensures Valid()
      ensures cache == Removed(old(cache), t)
      ensures warned <==> !(t in Lookup(old(cache), KeyOf(t)) && Lookup(old(cache), KeyOf(t))[t])
    {
      var k := ProcessToken(t.data);
      var tokenSet := GetTokenSet(k.owner, k.tokenClass, k.tokenIdentifier);
      var previous := if t in tokenSet then Some(tokenSet[t]) else None;
      StoreTokenSet(k, tokenSet - {t});
      warned := previous != Some(true);
      PutPut(old(cache), k, tokenSet, tokenSet - {t});
      PutKeepsWellKeyed(old(cache), k, tokenSet - {t});
    }

    /** `unlockToken`: set the flag back to free if, and only if, it is locked. */
    method UnlockToken(t: StateAndRef)
      requires Valid()
      modifies this
      ensures Valid()
      ensures cache == Unlocked(old(cache), t)
    {
      var k := ProcessToken(t.data);
      var tokensForTypeInfo := GetTokenSet(k.owner, k.tokenClass, k.tokenIdentifier);
      if t in tokensForTypeInfo && tokensForTypeInfo[t] {
        StoreTokenSet(k, tokensForTypeInfo[t := false]);
      }
      PutPut(old(cache), k, tokensForTypeInfo, Lookup(cache, k));
      PutKeepsWellKeyed(old(cache), k, Lookup(cache, k));
    }

    /** `onVaultUpdate`: remove every consumed record, then add every produced one. */
    method OnVaultUpdate(u: VaultUpdate)
      requires Valid()
      modifies this
      ensures Valid()
      ensures cache == Updated(old(cache), u)
    {
      var i := 0;
      while i < |u.consumed|
        invariant 0 <= i <= |u.consumed|
        invariant Valid()
        invariant cache == RemoveAll(old(cache), u.consumed[..i])
      {
        var _ := RemoveTokenFromCache(u.consumed[i]);
        assert u.consumed[..i + 1][..i] == u.consumed[..i];
        i := i + 1;
      }
      assert u.consumed[..i] == u.consumed;
      ghost var afterRemoval := cache;
      var j := 0;
      while j < |u.produced|
        invariant 0 <= j <= |u.produced|
        invariant Valid()
        invariant cache == AddAll(afterRemoval, u.produced[..j])
      {
        var _ := AddTokenToCache(u.produced[j]);
        assert u.produced[..j + 1][..j] == u.produced[..j];
        j := j + 1;
      }
      assert u.produced[..j] == u.produced;
    }

    /**
     * `selectTokens`: claim records under the request's key (see `SelectFrom`) and leave the ones
     * claimed locked in the cache. `claimed` is the sequence of records this call locked, in order;
     * on success it is the returned list.
     */
    method SelectTokens(owner: PublicKey, amountRequested: Amount<IssuedTokenType>, tokenPredicate: Option<StateAndRef -> bool>)
      returns (r: Result<seq<StateAndRef>, SelectionError>, ghost claimed: seq<StateAndRef>)
      requires Valid()
      modifies this
      ensures Valid()
      ensures SelectionSpec(Lookup(old(cache), RequestKey(owner, amountRequested)), tokenPredicate, amountRequested, r, claimed)
      ensures cache == Put(old(cache), RequestKey(owner, amountRequested),
                           LockedAll(Lookup(old(cache), RequestKey(owner, amountRequested)), claimed))
    {
      var k := RequestKey(owner, amountRequested);
      var tokenSet := GetTokenSet(owner, k.tokenClass, k.tokenIdentifier);
      var lockedTokens, after;
      r, lockedTokens, after := SelectFrom(tokenSet, amountRequested, tokenPredicate);
      StoreTokenSet(k, after);
      claimed := lockedTokens;
      PutPut(old(cache), k, tokenSet, after);
      PutKeepsWellKeyed(old(cache), k, after);
    }
  }
}
