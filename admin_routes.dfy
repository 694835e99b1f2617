/**
 * The admin router's login endpoints behind their own rate limiter, the
 * contract-address format check and collection creation.
 */
module AdminRoutes {
  import opened Wrappers
  import opened Text
  import opened AdminAuth
  import opened RateLimit
  import opened Records

  // ---------------------------------------------------------------------------
  // login endpoints

  const AuthWindowMs: int := 15 * 60 * 1000
  const AuthMaxAttempts: int := 10

  /** `authRateLimit`'s policy, kept in its own `authAttempts` map. */
  const AuthAttempts: Policy := Policy(AuthWindowMs, AuthMaxAttempts)

  const TooManyAuthAttempts: String := "Too many auth attempts. Try again later."

  /**
   * `GET /auth/challenge`: counted against the client's login budget, then
   * a fresh challenge is stored and returned.
   */
  method AuthChallenge(limiter: FixedWindowLimiter, store: Store, client: ClientKey, nonce: String, stampedAt: int, now: int)
    returns (r: Reply<ChallengeReply>)
    requires limiter.policy == AuthAttempts
    modifies limiter, store
    ensures var s := Next(AuthAttempts, old(limiter.entries), client, now);
      && limiter.entries == s.entries
      && (s.decision.Reject? ==> r == Fail(429, TooManyAuthAttempts) && store.challenges == old(store.challenges))
      && (s.decision.Allow? ==>
            r == Ok(ChallengeReply(nonce, ChallengeMessage(nonce, stampedAt)))
            && store.challenges == old(store.challenges)[nonce := Challenge(r.value.message, now)])
    ensures store.sessions == old(store.sessions)
  {
    var d := limiter.Hit(client, now);
    if d.Reject? {
      return Fail(429, TooManyAuthAttempts);
    }
    var c := store.GenerateChallenge(nonce, stampedAt, now);
    r := Ok(c);
  }

  /**
   * `POST /auth/verify`: counted against the same budget; then 400 without
   * a message or a signature, 403 when the signer is not an allowed admin,
   * and the new session's token otherwise. The body's `address` is accepted
   * and never used.
   */
  method AuthVerify(limiter: FixedWindowLimiter, store: Store, client: ClientKey,
                    message: Option<String>, signature: Option<String>, address: Option<String>,
                    recover: Recover, freshToken: String, now: int)
    returns (r: Reply<Login>)
    requires limiter.policy == AuthAttempts
    modifies limiter, store
    ensures var s := Next(AuthAttempts, old(limiter.entries), client, now);
      && limiter.entries == s.entries
      && (s.decision.Reject? ==> r == Fail(429, TooManyAuthAttempts))
      && (s.decision.Allow? && !(Truthy(message) && Truthy(signature)) ==>
            r == Fail(400, "message and signature are required"))
      && (s.decision.Allow? && Truthy(message) && Truthy(signature)
          && LoginAddress(store.adminWallets, recover(message.value, signature.value)).None? ==>
            r == Fail(403, "Not an authorized admin wallet"))
    ensures r.Ok? <==>
      Next(AuthAttempts, old(limiter.entries), client, now).decision.Allow?
      && Truthy(message) && Truthy(signature)
      && LoginAddress(store.adminWallets, recover(message.value, signature.value)).Some?
    ensures r.Ok? ==>
      r.value == Login(freshToken, LoginAddress(store.adminWallets, recover(message.value, signature.value)).value)
      && store.sessions == old(store.sessions)[freshToken := Session(r.value.address, now)]
    ensures r.Fail? && r.status != 403 ==> store.sessions == old(store.sessions)
    ensures r.Fail? && r.status == 403 ==> r.error == "Not an authorized admin wallet" && store.sessions == old(store.sessions)
    ensures store.challenges == old(store.challenges)
  {
    var d := limiter.Hit(client, now);
    if d.Reject? {
      return Fail(429, TooManyAuthAttempts);
    }
    if !Truthy(message) || !Truthy(signature) {
      return Fail(400, "message and signature are required");
    }
    var login := store.VerifySignatureAndCreateSession(message.value, signature.value, recover, freshToken, now);
    if login.None? {
      return Fail(403, "Not an authorized admin wallet");
    }
    r := Ok(login.value);
  }

  // ---------------------------------------------------------------------------
  // address format

  /** `/^0x[a-fA-F0-9]{40}$/`: "0x" and forty hex digits of either case, without any checksum test. */
  predicate IsValidAddress(addr: String) {
    |addr| == 42 && addr[0] == '0' && addr[1] == 'x' && forall i :: 2 <= i < 42 ==> IsHexDigit(addr[i])
  }

  /** An address is valid exactly when it is "0x" followed by forty hex digits. */
  lemma ValidAddressShape(addr: String)
    ensures IsValidAddress(addr) <==>
      exists digits :: |digits| == 40 && (forall i :: 0 <= i < 40 ==> IsHexDigit(digits[i])) && addr == "0x" + digits
  {
    if IsValidAddress(addr) {
      var digits := addr[2..];
      assert addr == "0x" + digits;
    }
  }

  /** Case is not checked: lower-casing a valid address keeps it valid (upper-case "0X" never was). */
  lemma ValidAddressIgnoresCase(addr: String)
    requires IsValidAddress(addr)
    ensures IsValidAddress(ToLower(addr))
  {
    var l := ToLower(addr);
    forall i | 2 <= i < 42 ensures IsHexDigit(l[i]) {
      assert l[i] == LowerChar(addr[i]);
    }
  }

  // ---------------------------------------------------------------------------
  // collections

  const SupportedChains: seq<int> := [137, 8453, 42161]
  const DefaultChainId: int := 137

  /** `Unsupported chain. Supported: ${SUPPORTED_CHAINS.join(', ')}`. */
  function UnsupportedChainMessage(): String {
    "Unsupported chain. Supported: " + Join([IntToString(137), IntToString(8453), IntToString(42161)], ", ")
  }

  /** JavaScript truthiness of an optional number: absent and 0 are falsy. */
  predicate NumberTruthy(n: Option<int>) {
    n.Some? && n.value != 0
  }

  /** Every collection sits on a supported chain. */
  predicate ChainsSupported(db: Db) {
    forall c :: c in db.collections ==> c.chainId in SupportedChains
  }

  /**
   * `POST /collections`: name and address required, the address well
   * formed, a given chain id supported; an absent or zero chain id is
   * stored as 137. The new record gets the id `freshId`.
   */
  function CreateCollection(db: Db, name: Option<String>, contractAddress: Option<String>, chainId: Option<int>, freshId: String)
    : (r: (Reply<Collection>, Db))
    ensures r.0.Ok? <==>
      Truthy(name) && Truthy(contractAddress) && IsValidAddress(contractAddress.value)
      && (NumberTruthy(chainId) ==> chainId.value in SupportedChains)
    ensures r.0.Ok? ==> r.0.value.chainId in SupportedChains
    ensures r.0.Ok? ==> r.0.value.chainId == (if NumberTruthy(chainId) then chainId.value else DefaultChainId)
    ensures r.0.Ok? ==> r.0.value == Collection(freshId, name.value, contractAddress.value, r.0.value.chainId, true)
    ensures r.0.Ok? ==> r.1 == db.(collections := db.collections + [r.0.value])
    ensures r.0.Fail? ==> r.0.status == 400 && r.1 == db
    ensures (!Truthy(name) || !Truthy(contractAddress)) ==> r.0 == Fail(400, "name and contractAddress are required")
    ensures Truthy(name) && Truthy(contractAddress) && !IsValidAddress(contractAddress.value) ==>
      r.0 == Fail(400, "Invalid contract address format")
    ensures (Truthy(name) && Truthy(contractAddress) && IsValidAddress(contractAddress.value)
             && NumberTruthy(chainId) && chainId.value !in SupportedChains) ==>
      r.0 == Fail(400, UnsupportedChainMessage())
    ensures ChainsSupported(db) ==> ChainsSupported(r.1)
  {
    if !Truthy(name) || !Truthy(contractAddress) then
      (Fail(400, "name and contractAddress are required"), db)
    else if !IsValidAddress(contractAddress.value) then
      (Fail(400, "Invalid contract address format"), db)
    else if NumberTruthy(chainId) && chainId.value !in SupportedChains then
      (Fail(400, UnsupportedChainMessage()), db)
    else
      var c := Collection(freshId, name.value, contractAddress.value,
        if NumberTruthy(chainId) then chainId.value else DefaultChainId, true);
      (Ok(c), db.(collections := db.collections + [c]))
  }

  /**
   * `GET /collections`: the active collections, newest first. Collections
   * are stored in the order they were created, so the newest is the last.
   */
  function ActiveCollections(collections: seq<Collection>): (r: seq<Collection>)
    ensures forall c :: c in r <==> c in collections && c.active
    ensures |r| <= |collections|
  {
    if collections == [] then []
    else
      var last := collections[|collections| - 1];
      (if last.active then [last] else []) + ActiveCollections(collections[..|collections| - 1])
  }

  /** A collection created after the others is listed ahead of all of them. */
  lemma ActiveCollectionsAppend(collections: seq<Collection>, c: Collection)
    ensures ActiveCollections(collections + [c]) == (if c.active then [c] else []) + ActiveCollections(collections)
  {
  }

  /** The collection just created heads the listing. */
  lemma CreatedCollectionListedFirst(db: Db, name: Option<String>, contractAddress: Option<String>, chainId: Option<int>, freshId: String)
    requires CreateCollection(db, name, contractAddress, chainId, freshId).0.Ok?
    ensures var r := CreateCollection(db, name, contractAddress, chainId, freshId);
      ActiveCollections(r.1.collections) == [r.0.value] + ActiveCollections(db.collections)
  {
    var r := CreateCollection(db, name, contractAddress, chainId, freshId);
    ActiveCollectionsAppend(db.collections, r.0.value);
  }
}
