/**
 * The admin credential store of the backend: the allow-list parsed from
 * `ADMIN_WALLETS`, the `challenges` and `sessions` maps, signature login,
 * the bearer-token guard and the periodic sweep.
 *
 * Signer recovery (EIP-191 personal-message recovery) is an uninterpreted
 * function `recover` that yields None where the library throws; random
 * nonces and tokens, and the clock, are parameters.
 */
module AdminAuth {
  import opened Wrappers
  import opened Text

  /** 24 hours in milliseconds: the session lifetime used by the guard and the sweep. */
  const SessionTtl: int := 24 * 60 * 60 * 1000
  /** 5 minutes in milliseconds: the challenge lifetime used by the sweep. */
  const ChallengeTtl: int := 5 * 60 * 1000

  datatype Session = Session(address: String, createdAt: int)
  datatype Challenge = Challenge(message: String, createdAt: int)
  datatype ChallengeReply = ChallengeReply(nonce: String, message: String)
  datatype Login = Login(token: String, address: String)
  datatype GuardResult = Admit(adminAddress: String) | Deny(status: int, error: String)

  /** Signer recovery: None stands for the exception thrown on a malformed signature. */
  type Recover = (String, String) -> Option<String>

  // ---------------------------------------------------------------------------
  // allow-list

  /** An allow-list entry: non-empty, without surrounding whitespace, lower-case. */
  predicate Normalized(a: String) {
    a != [] && Trim(a) == a && IsLower(a)
  }

  /** `a.trim().toLowerCase()`: the result is already trimmed and lower-case. */
  function NormalizeAddress(a: String): String {
    ToLower(Trim(a))
  }

  /** A non-empty normalised address is a valid allow-list entry. */
  lemma NormalizeAddressNormalized(a: String)
    ensures NormalizeAddress(a) != [] ==> Normalized(NormalizeAddress(a))
  {
    TrimOfLowerTrimmed(a);
    ToLowerIsLower(Trim(a));
  }

  /** `.map(a => a.trim().toLowerCase()).filter(Boolean)` over the comma-separated segments. */
  function NormalizeSegments(segments: seq<String>): (r: seq<String>)
    ensures forall a :: a in r ==> Normalized(a)
  {
    if segments == [] then []
    else
      var a := NormalizeAddress(segments[0]);
      NormalizeAddressNormalized(segments[0]);
      var rest := NormalizeSegments(segments[1..]);
      if a == [] then rest else [a] + rest
  }

  /** A normalised entry is listed exactly when some segment normalises to it and it is not empty. */
  lemma {:induction false} NormalizeSegmentsMembers(segments: seq<String>, a: String)
    ensures a in NormalizeSegments(segments) <==> a != [] && exists seg :: seg in segments && a == NormalizeAddress(seg)
  {
    if segments != [] {
      NormalizeSegmentsMembers(segments[1..], a);
      assert forall seg :: seg in segments <==> seg == segments[0] || seg in segments[1..];
    }
  }

  /**
   * `raw.split(',').map(a => a.trim().toLowerCase()).filter(Boolean)`, where
   * `raw` is `process.env.ADMIN_WALLETS || ''`.
   */
  function ParseAdminWallets(raw: String): seq<String> {
    NormalizeSegments(Split(raw, ','))
  }

  /**
   * An address is allow-listed exactly when some comma-separated segment
   * normalises to it and it is not empty.
   */
  lemma AllowListEntries(raw: String, a: String)
    ensures a in ParseAdminWallets(raw) <==>
      a != [] && exists seg :: seg in Split(raw, ',') && a == NormalizeAddress(seg)
  {
    NormalizeSegmentsMembers(Split(raw, ','), a);
  }

  /** Every allow-list entry is non-empty, trimmed and lower-case. */
  lemma AllowListNormalized(raw: String, a: String)
    requires a in ParseAdminWallets(raw)
    ensures Normalized(a)
  {
  }

  /** An unset (or empty) `ADMIN_WALLETS` gives the empty allow-list. */
  lemma UnsetAllowListIsEmpty()
    ensures ParseAdminWallets([]) == []
  {
    var segments := Split([], ',');
    assert segments == [[]];
    assert segments[1..] == [];
    assert NormalizeAddress(segments[0]) == [];
  }

  /** An unset allow-list admits no signer at all. */
  lemma UnsetAllowListAdmitsNobody(recovered: String)
    ensures LoginAddress(ParseAdminWallets([]), Some(recovered)) == None
  {
    UnsetAllowListIsEmpty();
  }

  // ---------------------------------------------------------------------------
  // pure specifications of the store operations

  const Greeting: String := "Sign this message to authenticate as admin."

  function NonceLine(nonce: String): String {
    "Nonce: " + nonce
  }

  function TimestampLine(timestamp: int): String {
    "Timestamp: " + IntToString(timestamp)
  }

  /** The challenge text, embedding the nonce and the issuance time: three lines. */
  function ChallengeMessage(nonce: String, timestamp: int): String {
    Greeting + "\n" + NonceLine(nonce) + "\n" + TimestampLine(timestamp)
  }

  lemma GreetingOneLine()
    ensures '\n' !in Greeting
  {
  }

  /** The nonce stands on the second line of the challenge text (hex nonces hold no newline). */
  lemma ChallengeMessageLines(nonce: String, timestamp: int)
    requires '\n' !in nonce
    ensures Split(ChallengeMessage(nonce, timestamp), '\n') == [Greeting, NonceLine(nonce), TimestampLine(timestamp)]
  {
    var l1 := NonceLine(nonce);
    var d := IntToString(timestamp);
    var l2 := TimestampLine(timestamp);
    assert ChallengeMessage(nonce, timestamp) == Greeting + ['\n'] + (l1 + ['\n'] + l2);
    GreetingOneLine();
    assert '\n' !in l1;
    assert '\n' !in l2 by {
      assert forall i :: 0 <= i < |d| ==> d[i] != '\n';
    }
    SplitNoSeparator(l2, '\n');
    SplitAfterFirst(l1, '\n', l2);
    SplitAfterFirst(Greeting, '\n', l1 + ['\n'] + l2);
  }

  /** The address a signature logs in as, if any: the lower-cased signer, when it is allow-listed. */
  function LoginAddress(adminWallets: seq<String>, recovered: Option<String>): (r: Option<String>)
    ensures r.Some? <==> recovered.Some? && ToLower(recovered.value) in adminWallets
    ensures r.Some? ==> r.value == ToLower(recovered.value) && r.value in adminWallets
  {
    match recovered
    case None => None
    case Some(signer) => if ToLower(signer) in adminWallets then Some(ToLower(signer)) else None
  }

  /** `req.headers.authorization?.replace('Bearer ', '')`. */
  function BearerToken(authorization: Option<String>): Option<String> {
    match authorization
    case None => None
    case Some(h) => Some(ReplaceFirst(h, "Bearer ", []))
  }

  /** A `Bearer <token>` header yields exactly that token. */
  lemma BearerTokenRoundTrip(token: String)
    ensures BearerToken(Some("Bearer " + token)) == Some(token)
  {
    ReplacePrefix("Bearer ", token);
  }

  /** Whether a session is still accepted at `now`: an age of exactly 24 h is still accepted. */
  predicate Live(s: Session, now: int) {
    now - s.createdAt <= SessionTtl
  }

  /** The guard's decision and the sessions it leaves behind. */
  function Guard(sessions: map<String, Session>, authorization: Option<String>, now: int): (r: (GuardResult, map<String, Session>))
    ensures r.0.Admit? <==>
      (Truthy(BearerToken(authorization)) && BearerToken(authorization).value in sessions
       && Live(sessions[BearerToken(authorization).value], now))
    ensures r.0.Admit? ==> r.0.adminAddress == sessions[BearerToken(authorization).value].address && r.1 == sessions
    ensures r.0.Deny? ==> r.0.status == 401
    ensures r.0 == Deny(401, "Session expired") ==>
      Truthy(BearerToken(authorization)) && r.1 == sessions - {BearerToken(authorization).value}
    ensures r.0.Deny? && r.0 != Deny(401, "Session expired") ==> r.0 == Deny(401, "Unauthorized") && r.1 == sessions
  {
    var token := BearerToken(authorization);
    if !Truthy(token) || token.value !in sessions then (Deny(401, "Unauthorized"), sessions)
    else if !Live(sessions[token.value], now) then (Deny(401, "Session expired"), sessions - {token.value})
    else (Admit(sessions[token.value].address), sessions)
  }

  /** Sessions the sweep keeps: those not older than 24 h. */
  function SweepSessions(sessions: map<String, Session>, now: int): (r: map<String, Session>)
    ensures forall t :: t in r <==> t in sessions && Live(sessions[t], now)
    ensures forall t :: t in r ==> r[t] == sessions[t]
  {
    map t | t in sessions && Live(sessions[t], now) :: sessions[t]
  }

  /** Challenges the sweep keeps: those not older than 5 minutes. */
  function SweepChallenges(challenges: map<String, Challenge>, now: int): (r: map<String, Challenge>)
    ensures forall n :: n in r <==> n in challenges && now - challenges[n].createdAt <= ChallengeTtl
    ensures forall n :: n in r ==> r[n] == challenges[n]
  {
    map n | n in challenges && now - challenges[n].createdAt <= ChallengeTtl :: challenges[n]
  }

  /**
   * Lazy expiry in the guard and periodic expiry in the sweep agree: after a
   * sweep at time `swept`, the guard admits at any later time exactly the
   * requests it would have admitted without the sweep, as the same admin.
   */
  lemma SweepAgreesWithGuard(sessions: map<String, Session>, authorization: Option<String>, swept: int, now: int)
    requires swept <= now
    ensures Guard(SweepSessions(sessions, swept), authorization, now).0 == Guard(sessions, authorization, now).0
      || (Guard(sessions, authorization, now).0 == Deny(401, "Session expired")
          && Guard(SweepSessions(sessions, swept), authorization, now).0 == Deny(401, "Unauthorized"))
  {
  }

  /**
   * A token handed out by a successful login is accepted by the guard, as
   * that admin, for 24 hours and rejected as expired afterwards.
   */
  lemma LoginThenGuard(sessions: map<String, Session>, token: String, address: String, createdAt: int, now: int)
    requires token != []
    ensures var after := sessions[token := Session(address, createdAt)];
      var g := Guard(after, Some("Bearer " + token), now).0;
      (createdAt <= now <= createdAt + SessionTtl ==> g == Admit(address))
      && (now > createdAt + SessionTtl ==> g == Deny(401, "Session expired"))
  {
    BearerTokenRoundTrip(token);
  }

  // ---------------------------------------------------------------------------
  // the store

  class Store {
    /** `ADMIN_WALLETS`, parsed once at start-up. */
    const adminWallets: seq<String>
    var sessions: map<String, Session>
    var challenges: map<String, Challenge>

    constructor (wallets: seq<String>)
      ensures adminWallets == wallets
      ensures sessions == map[] && challenges == map[]
    {
      adminWallets := wallets;
      sessions := map[];
      challenges := map[];
    }

    /**
     * `generateChallenge`: stores the message under its nonce and returns both.
     * The message reads the clock once (`stampedAt`) and the stored record
     * reads it again (`now`).
     */
    method GenerateChallenge(nonce: String, stampedAt: int, now: int) returns (c: ChallengeReply)
      modifies this
      ensures c == ChallengeReply(nonce, ChallengeMessage(nonce, stampedAt))
      ensures challenges == old(challenges)[nonce := Challenge(c.message, now)]
      ensures sessions == old(sessions)
    {
      var message := ChallengeMessage(nonce, stampedAt);
      challenges := challenges[nonce := Challenge(message, now)];
      c := ChallengeReply(nonce, message);
    }

    /**
     * `verifySignatureAndCreateSession(message, signature)`: logs the
     * recovered signer in when it is allow-listed. The challenge map is never
     * read, so no nonce is checked or consumed.
     */
    method VerifySignatureAndCreateSession(message: String, signature: String, recover: Recover, freshToken: String, now: int)
      returns (r: Option<Login>)
      modifies this
      ensures r.Some? <==> LoginAddress(adminWallets, recover(message, signature)).Some?
      ensures r.Some? ==> r.value == Login(freshToken, LoginAddress(adminWallets, recover(message, signature)).value)
      ensures r.Some? ==> sessions == old(sessions)[freshToken := Session(r.value.address, now)]
      ensures r.None? ==> sessions == old(sessions)
      ensures challenges == old(challenges)
    {
      var recovered := recover(message, signature);
      if recovered.None? {
        return None;
      }
      var address := ToLower(recovered.value);
      if address !in adminWallets {
        return None;
      }
      sessions := sessions[freshToken := Session(address, now)];
      r := Some(Login(freshToken, address));
    }

    /** `verifySession`: the bearer-token guard in front of every protected admin route. */
    method VerifySession(authorization: Option<String>, now: int) returns (g: GuardResult)
      modifies this
      ensures (g, sessions) == Guard(old(sessions), authorization, now)
      ensures challenges == old(challenges)
    {
      var token := BearerToken(authorization);
      if !Truthy(token) || token.value !in sessions {
        return Deny(401, "Unauthorized");
      }
      var session := sessions[token.value];
      if now - session.createdAt > SessionTtl {
        sessions := sessions - {token.value};
        return Deny(401, "Session expired");
      }
      g := Admit(session.address);
    }

    /** The 5-minute timer: deletes sessions older than 24 h and challenges older than 5 minutes. */
    method Sweep(now: int)
      modifies this
      ensures sessions == SweepSessions(old(sessions), now)
      ensures challenges == SweepChallenges(old(challenges), now)
    {
      var tokens := sessions.Keys;
      while tokens != {}
        invariant tokens <= old(sessions).Keys
        invariant challenges == old(challenges)
        invariant forall t :: t in sessions <==> t in old(sessions) && (t in tokens || Live(old(sessions)[t], now))
        invariant forall t :: t in sessions ==> sessions[t] == old(sessions)[t]
        decreases tokens
      {
        var t :| t in tokens;
        if now - sessions[t].createdAt > SessionTtl {
          sessions := sessions - {t};
        }
        tokens := tokens - {t};
      }
      var nonces := challenges.Keys;
      while nonces != {}
        invariant nonces <= old(challenges).Keys
        invariant sessions == SweepSessions(old(sessions), now)
        invariant forall n :: n in challenges <==>
          n in old(challenges) && (n in nonces || now - old(challenges)[n].createdAt <= ChallengeTtl)
        invariant forall n :: n in challenges ==> challenges[n] == old(challenges)[n]
        decreases nonces
      {
        var n :| n in nonces;
        if now - challenges[n].createdAt > ChallengeTtl {
          challenges := challenges - {n};
        }
        nonces := nonces - {n};
      }
    }
  }

  /** Module load: the allow-list is read from `ADMIN_WALLETS` and both maps start empty. */
  method Load(env: Option<String>) returns (store: Store)
    ensures fresh(store)
    ensures store.adminWallets == ParseAdminWallets(env.GetOr([]))
    ensures store.sessions == map[] && store.challenges == map[]
  {
    store := new Store(ParseAdminWallets(env.GetOr([])));
  }
}
