/**
 * The admin app's `SocialShare` panel: the OpenSea item link and the texts
 * it offers for X, Bluesky and Instagram. Build-time variables
 * (`VITE_CHAIN_ID`, the brand handles, the service link) are a parameter;
 * `encodeURIComponent` is the parameter `encode`. The `copied` flag and
 * the markup are left to the UI.
 */
module SocialShare {
  import opened Wrappers
  import opened Text
  import opened Handles

  const DefaultContract: String := "0x398bf23a6f4b2a58e98744312084e2e4f6e71b2c"

  // ---------------------------------------------------------------------------
  // parseInt

  function DigitPrefix(s: String, hex: bool): (r: String)
    ensures |r| <= |s| && r == s[..|r|]
    ensures forall i :: 0 <= i < |r| ==> (if hex then IsHexDigit(r[i]) else IsDigit(r[i]))
    ensures |r| < |s| ==> !(if hex then IsHexDigit(s[|r|]) else IsDigit(s[|r|]))
  {
    if s != [] && (if hex then IsHexDigit(s[0]) else IsDigit(s[0])) then [s[0]] + DigitPrefix(s[1..], hex) else []
  }

  /** The digits after an optional sign: "0x"/"0X" selects hexadecimal; None when no digit follows. */
  function ParseUnsigned(u: String): (r: Option<nat>)
    ensures r.Some? ==> exists k :: 0 <= k < |u| && IsHexDigit(u[k])
  {
    var hex := |u| >= 2 && u[0] == '0' && (u[1] == 'x' || u[1] == 'X');
    var digits := DigitPrefix(if hex then u[2..] else u, hex);
    if digits == [] then None
    else if hex then
      assert IsHexDigit(u[2]);
      Some(ParseHex(digits))
    else
      assert IsHexDigit(u[0]);
      Some(ParseDecimal(digits))
  }

  /**
   * `parseInt(s)` without a radix: leading white space and one sign are
   * skipped, then `ParseUnsigned` reads the longest run of digits. None
   * stands for NaN (no digit at all).
   */
  function ParseInt(s: String): (r: Option<int>) {
    var t := TrimStart(s);
    if t != [] && t[0] == '-' then
      (var m := ParseUnsigned(t[1..]); if m.Some? then Some(-(m.value as int)) else None)
    else if t != [] && t[0] == '+' then
      (var m := ParseUnsigned(t[1..]); if m.Some? then Some(m.value as int) else None)
    else
      (var m := ParseUnsigned(t); if m.Some? then Some(m.value as int) else None)
  }

  /** A run of decimal digits is read whole, as a decimal number. */
  lemma ParseIntDigits(s: String)
    requires s != [] && forall i :: 0 <= i < |s| ==> IsDigit(s[i])
    ensures ParseInt(s) == Some(ParseDecimal(s))
  {
    assert !IsWhitespace(s[0]);
    TrimStartNoop(s);
    var digits := DigitPrefix(s, false);
    assert digits == s;
    assert !(|s| >= 2 && (s[1] == 'x' || s[1] == 'X'));
    assert ParseUnsigned(s) == Some(ParseDecimal(s));
  }

  /** Reading back the decimal rendering of a number gives the number. */
  lemma ParseIntDecimal(n: nat)
    ensures ParseInt(Decimal(n)) == Some(n)
  {
    ParseIntDigits(Decimal(n));
    DecimalRoundTrip(n);
  }

  /** `OPENSEA_CHAINS[chainId] || 'matic'`; NaN and unknown chains give "matic". */
  function OpenseaChain(chainId: Option<int>): (r: String)
    ensures chainId != Some(8453) && chainId != Some(42161) ==> r == "matic"
  {
    if chainId == Some(137) then "matic"
    else if chainId == Some(8453) then "base"
    else if chainId == Some(42161) then "arbitrum"
    else "matic"
  }

  /** `parseInt(VITE_CHAIN_ID || '137')`. */
  function ChainId(viteChainId: Option<String>): Option<int> {
    ParseInt(if Truthy(viteChainId) then viteChainId.value else "137")
  }

  /** An unset `VITE_CHAIN_ID` reads as 137, which links to OpenSea's "matic" pages. */
  lemma DefaultChainIsPolygon()
    ensures ChainId(None) == Some(137)
    ensures OpenseaChain(ChainId(None)) == "matic"
  {
    assert Decimal(137) == "137" by {
      assert Decimal(13) == "13";
    }
    ParseIntDecimal(137);
  }

  // ---------------------------------------------------------------------------
  // share texts

  /** The component's props; `contractAddress` None is `undefined`, which takes the default contract. */
  datatype Props = Props(
    comment: Option<String>, xHandle: Option<String>, instagramHandle: Option<String>, blueskyHandle: Option<String>,
    txHash: Option<String>, tokenId: Option<String>, contractAddress: Option<String>)

  /** `VITE_CHAIN_ID`, `VITE_TWITTER_HANDLE`, `VITE_BLUESKY_HANDLE`, `VITE_SERVICE_LINK`. */
  datatype Env = Env(chainId: Option<String>, twitterHandle: Option<String>, blueskyHandle: Option<String>, serviceLink: Option<String>)

  datatype View = View(openseaUrl: Option<String>, xText: String, xUrl: String, blueskyText: String, blueskyUrl: String, instaText: String)

  /** The OpenSea item page when both the token id and the contract are known; no fallback. */
  function OpenseaUrl(chain: String, contractAddress: Option<String>, tokenId: Option<String>): (r: Option<String>)
    ensures r.Some? <==> Truthy(tokenId) && Truthy(contractAddress)
    ensures r.Some? ==> r.value == "https://opensea.io/item/" + chain + "/" + contractAddress.value + "/" + tokenId.value
  {
    if Truthy(tokenId) && Truthy(contractAddress) then
      Some("https://opensea.io/item/" + chain + "/" + contractAddress.value + "/" + tokenId.value)
    else None
  }

  /** `[serviceLink, brand ? \`via ${brand}\` : ''].filter(Boolean).join(' ')`. */
  function Footer(serviceLink: String, brand: String): String {
    JoinTruthy([Some(serviceLink), Some(if brand != [] then "via " + brand else "")], " ")
  }

  /** The footer is empty when there is neither a service link nor a brand handle, is whichever one is present when only one is, and is the two joined by a space when both are. */
  lemma FooterShape(serviceLink: String, brand: String)
    ensures serviceLink == [] && brand == [] ==> Footer(serviceLink, brand) == []
    ensures serviceLink != [] && brand != [] ==> Footer(serviceLink, brand) == serviceLink + " " + ("via " + brand)
    ensures serviceLink != [] && brand == [] ==> Footer(serviceLink, brand) == serviceLink
    ensures serviceLink == [] && brand != [] ==> Footer(serviceLink, brand) == "via " + brand
  {
    var via := if brand != [] then "via " + brand else "";
    var parts := [Some(serviceLink), Some(via)];
    assert parts[1..] == [Some(via)];
    assert parts[1..][1..] == [];
    assert FilterTruthy(parts[1..]) == if via != [] then [via] else [];
    if serviceLink != [] && via != [] {
      assert Join([serviceLink, via], " ") == serviceLink + " " + Join([via], " ");
    }
  }

  function XParts(p: Props, env: Env, openseaUrl: Option<String>): seq<Option<String>> {
    [p.comment, Some(NormalizeHandle(p.xHandle)), openseaUrl,
     Some(Footer(env.serviceLink.GetOr([]), NormalizeHandle(env.twitterHandle)))]
  }

  function BlueskyParts(p: Props, env: Env, openseaUrl: Option<String>): seq<Option<String>> {
    [p.comment, Some(NormalizeHandle(p.blueskyHandle)), openseaUrl,
     Some(Footer(env.serviceLink.GetOr([]), NormalizeHandle(env.blueskyHandle)))]
  }

  function InstaParts(p: Props, env: Env, openseaUrl: Option<String>): seq<Option<String>> {
    [p.comment, Some(NormalizeHandle(p.instagramHandle)), Some("#NFT"), openseaUrl, Some(env.serviceLink.GetOr([]))]
  }

  /** The panel: nothing without a transaction hash. */
  function SocialShare(p: Props, env: Env, encode: String -> String): (r: Option<View>)
    ensures r.None? <==> !Truthy(p.txHash)
    ensures r.Some? ==>
      var contract := if p.contractAddress.None? then Some(DefaultContract) else p.contractAddress;
      && r.value.openseaUrl == OpenseaUrl(OpenseaChain(ChainId(env.chainId)), contract, p.tokenId)
      && r.value.xText == JoinTruthy(XParts(p, env, r.value.openseaUrl), "\n")
      && r.value.blueskyText == JoinTruthy(BlueskyParts(p, env, r.value.openseaUrl), "\n")
      && r.value.instaText == JoinTruthy(InstaParts(p, env, r.value.openseaUrl), "\n")
      && r.value.xUrl == "https://twitter.com/intent/tweet?text=" + encode(r.value.xText)
      && r.value.blueskyUrl == "https://bsky.app/intent/compose?text=" + encode(r.value.blueskyText)
  {
    if !Truthy(p.txHash) then None
    else
      var contract := if p.contractAddress.None? then Some(DefaultContract) else p.contractAddress;
      var openseaUrl := OpenseaUrl(OpenseaChain(ChainId(env.chainId)), contract, p.tokenId);
      var xText := JoinTruthy(XParts(p, env, openseaUrl), "\n");
      var bskyText := JoinTruthy(BlueskyParts(p, env, openseaUrl), "\n");
      var instaText := JoinTruthy(InstaParts(p, env, openseaUrl), "\n");
      Some(View(openseaUrl, xText, "https://twitter.com/intent/tweet?text=" + encode(xText),
        bskyText, "https://bsky.app/intent/compose?text=" + encode(bskyText), instaText))
  }

  /** The Instagram text always carries the "#NFT" tag. */
  lemma InstaTextTagged(p: Props, env: Env, openseaUrl: Option<String>) returns (pre: String, post: String)
    ensures JoinTruthy(InstaParts(p, env, openseaUrl), "\n") == pre + "#NFT" + post
  {
    pre, post := JoinTruthyContains(InstaParts(p, env, openseaUrl), "\n", 2);
  }

  /**
   * When no part holds a line break, a non-empty service link is a line of
   * its own in the Instagram text.
   */
  lemma ServiceLinkOwnLine(p: Props, env: Env, openseaUrl: Option<String>)
    requires Truthy(env.serviceLink)
    requires forall i :: 0 <= i < 5 && InstaParts(p, env, openseaUrl)[i].Some? ==> '\n' !in InstaParts(p, env, openseaUrl)[i].value
    ensures env.serviceLink.value in Split(JoinTruthy(InstaParts(p, env, openseaUrl), "\n"), '\n')
  {
    var parts := InstaParts(p, env, openseaUrl);
    assert Truthy(parts[4]);
    LinesOfJoinTruthy(parts);
    assert Some(env.serviceLink.value) in parts;
  }

  /** Without a service link and a brand handle the X text ends at the OpenSea link: no footer line is added. */
  lemma NoFooterLine(p: Props, env: Env, openseaUrl: Option<String>)
    requires !Truthy(env.serviceLink) && !Truthy(env.twitterHandle)
    ensures JoinTruthy(XParts(p, env, openseaUrl), "\n") == JoinTruthy(XParts(p, env, openseaUrl)[..3], "\n")
  {
    var parts := XParts(p, env, openseaUrl);
    assert Footer(env.serviceLink.GetOr([]), NormalizeHandle(env.twitterHandle)) == [];
    assert parts == parts[..3] + [parts[3]];
    FilterTruthyFalsyLast(parts[..3], parts[3]);
  }
}
