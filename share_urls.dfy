/**
 * `GET /submissions/:id/share-urls`: the explorer and OpenSea links of a
 * minted submission and the texts offered for X, Bluesky and Instagram.
 * `encodeURIComponent` is the parameter `encode`.
 */
module ShareUrls {
  import opened Wrappers
  import opened Text
  import opened Handles
  import opened Records

  const DefaultChainId: int := 137

  /** The `explorers` table: the transaction-URL prefix of each known chain. */
  function ExplorerPrefix(chainId: int): Option<String> {
    if chainId == 137 then Some("https://polygonscan.com/tx/")
    else if chainId == 8453 then Some("https://basescan.org/tx/")
    else if chainId == 42161 then Some("https://arbiscan.io/tx/")
    else None
  }

  /** `explorers[chainId] || explorers[137]`. */
  function ExplorerUrl(chainId: int, txHash: String): (r: String)
    ensures ExplorerPrefix(chainId).Some? ==> r == ExplorerPrefix(chainId).value + txHash
    ensures ExplorerPrefix(chainId).None? ==> r == ExplorerPrefix(DefaultChainId).value + txHash
  {
    ExplorerPrefix(chainId).GetOr(ExplorerPrefix(DefaultChainId).value) + txHash
  }

  /** `openseaChains[chainId] || 'matic'`. */
  function OpenseaChain(chainId: int): (r: String)
    ensures ExplorerPrefix(chainId).None? ==> r == "matic"
  {
    if chainId == 137 then "matic"
    else if chainId == 8453 then "base"
    else if chainId == 42161 then "arbitrum"
    else "matic"
  }

  /** An unknown chain gets the Polygon explorer and the "matic" OpenSea slug. */
  lemma UnknownChainFallsBackToPolygon(chainId: int, txHash: String)
    requires chainId != 137 && chainId != 8453 && chainId != 42161
    ensures ExplorerUrl(chainId, txHash) == "https://polygonscan.com/tx/" + txHash
    ensures OpenseaChain(chainId) == OpenseaChain(DefaultChainId)
  {
  }

  /** `collection?.chainId || 137`. */
  function ChainOf(collection: Option<Collection>): (r: int)
    ensures r != 0
    ensures collection.Some? && collection.value.chainId != 0 ==> r == collection.value.chainId
    ensures !(collection.Some? && collection.value.chainId != 0) ==> r == 137
  {
    if collection.Some? && collection.value.chainId != 0 then collection.value.chainId else DefaultChainId
  }

  /** The OpenSea asset page when the token id and the collection are known, the explorer link otherwise. */
  function OpenseaUrl(tokenId: Option<String>, collection: Option<Collection>, explorerUrl: String): (r: String)
    ensures !(Truthy(tokenId) && collection.Some?) ==> r == explorerUrl
    ensures Truthy(tokenId) && collection.Some? ==>
      r == "https://opensea.io/assets/" + OpenseaChain(ChainOf(collection)) + "/" + collection.value.contractAddress + "/" + tokenId.value
  {
    if Truthy(tokenId) && collection.Some? then
      "https://opensea.io/assets/" + OpenseaChain(ChainOf(collection)) + "/" + collection.value.contractAddress + "/" + tokenId.value
    else explorerUrl
  }

  /** `handle ? \`by ${handle}\` : ''`. */
  function ByLine(handle: String): String {
    if handle != [] then "by " + handle else ""
  }

  function XParts(s: Submission, openseaUrl: String): seq<Option<String>> {
    [Some(s.comment), Some(ByLine(NormalizeHandle(s.xHandle))), s.photoGatewayUrl, Some(openseaUrl)]
  }

  function BlueskyParts(s: Submission, openseaUrl: String): seq<Option<String>> {
    [Some(s.comment), Some(ByLine(NormalizeHandle(s.blueskyHandle))), s.photoGatewayUrl, Some(openseaUrl)]
  }

  function InstagramParts(s: Submission, openseaUrl: String): seq<Option<String>> {
    [Some(s.comment), Some(NormalizeHandle(s.instagramHandle)), Some("#NFT"), s.photoGatewayUrl, Some(openseaUrl)]
  }

  datatype ShareLinks = ShareLinks(
    xUrl: String, xText: String, blueskyUrl: String, blueskyText: String,
    instagramCaption: String, opensea: String, explorer: String)

  function ShareUrls(db: Db, id: String, encode: String -> String): (r: Reply<ShareLinks>)
    ensures r.Fail? <==> !Minted(db, id)
    ensures id !in db.submissions ==> r == Fail(404, "Submission not found")
    ensures id in db.submissions && !Minted(db, id) ==> r == Fail(400, "Not yet minted")
    ensures r.Ok? ==>
      var s := db.submissions[id];
      var c := CollectionByName(db.collections, s.mintedToCollection, false);
      && r.value.explorer == ExplorerUrl(ChainOf(c), s.mintTxHash.value)
      && r.value.opensea == OpenseaUrl(s.tokenId, c, r.value.explorer)
      && r.value.xText == JoinTruthy(XParts(s, r.value.opensea), "\n")
      && r.value.blueskyText == JoinTruthy(BlueskyParts(s, r.value.opensea), "\n")
      && r.value.instagramCaption == JoinTruthy(InstagramParts(s, r.value.opensea), "\n")
      && r.value.xUrl == "https://twitter.com/intent/tweet?text=" + encode(r.value.xText)
      && r.value.blueskyUrl == "https://bsky.app/intent/compose?text=" + encode(r.value.blueskyText)
  {
    if id !in db.submissions then Fail(404, "Submission not found")
    else
      var s := db.submissions[id];
      if !Truthy(s.mintTxHash) then Fail(400, "Not yet minted")
      else
        var collection := CollectionByName(db.collections, s.mintedToCollection, false);
        var explorerUrl := ExplorerUrl(ChainOf(collection), s.mintTxHash.value);
        var openseaUrl := OpenseaUrl(s.tokenId, collection, explorerUrl);
        var text := JoinTruthy(XParts(s, openseaUrl), "\n");
        var bskyText := JoinTruthy(BlueskyParts(s, openseaUrl), "\n");
        var caption := JoinTruthy(InstagramParts(s, openseaUrl), "\n");
        Ok(ShareLinks(
          "https://twitter.com/intent/tweet?text=" + encode(text), text,
          "https://bsky.app/intent/compose?text=" + encode(bskyText), bskyText,
          caption, openseaUrl, explorerUrl))
  }

  /** The Instagram caption always carries the "#NFT" tag. */
  lemma InstagramCaptionTagged(s: Submission, openseaUrl: String) returns (pre: String, post: String)
    ensures JoinTruthy(InstagramParts(s, openseaUrl), "\n") == pre + "#NFT" + post
  {
    pre, post := JoinTruthyContains(InstagramParts(s, openseaUrl), "\n", 2);
  }

  /**
   * When no part holds a line break, the X text's lines are exactly its
   * non-empty parts: empty ones (no handle, no gateway URL) leave no blank line.
   */
  lemma XTextLines(s: Submission, openseaUrl: String)
    requires openseaUrl != [] && '\n' !in openseaUrl && '\n' !in s.comment
    requires s.photoGatewayUrl.Some? ==> '\n' !in s.photoGatewayUrl.value
    requires Truthy(s.xHandle) ==> '\n' !in s.xHandle.value
    ensures Split(JoinTruthy(XParts(s, openseaUrl), "\n"), '\n') == FilterTruthy(XParts(s, openseaUrl))
  {
    var parts := XParts(s, openseaUrl);
    assert Truthy(parts[3]);
    var byLine := ByLine(NormalizeHandle(s.xHandle));
    assert '\n' !in byLine by {
      if Truthy(s.xHandle) {
        assert byLine == "by " + "@" + StripLeadingAt(s.xHandle.value);
        assert forall c :: c in StripLeadingAt(s.xHandle.value) ==> c in s.xHandle.value;
      }
    }
    LinesOfJoinTruthy(parts);
  }
}
