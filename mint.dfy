/**
 * The backend's mint helper `mintNFT`: it picks the RPC endpoint from the
 * chain id, sends `teamMint(recipient, image, text, "GovernedMint", date)`,
 * waits for the receipt and scans its logs for the EIP-721 `Transfer` event
 * to learn the minted token id.
 *
 * The provider, the wallet and the transaction are one oracle `send` from
 * the call to its receipt (None where sending or waiting throws).
 */
module Mint {
  import opened Wrappers
  import opened Text

  const PolygonRpcDefault: String := "https://polygon-rpc.com/"
  const BaseRpcDefault: String := "https://base.llamarpc.com"
  const PolygonChainId: int := 137

  /** keccak256("Transfer(address,address,uint256)"), the topic of the EIP-721 (and ERC-20) Transfer event. */
  const TransferTopic: String := "0xddf252ad1be2c89b69c2b068fc378daa952ba7f163c4a11628f55a4df523b3ef"

  /** The event name written into every mint, whatever the caller asked for. */
  const MintEventName: String := "GovernedMint"

  /** `POLYGON_RPC_URL` and `BASE_RPC_URL`. */
  datatype RpcEnv = RpcEnv(polygonRpcUrl: Option<String>, baseRpcUrl: Option<String>)

  /** Chain 137 uses the Polygon endpoint; every other chain id uses the Base endpoint. */
  function RpcUrl(chainId: int, env: RpcEnv): (r: String)
    ensures r != []
    ensures chainId == PolygonChainId ==> r == Or(env.polygonRpcUrl, Some(PolygonRpcDefault)).value
    ensures chainId != PolygonChainId ==> r == Or(env.baseRpcUrl, Some(BaseRpcDefault)).value
  {
    if chainId == PolygonChainId then
      (if Truthy(env.polygonRpcUrl) then env.polygonRpcUrl.value else PolygonRpcDefault)
    else
      (if Truthy(env.baseRpcUrl) then env.baseRpcUrl.value else BaseRpcDefault)
  }

  /** Arbitrum (42161), although a supported collection chain, is sent to the Base endpoint like any non-Polygon chain. */
  lemma ArbitrumUsesBaseRpc(env: RpcEnv)
    ensures RpcUrl(42161, env) == RpcUrl(8453, env)
    ensures !Truthy(env.baseRpcUrl) ==> RpcUrl(42161, env) == BaseRpcDefault
  {
  }

  /** What the route passes: `eventName` is part of it and is ignored. */
  datatype MintRequest = MintRequest(
    contractAddress: String, chainId: int, recipientAddress: String,
    imageIpfsUrl: String, comment: String, eventName: String)

  /** The contract call that is sent, with the endpoint it goes to. */
  datatype TeamMintCall = TeamMintCall(
    rpcUrl: String, contractAddress: String, recipient: String,
    customImage: String, customText: String, eventName: String, eventDate: int)

  datatype Log = Log(topics: seq<String>)
  datatype Receipt = Receipt(hash: String, logs: seq<Log>)
  datatype MintResult = MintResult(txHash: String, tokenId: Option<String>)

  /** The call `mintNFT` sends at `now` (milliseconds): the date is in whole seconds, rounded down. */
  function TeamMintArgs(req: MintRequest, env: RpcEnv, now: int): (c: TeamMintCall)
    ensures c.eventName == MintEventName
    ensures c.eventDate * 1000 <= now < c.eventDate * 1000 + 1000
    ensures c.rpcUrl == RpcUrl(req.chainId, env)
    ensures c.recipient == req.recipientAddress && c.customImage == req.imageIpfsUrl && c.customText == req.comment
    ensures c.contractAddress == req.contractAddress
  {
    TeamMintCall(RpcUrl(req.chainId, env), req.contractAddress, req.recipientAddress,
      req.imageIpfsUrl, req.comment, MintEventName, now / 1000)
  }

  /** The caller's event name never reaches the chain. */
  lemma EventNameIgnored(req: MintRequest, env: RpcEnv, now: int, eventName: String)
    ensures TeamMintArgs(req.(eventName := eventName), env, now) == TeamMintArgs(req, env, now)
  {
  }

  /**
   * `BigInt(s)` for the `0x`-prefixed hexadecimal strings the provider
   * returns as topics; None where `BigInt` throws.
   */
  function HexQuantity(s: String): (r: Option<nat>)
    ensures r.Some? ==> |s| >= 3 && s[0] == '0' && (s[1] == 'x' || s[1] == 'X')
  {
    if |s| >= 3 && s[0] == '0' && (s[1] == 'x' || s[1] == 'X')
       && forall i :: 2 <= i < |s| ==> IsHexDigit(s[i])
    then Some(ParseHex(s[2..]))
    else None
  }

  /** A Transfer log of the EIP-721 shape: the topic plus from, to and the indexed token id. */
  predicate IsNftTransfer(log: Log) {
    |log.topics| == 4 && log.topics[0] == TransferTopic
  }

  /** The token id one log yields: None for other logs and where reading `topics[3]` throws (the error is swallowed). */
  function TokenIdOf(log: Log): (r: Option<String>)
    ensures r.Some? ==> IsNftTransfer(log) && HexQuantity(log.topics[3]).Some?
    ensures r.Some? ==> ParseDecimal(r.value) == HexQuantity(log.topics[3]).value
    ensures IsNftTransfer(log) && HexQuantity(log.topics[3]).Some? ==>
      r == Some(Decimal(HexQuantity(log.topics[3]).value))
  {
    if IsNftTransfer(log) && HexQuantity(log.topics[3]).Some? then
      DecimalRoundTrip(HexQuantity(log.topics[3]).value);
      Some(Decimal(HexQuantity(log.topics[3]).value))
    else None
  }

  /** The token id of the first log that yields one. */
  function FirstTokenId(logs: seq<Log>): (r: Option<String>)
  {
    if logs == [] then None
    else if TokenIdOf(logs[0]).Some? then TokenIdOf(logs[0])
    else FirstTokenId(logs[1..])
  }

  /**
   * The scan finds the first log that yields a token id, and finds nothing
   * exactly when no log yields one.
   */
  lemma FirstTokenIdIsFirst(logs: seq<Log>)
    ensures FirstTokenId(logs).None? <==> forall j :: 0 <= j < |logs| ==> TokenIdOf(logs[j]).None?
    ensures FirstTokenId(logs).Some? ==>
      exists i :: 0 <= i < |logs| && FirstTokenId(logs) == TokenIdOf(logs[i])
        && forall j :: 0 <= j < i ==> TokenIdOf(logs[j]).None?
  {
    FirstTokenIdNone(logs);
    if FirstTokenId(logs).Some? {
      var i := FirstTokenIdAt(logs);
    }
  }

  lemma {:induction false} FirstTokenIdNone(logs: seq<Log>)
    ensures FirstTokenId(logs).None? <==> forall j :: 0 <= j < |logs| ==> TokenIdOf(logs[j]).None?
  {
    if logs != [] && TokenIdOf(logs[0]).None? {
      FirstTokenIdNone(logs[1..]);
      assert forall j :: 1 <= j < |logs| ==> logs[1..][j - 1] == logs[j];
    }
  }

  /** The index of the log the scan takes its token id from. */
  lemma {:induction false} FirstTokenIdAt(logs: seq<Log>) returns (i: nat)
    requires FirstTokenId(logs).Some?
    ensures i < |logs| && FirstTokenId(logs) == TokenIdOf(logs[i])
    ensures forall j :: 0 <= j < i ==> TokenIdOf(logs[j]).None?
  {
    if TokenIdOf(logs[0]).Some? {
      i := 0;
    } else {
      var k := FirstTokenIdAt(logs[1..]);
      i := k + 1;
      assert logs[i] == logs[1..][k];
      assert forall j :: 1 <= j < i ==> logs[j] == logs[1..][j - 1];
    }
  }

  /** An ERC-20 style Transfer with three topics is skipped, whatever it holds. */
  lemma ThreeTopicTransferSkipped(log: Log, rest: seq<Log>)
    requires |log.topics| == 3
    ensures FirstTokenId([log] + rest) == FirstTokenId(rest)
  {
    assert ([log] + rest)[1..] == rest;
  }

  /** The loop over `receipt.logs` that assigns the token id and breaks at the first match. */
  method FindTokenId(logs: seq<Log>) returns (tokenId: Option<String>)
    ensures tokenId == FirstTokenId(logs)
  {
    tokenId := None;
    var i := 0;
    while i < |logs|
      invariant 0 <= i <= |logs|
      invariant FirstTokenId(logs) == FirstTokenId(logs[i..])
      decreases |logs| - i
    {
      var log := logs[i];
      assert logs[i..][1..] == logs[i + 1..];
      if |log.topics| == 4 && log.topics[0] == TransferTopic {
        var value := HexQuantity(log.topics[3]);
        if value.Some? {
          tokenId := Some(Decimal(value.value));
          break;
        }
      }
      i := i + 1;
    }
  }

  /**
   * `mintNFT`: sends the call and reports the receipt's hash with the token
   * id, which is None when no log yields one; None overall where sending
   * or waiting throws.
   */
  method MintNft(req: MintRequest, env: RpcEnv, now: int, send: TeamMintCall -> Option<Receipt>)
    returns (r: Option<MintResult>)
    ensures r.Some? <==> send(TeamMintArgs(req, env, now)).Some?
    ensures r.Some? ==> r.value.txHash == send(TeamMintArgs(req, env, now)).value.hash
    ensures r.Some? ==> r.value.tokenId == FirstTokenId(send(TeamMintArgs(req, env, now)).value.logs)
  {
    var rpcUrl := if req.chainId == PolygonChainId then Or(env.polygonRpcUrl, Some(PolygonRpcDefault)).value
      else Or(env.baseRpcUrl, Some(BaseRpcDefault)).value;
    var timestamp := now / 1000;
    var receipt := send(TeamMintCall(rpcUrl, req.contractAddress, req.recipientAddress,
      req.imageIpfsUrl, req.comment, MintEventName, timestamp));
    if receipt.None? {
      return None;
    }
    var tokenId := FindTokenId(receipt.value.logs);
    r := Some(MintResult(receipt.value.hash, tokenId));
  }
}
