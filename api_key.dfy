/**
 * `verifyApiKey`, the middleware in front of the public submission routes:
 * a development bypass, then a required key that must equal `API_SECRET`.
 */
module ApiKey {
  import opened Wrappers
  import opened Text

  datatype Outcome = Pass | Unauthorized(error: String)

  /** `req.headers['x-api-key'] || req.headers['authorization']`. */
  function PresentedKey(xApiKey: Option<String>, authorization: Option<String>): Option<String> {
    Or(xApiKey, authorization)
  }

  /** `NODE_ENV === 'development' && !API_SECRET`. */
  predicate DevBypass(nodeEnv: Option<String>, apiSecret: Option<String>) {
    nodeEnv == Some("development") && !Truthy(apiSecret)
  }

  function VerifyApiKey(xApiKey: Option<String>, authorization: Option<String>,
                        nodeEnv: Option<String>, apiSecret: Option<String>): (r: Outcome)
    ensures r.Unauthorized? ==> r.error == "API key required" || r.error == "Invalid API key"
    ensures r == Unauthorized("API key required") <==>
      !DevBypass(nodeEnv, apiSecret) && !Truthy(PresentedKey(xApiKey, authorization))
  {
    var apiKey := PresentedKey(xApiKey, authorization);
    if DevBypass(nodeEnv, apiSecret) then Pass
    else if !Truthy(apiKey) then Unauthorized("API key required")
    else if apiKey != apiSecret then Unauthorized("Invalid API key")
    else Pass
  }

  /** A request passes exactly on the development bypass or on a key equal to the secret. */
  lemma PassIff(xApiKey: Option<String>, authorization: Option<String>, nodeEnv: Option<String>, apiSecret: Option<String>)
    ensures VerifyApiKey(xApiKey, authorization, nodeEnv, apiSecret) == Pass <==>
      DevBypass(nodeEnv, apiSecret)
      || (Truthy(apiSecret) && PresentedKey(xApiKey, authorization) == apiSecret)
  {
  }

  /** In development without a secret, every request passes, with or without a key. */
  lemma DevelopmentWithoutSecretPassesAll(xApiKey: Option<String>, authorization: Option<String>, apiSecret: Option<String>)
    requires !Truthy(apiSecret)
    ensures VerifyApiKey(xApiKey, authorization, Some("development"), apiSecret) == Pass
  {
  }

  /** Anywhere else, an unset or empty secret lets nothing through. */
  lemma FailsClosedWithoutSecret(xApiKey: Option<String>, authorization: Option<String>, nodeEnv: Option<String>, apiSecret: Option<String>)
    requires nodeEnv != Some("development") && !Truthy(apiSecret)
    ensures VerifyApiKey(xApiKey, authorization, nodeEnv, apiSecret).Unauthorized?
  {
  }

  /** The `x-api-key` header wins; the raw `authorization` header is read only when it is missing or empty. */
  lemma XApiKeyPreferred(key: String, authorization: Option<String>, nodeEnv: Option<String>, apiSecret: Option<String>)
    requires key != []
    ensures VerifyApiKey(Some(key), authorization, nodeEnv, apiSecret) == VerifyApiKey(Some(key), None, nodeEnv, apiSecret)
  {
  }
}
