# Governed minting system: a Dafny model

GovernedMintingSystem runs a moderated photo-to-NFT pipeline. Visitors send
a photo and a comment through a public form. Administrators sign in with an
allow-listed Ethereum wallet, then review each submission and approve or
deny it. An approved submission is minted with a `teamMint` call on the
collection it was approved for, and the texts for sharing the result on
X, Bluesky and Instagram are generated.

This project models the core of that pipeline:

- **`AdminAuth`** (`admin_auth.dfy`): the admin credential store. It covers the `ADMIN_WALLETS` allow-list, challenge issuance, signature login and the bearer-token guard. It also covers the 5-minute sweep of 24-hour sessions and 5-minute challenges. The store is a class whose `sessions` and `challenges` maps its methods update, and each method is proved against a pure function of the old state.
- **`RateLimit`** (`rate_limiter.dfy`): the fixed-window per-client limiter, as a class over the `Map` it mutates. Its methods are proved against the one-request step `Next`. Lemmas cover the retry-after bound, bursts and the transparency of the sweep. The backend runs two instances of it: the upload limiter (`rateLimitMap`, policy `RateLimit.Uploads`) and the admin login limiter (`authAttempts`, policy `AdminRoutes.AuthAttempts`). The admin login limiter's one-minute timer (backend/routes/admin.js:14-19) is the same `FixedWindowLimiter.Sweep`, and its 429 reply carries no `retryAfter`.
- **`ApiKey`** (`api_key.dfy`): the API-key middleware, including the development bypass.
- **`UploadFilter`** (`upload_filter.dfy`): the MIME-type and extension filter of the upload middleware.
- **`Mint`** (`mint.dfy`): `mintNFT`. It chooses the RPC endpoint, builds the `teamMint` arguments, and a loop scans the receipt for the EIP-721 `Transfer` log.
- **`Records`**, **`SubmissionRoutes`**, **`AdminRoutes`** and **`ShareUrls`** (`records.dfy`, `submission_routes.dfy`, `admin_routes.dfy`, `share_urls.dfy`): the admin API routes. The database is a value, and each route is a function from the database and the request to the reply and the new database. The mint route is also a method that runs the receipt scan. A lemma proves that a minted submission stays minted, with its hash and token id unchanged, under any sequence of admin actions.
- **`SocialShare`** (`social_share.dfy`): the admin app's share panel. It includes JavaScript's `parseInt` of `VITE_CHAIN_ID`.
- **`CompressImage`** (`compress_image.dfy`): the browser-side resize, and the bisection over JPEG quality.
- **`SubmissionForm`** (`submission_form.dfy`): the public form's enable rule and the payload it sends.
- **`Handles`** (`handles.dfy`): handle normalisation.
- Shared helpers:
  - `Text` (`text.dfy`): JavaScript string semantics, namely truthiness, `trim`, ASCII `toLowerCase`, `split`/`join`, `filter(Boolean)`, `lastIndexOf`, first-match `replace`, decimal rendering and hex parsing.
  - `Wrappers` (`wrappers.dfy`): `Option`, and `Reply`, an HTTP reply that is either a value or a status and an error.
  - `Arith` (`arith.dfy`): monotonicity of multiplication.

These are made parameters: signer recovery, random nonces and tokens, the clock, the chain (`send`), `submitEntry`, `canvas.toBlob` and `encodeURIComponent`.

Where the documentation and the code differ, the model follows the code:

- Sessions last 24 hours, not 4.
- The challenge nonce is never checked or consumed.
- The `address` field of the login body is accepted and ignored.
- There is no smart-wallet signature path.

Approve and deny do not look at the current status: a denied or minted submission can be approved or denied again.

## Model

| member | source | states |
|---|---|---|
| Handles.NormalizeHandle | backend/routes/admin.js:270 | empty exactly for a falsy handle; otherwise exactly one leading "@" (kept if typed, added if not) |
| Handles.NormalizeIdempotent | backend/routes/admin.js:270 | normalising a normalised handle changes nothing |
| AdminAuth.NormalizeAddressNormalized | backend/middleware/adminAuth.js:6 | a non-empty trimmed, lower-cased address is a valid entry (non-empty, trimmed, lower-case) |
| AdminAuth.NormalizeSegments | backend/middleware/adminAuth.js:6-7 | every surviving entry is non-empty, trimmed and lower-case |
| AdminAuth.NormalizeSegmentsMembers | backend/middleware/adminAuth.js:6-7 | an address survives iff it is non-empty and some segment normalises to it |
| AdminAuth.AllowListEntries | backend/middleware/adminAuth.js:4-7 | an address is allow-listed iff some comma-separated segment of ADMIN_WALLETS normalises to it and it is non-empty |
| AdminAuth.AllowListNormalized | backend/middleware/adminAuth.js:4-7 | every allow-list entry is non-empty, trimmed and lower-case |
| AdminAuth.UnsetAllowListIsEmpty | backend/middleware/adminAuth.js:4-7 | an unset ADMIN_WALLETS gives the empty allow-list |
| AdminAuth.UnsetAllowListAdmitsNobody | backend/middleware/adminAuth.js:30-36 | with an unset allow-list no recovered signer logs in |
| AdminAuth.ChallengeMessageLines | backend/middleware/adminAuth.js:25 | the challenge splits into exactly three lines: the greeting, "Nonce: n" and "Timestamp: t" |
| AdminAuth.LoginAddress | backend/middleware/adminAuth.js:30-41 | a login succeeds iff recovery succeeds and the lower-cased signer is allow-listed, and then logs in as that lower-cased address |
| AdminAuth.BearerTokenRoundTrip | backend/middleware/adminAuth.js:44 | a "Bearer t" header yields exactly t |
| AdminAuth.Guard | backend/middleware/adminAuth.js:43-57 | admits iff the token is non-empty, known and at most 24 h old, as the session's address; otherwise 401 "Unauthorized" (state kept) or "Session expired" (that session deleted) |
| AdminAuth.SweepSessions | backend/middleware/adminAuth.js:13-17 | keeps exactly the sessions at most 24 h old, unchanged |
| AdminAuth.SweepChallenges | backend/middleware/adminAuth.js:13-20 | keeps exactly the challenges at most 5 min old, unchanged |
| AdminAuth.SweepAgreesWithGuard | backend/middleware/adminAuth.js:13-57 | after a sweep, the guard decides later requests as before, except that "Session expired" may become "Unauthorized" |
| AdminAuth.LoginThenGuard | backend/middleware/adminAuth.js:30-57 | a token from a login is admitted as that admin for 24 h, and is then refused as expired |
| AdminAuth.Store.constructor | backend/middleware/adminAuth.js:9-10 | the allow-list is stored, and both maps start empty |
| AdminAuth.Store.GenerateChallenge | backend/middleware/adminAuth.js:23-28 | returns the nonce and its three-line message and stores the challenge under the nonce; sessions are untouched |
| AdminAuth.Store.VerifySignatureAndCreateSession | backend/middleware/adminAuth.js:30-41 | succeeds iff LoginAddress does, and then adds exactly one session under the fresh token; challenges are never read or changed |
| AdminAuth.Store.VerifySession | backend/middleware/adminAuth.js:43-57 | the decision and new sessions are those of Guard on the old sessions |
| AdminAuth.Store.Sweep | backend/middleware/adminAuth.js:13-21 | the new maps are exactly SweepSessions and SweepChallenges of the old ones |
| AdminAuth.Load | backend/middleware/adminAuth.js:4-10 | a fresh store over the parsed ADMIN_WALLETS (unset reads as ""), with empty maps |
| RateLimit.CeilDiv | backend/middleware/rateLimiter.js:35 | Math.ceil(a / b): the least r with a <= r * b |
| RateLimit.Next | backend/middleware/rateLimiter.js:14-41 | rejects iff the client's window is open and holds maxRequests; a new or expired window restarts at count 1; otherwise the count rises by one; other clients untouched; counts stay within 1..max |
| RateLimit.RetryAfterBounds | backend/middleware/rateLimiter.js:31-36 | retryAfter on a rejection lies in 0..ceil(window / 1000) seconds |
| RateLimit.CeilDivMonotone | backend/middleware/rateLimiter.js:35 | the rounded-up wait is monotone in the remaining time |
| RateLimit.UploadRetryAfterAtMost900 | backend/middleware/rateLimiter.js:3-4 | with a 15-minute window the largest wait is 900 s |
| RateLimit.BurstOpensWindow | backend/middleware/rateLimiter.js:18-21 | a burst finding no open window is allowed first and opens a window of count 1 |
| RateLimit.ReplayInWindow | backend/middleware/rateLimiter.js:31-39 | inside an open window of count c, the i-th further request is allowed iff c + i < max |
| RateLimit.BurstAllowsExactlyBudget | backend/middleware/rateLimiter.js:14-41 | a burst inside one fresh window: the first maxRequests requests are allowed and all later ones rejected |
| RateLimit.Swept | backend/middleware/rateLimiter.js:7-12 | keeps exactly the entries whose window has not ended, unchanged |
| RateLimit.SweepTransparent | backend/middleware/rateLimiter.js:7-41 | after a sweep, a later request gets the same decision and leaves the same entry for its client |
| RateLimit.UploadGate | backend/middleware/rateLimiter.js:31-38 | passes iff allowed; otherwise 429 "Rate limit exceeded" with the upload limit message and the decision's retryAfter |
| RateLimit.UploadLimitMessageText | backend/middleware/rateLimiter.js:34 | the upload limit message reads "Max 10 uploads per 15 minutes" |
| RateLimit.FixedWindowLimiter.constructor | backend/middleware/rateLimiter.js:1 | an empty map under the given policy |
| RateLimit.FixedWindowLimiter.Hit | backend/middleware/rateLimiter.js:14-41 | the decision and the new map are those of Next on the old map |
| RateLimit.FixedWindowLimiter.Sweep | backend/middleware/rateLimiter.js:7-12 | the new map is Swept of the old one |
| RateLimit.RateLimiter | backend/middleware/rateLimiter.js:14-41 | keyed by ip, else the remote address; the reply and new map follow Next under the 15-minute, 10-request policy |
| ApiKey.VerifyApiKey | backend/middleware/auth.js:2-18 | only the two errors occur; "API key required" exactly when there is no bypass and no key |
| ApiKey.PassIff | backend/middleware/auth.js:2-18 | passes iff the development bypass holds, or the secret is set and the presented key equals it |
| ApiKey.DevelopmentWithoutSecretPassesAll | backend/middleware/auth.js:5-7 | in development with no secret every request passes |
| ApiKey.FailsClosedWithoutSecret | backend/middleware/auth.js:5-15 | outside development an unset secret refuses every request |
| ApiKey.XApiKeyPreferred | backend/middleware/auth.js:3 | a non-empty x-api-key header makes the authorization header irrelevant |
| UploadFilter.Extension | backend/middleware/upload.js:15 | with a "." in the name the extension starts with its last "."; with none it is the whole lower-cased name |
| UploadFilter.FileFilter | backend/middleware/upload.js:6-23 | INVALID_FILE_TYPE iff the MIME type is not allowed; accepted iff MIME and extension are both allowed |
| UploadFilter.NoDotRejected | backend/middleware/upload.js:14-20 | a name without "." is always rejected |
| UploadFilter.ExtensionAfterLastDot | backend/middleware/upload.js:15 | the extension of base + "." + tail (tail without ".") is "." + lower(tail) |
| UploadFilter.LastExtensionDecides | backend/middleware/upload.js:6-23 | with an allowed MIME type only the part after the last "." decides, with the exact rejection message |
| UploadFilter.ExtensionOfLower | backend/middleware/upload.js:15 | lower-casing a name leaves its extension unchanged |
| UploadFilter.CaseInsensitive | backend/middleware/upload.js:14-20 | a name and its lower-case form get the same verdict |
| Mint.RpcUrl | backend/lib/mint.js:8-11 | chain 137 uses POLYGON_RPC_URL or its default; every other chain uses BASE_RPC_URL or its default |
| Mint.ArbitrumUsesBaseRpc | backend/lib/mint.js:8-11 | chain 42161 gets the same endpoint as Base |
| Mint.TeamMintArgs | backend/lib/mint.js:17-24 | the call goes to the request's contract and carries recipient, image and comment as given, the event name "GovernedMint" and the date in whole seconds, rounded down |
| Mint.EventNameIgnored | backend/lib/mint.js:18-24 | the caller's eventName never changes the call |
| Mint.HexQuantity | backend/lib/mint.js:32 | BigInt of a topic succeeds only on "0x"-prefixed input |
| Mint.TokenIdOf | backend/lib/mint.js:28-37 | a four-topic Transfer log whose topics[3] is hex yields exactly the decimal rendering of that number, which parses back to it; any other log yields none |
| Mint.FirstTokenIdIsFirst | backend/lib/mint.js:28-37 | the scan returns the first log's token id and finds none iff no log yields one |
| Mint.FirstTokenIdAt | backend/lib/mint.js:28-37 | a found token id comes from a log that yields one, every log before it yielding none |
| Mint.ThreeTopicTransferSkipped | backend/lib/mint.js:30 | a three-topic (ERC-20) Transfer is skipped |
| Mint.FindTokenId | backend/lib/mint.js:28-37 | the loop with break computes FirstTokenId |
| Mint.MintNft | backend/lib/mint.js:7-40 | succeeds iff the call succeeds; returns the receipt's hash and FirstTokenId of its logs |
| Records.CollectionById | backend/routes/admin.js:161-162 | finds a collection with that id, or there is none |
| Records.CollectionByName | backend/routes/admin.js:208-211 | finds a collection with that name (active when required), or there is none |
| Records.UpdateKeepsMintRecords | backend/routes/admin.js:138-150 | rewriting one submission without its hash or token id keeps every mint record |
| SubmissionRoutes.TotalPages | backend/routes/admin.js:91 | null for a zero limit; otherwise the least page count covering total |
| SubmissionRoutes.Page | backend/routes/admin.js:80-86 | rows skip..skip+take, clipped to the listing |
| SubmissionRoutes.FirstPagesPrefix | backend/routes/admin.js:80-86 | pages 1..n concatenate to the first n·limit rows |
| SubmissionRoutes.PagesCoverListing | backend/routes/admin.js:80-91 | pages 1..totalPages return every row exactly once, in order |
| SubmissionRoutes.WithStatus | backend/routes/admin.js:78 | keeps exactly the rows with the given status, never more rows than given; without a status the rows are returned unchanged |
| SubmissionRoutes.WithStatusAppend | backend/routes/admin.js:78-88 | the status filter keeps the listing's order: filtering a concatenation filters each part |
| SubmissionRoutes.ListSubmissions | backend/routes/admin.js:74-96 | total counts the filtered rows; the page is rows (page-1)*limit onward, at most limit of them, of the filtered newest-first listing; page echoed; totalPages is the ceiling of total/limit |
| SubmissionRoutes.GetSubmission | backend/routes/admin.js:98-119 | 404 iff unknown; otherwise the record, with the address and chain of the first collection of its name when it names one that exists, and neither otherwise |
| SubmissionRoutes.LengthCheck | backend/routes/admin.js:126-134 | too long iff a string over the limit; a crash iff null |
| SubmissionRoutes.HandleCheck | backend/routes/admin.js:132-136 | the first handle, in order, that is null or too long, every handle before it passing; none iff all pass |
| SubmissionRoutes.UpdateData | backend/routes/admin.js:138-148 | one entry per defined field, holding its value |
| SubmissionRoutes.ApplyUpdate | backend/routes/admin.js:138-148 | writes exactly the given columns and keeps every other column |
| SubmissionRoutes.PatchSubmission | backend/routes/admin.js:121-154 | checks comment, then notes, then handles: a null gives 500, an overlong value 400 naming that field and its limit; Ok iff within limits and known, then exactly the defined fields are written; mint records are kept |
| SubmissionRoutes.LimitsAreInclusive | backend/routes/admin.js:126-134 | values exactly at their limits pass |
| SubmissionRoutes.EmailUnchecked | backend/routes/admin.js:126-136 | the email has no length check |
| SubmissionRoutes.Approve | backend/routes/admin.js:156-179 | Ok iff a collectionId is given, the collection exists and the submission exists; then approved for that collection's name, stamped by the admin; 400 without a collectionId, 404 "Collection not found" for an unknown collection, 500 "Failed to approve submission" for an unknown submission |
| SubmissionRoutes.Deny | backend/routes/admin.js:181-198 | Ok iff the submission exists; then denied, with empty notes stored as null, stamped by the admin |
| SubmissionRoutes.ReviewIgnoresStatus | backend/routes/admin.js:156-198 | approve and deny succeed whatever the prior status |
| SubmissionRoutes.MintPrecheck | backend/routes/admin.js:202-211 | 404 for an unknown id, 400 unless approved, 400 when already minted, 404 when no active collection has its name; passes iff none of these, with that collection |
| SubmissionRoutes.MintRoute | backend/routes/admin.js:200-232 | Ok iff the precheck passes and the chain returns a receipt; then the reply carries the receipt's hash, the first Transfer token id and the collection's address and chain, and only that submission's hash and token id change; a failed precheck's reply is passed on; no receipt gives 500; on failure nothing changes |
| SubmissionRoutes.MintSubmission | backend/routes/admin.js:200-232 | the route with the mintNFT loop computes exactly MintRoute |
| SubmissionRoutes.FieldMap | backend/routes/admin.js:343-344 | a share column exactly for "x", "bluesky" and "instagram" |
| SubmissionRoutes.RecordShare | backend/routes/admin.js:340-356 | Ok iff a real platform and a known submission, stamping only that column; inherited names give 500 and unknown ones 400; a real platform with an unknown submission gives 500 "Failed to record share" |
| SubmissionRoutes.ConstructorPassesGuard | backend/routes/admin.js:344-345 | "constructor" passes the 400 guard and fails with 500 |
| SubmissionRoutes.MintOnce | backend/routes/admin.js:205 | once minted, any sequence of admin actions keeps the hash and token id, and every further mint is refused |
| ShareUrls.ExplorerUrl | backend/routes/admin.js:281-286 | the chain's explorer, or Polygonscan for an unknown chain, followed by the hash |
| ShareUrls.OpenseaChain | backend/routes/admin.js:288-289 | "matic" for every chain outside the table |
| ShareUrls.UnknownChainFallsBackToPolygon | backend/routes/admin.js:279-289 | an unknown chain gets Polygonscan and "matic" |
| ShareUrls.ChainOf | backend/routes/admin.js:279 | the collection's chain when it is non-zero, otherwise 137; never 0 |
| ShareUrls.OpenseaUrl | backend/routes/admin.js:290-293 | the OpenSea asset page with token id and collection, else the explorer link |
| ShareUrls.ShareUrls | backend/routes/admin.js:272-338 | fails iff not minted (404 unknown, 400 unminted); otherwise the links and the three texts built from their parts |
| ShareUrls.InstagramCaptionTagged | backend/routes/admin.js:317-325 | the caption always contains "#NFT" |
| ShareUrls.XTextLines | backend/routes/admin.js:299-306 | the X text's lines are exactly its non-empty parts |
| AdminRoutes.AuthChallenge | backend/routes/admin.js:50-53 | counted by the auth limiter (`authRateLimit`, lines 21-39); 429 with no change to challenges, or the new challenge stored and returned |
| AdminRoutes.AuthVerify | backend/routes/admin.js:55-67 | counted by the auth limiter; 429, 400 for a missing message or signature, 403 for a signer that is not allow-listed, else a new session; address unused |
| AdminRoutes.ValidAddressShape | backend/routes/admin.js:46 | valid iff "0x" followed by forty hex digits |
| AdminRoutes.ValidAddressIgnoresCase | backend/routes/admin.js:46 | the hex digits' case is not checked |
| AdminRoutes.CreateCollection | backend/routes/admin.js:249-266 | Ok iff name, well-formed address and a supported (or absent/zero) chain; the new record has the fresh id, the given name and address, the chain (defaulting to 137) and is active, and is appended; otherwise 400 "name and contractAddress are required", then "Invalid contract address format", then the unsupported-chain message, with nothing stored; collections all stay on supported chains |
| AdminRoutes.ActiveCollections | backend/routes/admin.js:236-247 | exactly the active collections, newest first |
| AdminRoutes.ActiveCollectionsAppend | backend/routes/admin.js:236-241 | a collection added after the others is listed ahead of them when active |
| AdminRoutes.CreatedCollectionListedFirst | backend/routes/admin.js:236-266 | a collection just created heads the listing |
| SocialShare.ParseIntDigits | admin/src/components/SocialShare.jsx:15 | parseInt reads a run of decimal digits whole |
| SocialShare.ParseIntDecimal | admin/src/components/SocialShare.jsx:15 | parseInt of a decimal rendering gives the number back |
| SocialShare.OpenseaChain | admin/src/components/SocialShare.jsx:6-16 | "matic" for NaN and every chain but 8453 and 42161 |
| SocialShare.DefaultChainIsPolygon | admin/src/components/SocialShare.jsx:15-16 | an unset VITE_CHAIN_ID reads as 137, slug "matic" |
| SocialShare.OpenseaUrl | admin/src/components/SocialShare.jsx:18-20 | a link iff token id and contract are truthy, to the item page |
| SocialShare.FooterShape | admin/src/components/SocialShare.jsx:36 | the footer is empty with neither part, the link alone, "via brand" alone, or the link and "via brand" joined by a space |
| SocialShare.SocialShare | admin/src/components/SocialShare.jsx:10-55 | nothing iff no txHash; otherwise the link and texts from their parts, with the default contract for an undefined one |
| SocialShare.InstaTextTagged | admin/src/components/SocialShare.jsx:46-52 | the Instagram text always contains "#NFT" |
| SocialShare.ServiceLinkOwnLine | admin/src/components/SocialShare.jsx:46-52 | a set service link is a line of its own |
| SocialShare.NoFooterLine | admin/src/components/SocialShare.jsx:32-37 | without a link or brand handle the X text gets no footer line |
| CompressImage.RoundDiv | frontend/src/lib/compressImage.js:15 | Math.round of a quotient: the nearest integer, halves up |
| CompressImage.RoundDivAtMost | frontend/src/lib/compressImage.js:15-18 | a rounded scaled side never exceeds the maximum |
| CompressImage.Resize | frontend/src/lib/compressImage.js:11-21 | fitting sizes are kept; otherwise the longer side becomes the maximum and the other is scaled and rounded; both end within the maximum |
| CompressImage.FindOptimalQuality | frontend/src/lib/compressImage.js:29-48 | at most 12 - iterations encodes within [lo, hi]; the result is the last encode; a failure means a null blob; a result before the cap fits the budget |
| CompressImage.SearchBounds | frontend/src/lib/compressImage.js:29-50 | from the start: at most 12 encodes between 0.1 and 0.92 |
| CompressImage.AllTooLargeFallsBack | frontend/src/lib/compressImage.js:30-42 | with every encoding too large, the search resolves the encoding at the lower bound |
| CompressImage.FallbackCanExceedBudget | frontend/src/lib/compressImage.js:30-31 | the resolved photo can be larger than the budget |
| CompressImage.Compress | frontend/src/lib/compressImage.js:3-55 | a load error rejects; otherwise the search runs on a resized canvas within the maximum |
| SubmissionForm.CanSubmitIff | frontend/src/components/SubmissionForm.jsx:17 | enabled iff a photo, a comment with a non-space character, and no submission under way |
| SubmissionForm.CleanHandle | frontend/src/components/SubmissionForm.jsx:30-32 | undefined iff empty or "@" after trimming; otherwise the trimmed handle without one leading "@" |
| SubmissionForm.LoneAtIsUndefined | frontend/src/components/SubmissionForm.jsx:30 | a lone "@" is sent as undefined |
| SubmissionForm.DoubleAtKeepsOne | frontend/src/components/SubmissionForm.jsx:30 | only one "@" is removed |
| SubmissionForm.AtIsOptional | frontend/src/components/SubmissionForm.jsx:30-32 | a handle is sent the same with or without a typed "@" |
| SubmissionForm.CleanThenDisplay | frontend/src/components/SubmissionForm.jsx:30-32 | a cleaned handle shows as "@" plus what was typed, either way |
| SubmissionForm.CleanEmail | frontend/src/components/SubmissionForm.jsx:33 | undefined iff blank; otherwise trimmed |
| SubmissionForm.PayloadOf | frontend/src/components/SubmissionForm.jsx:27-35 | the trimmed non-empty comment, cleaned handles and email, the photo and the wallet |
| SubmissionForm.HandleSubmit | frontend/src/components/SubmissionForm.jsx:19-42 | nothing unless enabled; otherwise sends PayloadOf and ends not busy with the failure's message or no error |
| SubmissionForm.NoDoubleSubmit | frontend/src/components/SubmissionForm.jsx:19-42 | a busy form sends nothing, and a form that sent is never left busy |

## Left out

- AdminAuth.Store.VerifySignatureAndCreateSession: the nonce is not checked, as in the code. Signature recovery, random nonces and tokens, and the clock are parameters.
- AdminAuth.Store.Sweep and RateLimit.FixedWindowLimiter.Sweep: the timers themselves (`setInterval`) are not modelled. Each tick is a call at a given time, and interleaving with requests is the caller's order.
- Lengths are counted in characters, not UTF-16 code units. `toLowerCase` is modelled for ASCII letters only.
- SubmissionRoutes.ListSubmissions: `page` and `limit` are taken as already-parsed natural numbers, with page >= 1. `parseInt` of the query giving NaN, and negative skip or take, are not modelled. Ordering by `createdAt` is the order of the given sequence.
- AdminRoutes.ActiveCollections: collections are stored in the order they were created, so newest first is the reverse of that order. Ties in `createdAt` are not modelled.
- Records.CollectionByName: `findFirst` is taken to meet collections in sequence order. Prisma defaults, such as `active = true` and the generated id and timestamps, are parameters or constants.
- SubmissionRoutes.MintRoute: a database failure after a successful mint (500 "Minting failed") is not modelled. The update is taken to succeed once the submission exists.
- SubmissionRoutes.MintRoute: requests are applied one at a time. The route awaits the chain between its `mintTxHash` guard (backend/routes/admin.js:205) and its update (backend/routes/admin.js:222), so two overlapping requests could both mint. That interleaving is not modelled.
- SubmissionRoutes.RecordShare: the set of inherited `Object.prototype` names is listed explicitly.
- Mint.HexQuantity: only hex prefixed with `0x` or `0X` is accepted. The other forms `BigInt` accepts (decimal, `0o`, `0b`, white space) are not modelled, because topics are always hex.
- AdminRoutes.CreateCollection: `chainId` is taken as a number. A string chain id is not modelled (`includes` would refuse it).
- UploadFilter.FileFilter: multer's size and file-count limits (10 MiB, one file) are enforced inside multer and are not modelled.
- CompressImage.FindOptimalQuality: qualities are exact reals rather than IEEE doubles, and image decoding and drawing are part of the encoder parameter.
- CompressImage.Compress: its ensures states only that some dimensions within the maximum were used, not which ones. The exact dimensions are Resize's contract.
- SocialShare.SocialShare: the `copied` state, clipboard access and markup are left out. A `null` contract address is not distinguished from an empty one, and None stands for `undefined`.
- SubmissionForm.HandleSubmit: the intermediate `submitting := true` render and the `onSuccess` callback are not modelled.
- The React components and the other routes are not part of this model. That covers wallet gating, photo capture, the public submission route, ENS lookups and IPFS pinning.
