/**
 * The admin router's submission endpoints: listing with pagination, the
 * detail view, the length-checked partial update, approve, deny, mint and
 * share recording. Each endpoint is a function from the database and the
 * request to the reply and the new database; `MintSubmission` is the mint
 * endpoint as the route runs it, with the receipt scan as a loop.
 */
module SubmissionRoutes {
  import opened Wrappers
  import opened Text
  import opened Records
  import Mint

  // ---------------------------------------------------------------------------
  // listing

  /** `(page - 1) * limit`, the rows skipped before the requested page. */
  function Skip(page: int, limit: int): int {
    (page - 1) * limit
  }

  /**
   * `Math.ceil(total / limit)` as the JSON reply carries it: None (null) for
   * a zero limit, where the quotient is Infinity or NaN.
   */
  function TotalPages(total: nat, limit: int): (r: Option<int>)
    ensures r.None? <==> limit == 0
    ensures limit > 0 ==> r.value >= 0 && (r.value - 1) * limit < total <= r.value * limit
  {
    var t: int := total;
    if limit == 0 then None
    else if limit > 0 then Some(-((-t) / limit))
    else Some(-(t / -limit))
  }

  /** `findMany({ where, skip, take })` over the rows in the listing's order, for non-negative skip and take. */
  function Page<T>(rows: seq<T>, skip: nat, take: nat): (r: seq<T>)
    ensures |r| <= take
    ensures r == rows[Min(skip, |rows|)..Min(skip + take, |rows|)]
  {
    rows[Min(skip, |rows|)..Min(skip + take, |rows|)]
  }

  function Min(a: int, b: int): int {
    if a <= b then a else b
  }

  /** Pages 1..n of size `limit`, one after the other. */
  function FirstPages<T>(rows: seq<T>, limit: nat, n: nat): seq<T> {
    if n == 0 then [] else FirstPages(rows, limit, n - 1) + Page(rows, Skip(n, limit), limit)
  }

  lemma {:induction false} FirstPagesPrefix<T>(rows: seq<T>, limit: nat, n: nat)
    ensures FirstPages(rows, limit, n) == rows[..Min(n * limit, |rows|)]
  {
    if n > 0 {
      FirstPagesPrefix(rows, limit, n - 1);
      var a := Min((n - 1) * limit, |rows|);
      var b := Min(n * limit, |rows|);
      assert Skip(n, limit) == (n - 1) * limit;
      assert Page(rows, Skip(n, limit), limit) == rows[a..b];
      assert rows[..a] + rows[a..b] == rows[..b];
    }
  }

  /**
   * Walking the pages 1..totalPages returns every row exactly once, in
   * order: the pages partition the listing.
   */
  lemma PagesCoverListing<T>(rows: seq<T>, limit: nat)
    requires limit > 0
    ensures FirstPages(rows, limit, TotalPages(|rows|, limit).value) == rows
  {
    var n := TotalPages(|rows|, limit).value;
    FirstPagesPrefix(rows, limit, n);
    assert Min(n * limit, |rows|) == |rows|;
  }

  /** `where.status = status` when a status is given. */
  function WithStatus(rows: seq<Submission>, status: Option<String>): (r: seq<Submission>)
    ensures forall s :: s in r <==> s in rows && (Truthy(status) ==> s.status == status.value)
    ensures !Truthy(status) ==> r == rows
    ensures |r| <= |rows|
  {
    if !Truthy(status) then rows
    else if rows == [] then []
    else if rows[0].status == status.value then [rows[0]] + WithStatus(rows[1..], status)
    else WithStatus(rows[1..], status)
  }

  /** The filter keeps the rows' order: filtering a concatenation filters each part. */
  lemma {:induction false} WithStatusAppend(a: seq<Submission>, b: seq<Submission>, status: Option<String>)
    ensures WithStatus(a + b, status) == WithStatus(a, status) + WithStatus(b, status)
  {
    if Truthy(status) && a != [] {
      assert (a + b)[0] == a[0];
      assert (a + b)[1..] == a[1..] + b;
      WithStatusAppend(a[1..], b, status);
    } else if Truthy(status) {
      assert a + b == b;
    }
  }

  datatype Listing = Listing(submissions: seq<Submission>, total: nat, page: int, totalPages: Option<int>)

  /**
   * `GET /submissions` over the submissions in newest-first order, with
   * `page` and `limit` already read from the query (defaults 1 and 20).
   */
  function ListSubmissions(newestFirst: seq<Submission>, status: Option<String>, page: nat, limit: nat): (r: Listing)
    requires page >= 1
    ensures r.total == |WithStatus(newestFirst, status)|
    ensures forall s :: s in r.submissions ==> s in newestFirst && (Truthy(status) ==> s.status == status.value)
    ensures |r.submissions| <= limit
    ensures r.submissions == Page(WithStatus(newestFirst, status), Skip(page, limit), limit)
    ensures r.page == page && r.totalPages == TotalPages(r.total, limit)
  {
    var rows := WithStatus(newestFirst, status);
    Listing(Page(rows, Skip(page, limit), limit), |rows|, page, TotalPages(|rows|, limit))
  }

  // ---------------------------------------------------------------------------
  // detail

  datatype Detail = Detail(submission: Submission, contractAddress: Option<String>, chainId: Option<int>)

  /** `GET /submissions/:id`: the record, with its collection's address and chain attached when one is found by name. */
  function GetSubmission(db: Db, id: String): (r: Reply<Detail>)
    ensures r.Fail? <==> id !in db.submissions
    ensures r.Fail? ==> r == Fail(404, "Submission not found")
    ensures r.Ok? ==> r.value.submission == db.submissions[id]
    ensures r.Ok? && r.value.contractAddress.Some? ==>
      exists c :: c in db.collections && Some(c.name) == db.submissions[id].mintedToCollection
        && r.value.contractAddress == Some(c.contractAddress) && r.value.chainId == Some(c.chainId)
    ensures r.Ok? ==>
      var named := db.submissions[id].mintedToCollection;
      var c := CollectionByName(db.collections, named, false);
      if Truthy(named) && c.Some? then
        r.value.contractAddress == Some(c.value.contractAddress) && r.value.chainId == Some(c.value.chainId)
      else
        r.value.contractAddress == None && r.value.chainId == None
  {
    if id !in db.submissions then Fail(404, "Submission not found")
    else
      var s := db.submissions[id];
      var c := if Truthy(s.mintedToCollection) then CollectionByName(db.collections, s.mintedToCollection, false) else None;
      if c.Some? then Ok(Detail(s, Some(c.value.contractAddress), Some(c.value.chainId)))
      else Ok(Detail(s, None, None))
  }

  // ---------------------------------------------------------------------------
  // partial update

  const MaxCommentLength: int := 2000
  const MaxHandleLength: int := 100
  const MaxNotesLength: int := 5000

  /** A body field: absent, JSON null, or a string. */
  datatype Field = Undefined | Null | Str(s: String)

  datatype PatchBody = PatchBody(
    comment: Field, xHandle: Field, instagramHandle: Field, blueskyHandle: Field, email: Field, adminNotes: Field)

  /** The columns a PATCH may write. */
  datatype Column = CommentCol | XHandleCol | InstagramHandleCol | BlueskyHandleCol | EmailCol | AdminNotesCol

  /**
   * The outcome of one `val !== undefined && val.length > max` test: passes,
   * too long, or a TypeError because `null.length` is read.
   */
  datatype Check = Fits | TooLong | Crash

  function LengthCheck(f: Field, max: int): (c: Check)
    ensures c == TooLong <==> f.Str? && |f.s| > max
    ensures c == Crash <==> f.Null?
  {
    match f
    case Undefined => Fits
    case Null => Crash
    case Str(s) => if |s| > max then TooLong else Fits
  }

  /** The handle loop: the first handle, in the order x, instagram, bluesky, that is null or too long. */
  function HandleCheck(handles: seq<(String, Field)>): (r: Option<(String, Check)>)
    ensures r.None? <==> forall i :: 0 <= i < |handles| ==> LengthCheck(handles[i].1, MaxHandleLength) == Fits
    ensures r.Some? ==> r.value.1 != Fits
    ensures r.Some? ==>
      exists i :: 0 <= i < |handles| && handles[i].0 == r.value.0 && LengthCheck(handles[i].1, MaxHandleLength) == r.value.1
        && forall j :: 0 <= j < i ==> LengthCheck(handles[j].1, MaxHandleLength) == Fits
  {
    if handles == [] then None
    else
      var c := LengthCheck(handles[0].1, MaxHandleLength);
      if c != Fits then Some((handles[0].0, c))
      else
        var r := HandleCheck(handles[1..]);
        if r.Some? then
          var i :| 0 <= i < |handles[1..]| && handles[1..][i].0 == r.value.0
            && LengthCheck(handles[1..][i].1, MaxHandleLength) == r.value.1
            && forall j :: 0 <= j < i ==> LengthCheck(handles[1..][j].1, MaxHandleLength) == Fits;
          assert handles[i + 1] == handles[1..][i];
          assert forall j :: 1 <= j < i + 1 ==> handles[j] == handles[1..][j - 1];
          r
        else r
  }

  function Handles(body: PatchBody): seq<(String, Field)> {
    [("xHandle", body.xHandle), ("instagramHandle", body.instagramHandle), ("blueskyHandle", body.blueskyHandle)]
  }

  function FieldOf(body: PatchBody, col: Column): Field {
    match col
    case CommentCol => body.comment
    case XHandleCol => body.xHandle
    case InstagramHandleCol => body.instagramHandle
    case BlueskyHandleCol => body.blueskyHandle
    case EmailCol => body.email
    case AdminNotesCol => body.adminNotes
  }

  function ValueOf(f: Field): Option<String> {
    if f.Str? then Some(f.s) else None
  }

  /** The conditional spreads: one entry per defined field, holding its value (None for null). */
  function UpdateData(body: PatchBody): (data: map<Column, Option<String>>)
    ensures forall col :: col in data <==> FieldOf(body, col) != Undefined
    ensures forall col :: col in data ==> data[col] == ValueOf(FieldOf(body, col))
  {
    map col: Column | FieldOf(body, col) != Undefined :: ValueOf(FieldOf(body, col))
  }

  /** Writes the update's columns into the record; every other column is kept. */
  function ApplyUpdate(s: Submission, data: map<Column, Option<String>>): (t: Submission)
    requires CommentCol in data ==> data[CommentCol].Some?
    ensures t.(comment := s.comment, xHandle := s.xHandle, instagramHandle := s.instagramHandle,
               blueskyHandle := s.blueskyHandle, email := s.email, adminNotes := s.adminNotes) == s
    ensures CommentCol in data ==> t.comment == data[CommentCol].value
    ensures CommentCol !in data ==> t.comment == s.comment
    ensures t.email == (if EmailCol in data then data[EmailCol] else s.email)
    ensures t.adminNotes == (if AdminNotesCol in data then data[AdminNotesCol] else s.adminNotes)
    ensures t.xHandle == (if XHandleCol in data then data[XHandleCol] else s.xHandle)
    ensures t.instagramHandle == (if InstagramHandleCol in data then data[InstagramHandleCol] else s.instagramHandle)
    ensures t.blueskyHandle == (if BlueskyHandleCol in data then data[BlueskyHandleCol] else s.blueskyHandle)
  {
    s.(comment := if CommentCol in data then data[CommentCol].value else s.comment,
       xHandle := if XHandleCol in data then data[XHandleCol] else s.xHandle,
       instagramHandle := if InstagramHandleCol in data then data[InstagramHandleCol] else s.instagramHandle,
       blueskyHandle := if BlueskyHandleCol in data then data[BlueskyHandleCol] else s.blueskyHandle,
       email := if EmailCol in data then data[EmailCol] else s.email,
       adminNotes := if AdminNotesCol in data then data[AdminNotesCol] else s.adminNotes)
  }

  /** The body passes every length test: no null in a tested field and no value over its limit. */
  predicate WithinLimits(body: PatchBody) {
    && LengthCheck(body.comment, MaxCommentLength) == Fits
    && LengthCheck(body.adminNotes, MaxNotesLength) == Fits
    && HandleCheck(Handles(body)).None?
  }

  /** `${field} exceeds ${max} characters`. */
  function ExceedsMessage(field: String, max: int): String {
    field + " exceeds " + IntToString(max) + " characters"
  }

  /**
   * `PATCH /submissions/:id`: comment, then admin notes, then the handles are
   * length-checked (400 naming the first failure; a null there throws and
   * gives 500); then only the defined fields are written.
   */
  function PatchSubmission(db: Db, id: String, body: PatchBody): (r: (Reply<Submission>, Db))
    ensures r.0.Ok? <==> WithinLimits(body) && id in db.submissions
    ensures r.0.Ok? ==> r.1 == db.(submissions := db.submissions[id := r.0.value])
    ensures r.0.Ok? ==> r.0.value == ApplyUpdate(db.submissions[id], UpdateData(body))
    ensures r.0.Fail? ==> r.1 == db
    ensures r.0.Fail? && r.0.status == 400 ==>
      (body.comment.Str? && |body.comment.s| > MaxCommentLength)
      || (body.adminNotes.Str? && |body.adminNotes.s| > MaxNotesLength)
      || exists i :: 0 <= i < 3 && Handles(body)[i].1.Str? && |Handles(body)[i].1.s| > MaxHandleLength
    ensures r.0.Fail? ==> r.0.status == 400 || r.0 == Fail(500, "Failed to update submission")
    ensures KeepsMintRecords(db, r.1) && r.1.collections == db.collections
    ensures var comment := LengthCheck(body.comment, MaxCommentLength);
      var notes := LengthCheck(body.adminNotes, MaxNotesLength);
      var handle := HandleCheck(Handles(body));
      && (comment == Crash ==> r.0 == Fail(500, "Failed to update submission"))
      && (comment == TooLong ==> r.0 == Fail(400, ExceedsMessage("Comment", MaxCommentLength)))
      && (comment == Fits && notes == Crash ==> r.0 == Fail(500, "Failed to update submission"))
      && (comment == Fits && notes == TooLong ==> r.0 == Fail(400, ExceedsMessage("Admin notes", MaxNotesLength)))
      && (comment == Fits && notes == Fits && handle.Some? && handle.value.1 == Crash ==>
            r.0 == Fail(500, "Failed to update submission"))
      && (comment == Fits && notes == Fits && handle.Some? && handle.value.1 == TooLong ==>
            r.0 == Fail(400, ExceedsMessage(handle.value.0, MaxHandleLength)))
  {
    var comment := LengthCheck(body.comment, MaxCommentLength);
    var notes := LengthCheck(body.adminNotes, MaxNotesLength);
    var handle := HandleCheck(Handles(body));
    if comment == Crash then (Fail(500, "Failed to update submission"), db)
    else if comment == TooLong then
      (Fail(400, ExceedsMessage("Comment", MaxCommentLength)), db)
    else if notes == Crash then (Fail(500, "Failed to update submission"), db)
    else if notes == TooLong then
      (Fail(400, ExceedsMessage("Admin notes", MaxNotesLength)), db)
    else if handle.Some? && handle.value.1 == Crash then (Fail(500, "Failed to update submission"), db)
    else if handle.Some? then
      (Fail(400, ExceedsMessage(handle.value.0, MaxHandleLength)), db)
    else if id !in db.submissions then (Fail(500, "Failed to update submission"), db)
    else
      var t := ApplyUpdate(db.submissions[id], UpdateData(body));
      UpdateKeepsMintRecords(db, id, t);
      (Ok(t), db.(submissions := db.submissions[id := t]))
  }

  /** A value exactly at its limit is accepted. */
  lemma LimitsAreInclusive(comment: String, notes: String, h: String)
    requires |comment| == MaxCommentLength && |notes| == MaxNotesLength && |h| == MaxHandleLength
    ensures WithinLimits(PatchBody(Str(comment), Str(h), Str(h), Str(h), Undefined, Str(notes)))
  {
  }

  /** The email is never length-checked. */
  lemma EmailUnchecked(body: PatchBody, email: Field)
    ensures WithinLimits(body.(email := email)) == WithinLimits(body)
  {
  }

  // ---------------------------------------------------------------------------
  // review

  /**
   * `POST /submissions/:id/approve`: needs a collection id that exists;
   * marks the submission approved for that collection's name, whatever its
   * current status.
   */
  function Approve(db: Db, id: String, collectionId: Option<String>, adminAddress: String, now: int): (r: (Reply<Submission>, Db))
    ensures r.0.Ok? <==> Truthy(collectionId) && CollectionById(db.collections, collectionId.value).Some? && id in db.submissions
    ensures r.0.Ok? ==> (r.1 == db.(submissions := db.submissions[id := r.0.value])
      && r.0.value == db.submissions[id].(status := "approved",
           mintedToCollection := Some(CollectionById(db.collections, collectionId.value).value.name),
           reviewedBy := Some(adminAddress), reviewedAt := Some(now)))
    ensures !Truthy(collectionId) ==> r.0 == Fail(400, "collectionId is required")
    ensures Truthy(collectionId) && CollectionById(db.collections, collectionId.value).None? ==>
      r.0 == Fail(404, "Collection not found")
    ensures Truthy(collectionId) && CollectionById(db.collections, collectionId.value).Some? && id !in db.submissions ==>
      r.0 == Fail(500, "Failed to approve submission")
    ensures r.0.Fail? ==> r.1 == db
    ensures KeepsMintRecords(db, r.1) && r.1.collections == db.collections
  {
    if !Truthy(collectionId) then (Fail(400, "collectionId is required"), db)
    else
      var collection := CollectionById(db.collections, collectionId.value);
      if collection.None? then (Fail(404, "Collection not found"), db)
      else if id !in db.submissions then (Fail(500, "Failed to approve submission"), db)
      else
        var t := db.submissions[id].(status := "approved", mintedToCollection := Some(collection.value.name),
          reviewedBy := Some(adminAddress), reviewedAt := Some(now));
        (Ok(t), db.(submissions := db.submissions[id := t]))
  }

  /** `POST /submissions/:id/deny`: marks the submission denied, whatever its current status; empty notes are stored as null. */
  function Deny(db: Db, id: String, adminNotes: Option<String>, adminAddress: String, now: int): (r: (Reply<Submission>, Db))
    ensures r.0.Ok? <==> id in db.submissions
    ensures r.0.Ok? ==> (r.1 == db.(submissions := db.submissions[id := r.0.value])
      && r.0.value == db.submissions[id].(status := "denied", adminNotes := if Truthy(adminNotes) then adminNotes else None,
           reviewedBy := Some(adminAddress), reviewedAt := Some(now)))
    ensures r.0.Fail? ==> r == (Fail(500, "Failed to deny submission"), db)
    ensures KeepsMintRecords(db, r.1) && r.1.collections == db.collections
  {
    if id !in db.submissions then (Fail(500, "Failed to deny submission"), db)
    else
      var t := db.submissions[id].(status := "denied", adminNotes := Or(adminNotes, None),
        reviewedBy := Some(adminAddress), reviewedAt := Some(now));
      (Ok(t), db.(submissions := db.submissions[id := t]))
  }

  /** Approve and deny look at no prior status: a denied submission can be approved and an approved one denied. */
  lemma ReviewIgnoresStatus(db: Db, id: String, collectionId: String, adminAddress: String, now: int, status: String)
    requires id in db.submissions && CollectionById(db.collections, collectionId).Some? && collectionId != []
    ensures var db' := db.(submissions := db.submissions[id := db.submissions[id].(status := status)]);
      Approve(db', id, Some(collectionId), adminAddress, now).0.Ok?
      && Deny(db', id, None, adminAddress, now).0.Ok?
  {
  }

  // ---------------------------------------------------------------------------
  // mint

  /** The guards in front of the mint call; Ok carries the active collection named by the submission. */
  function MintPrecheck(db: Db, id: String): (r: Reply<Collection>)
    ensures r.Ok? ==> id in db.submissions && db.submissions[id].status == "approved" && !Minted(db, id)
    ensures r.Ok? ==> r.value in db.collections && r.value.active && Some(r.value.name) == db.submissions[id].mintedToCollection
    ensures Minted(db, id) ==> r.Fail? && r.status == 400
    ensures id !in db.submissions ==> r == Fail(404, "Submission not found")
    ensures id in db.submissions && db.submissions[id].status != "approved" ==>
      r == Fail(400, "Submission must be approved before minting")
    ensures (id in db.submissions && db.submissions[id].status == "approved" && !Minted(db, id)
             && CollectionByName(db.collections, db.submissions[id].mintedToCollection, true).None?) ==>
      r == Fail(404, "Collection not found")
    ensures r.Ok? <==> (id in db.submissions && db.submissions[id].status == "approved" && !Minted(db, id)
                        && CollectionByName(db.collections, db.submissions[id].mintedToCollection, true).Some?)
    ensures r.Ok? ==> r.value == CollectionByName(db.collections, db.submissions[id].mintedToCollection, true).value
  {
    if id !in db.submissions then Fail(404, "Submission not found")
    else
      var s := db.submissions[id];
      if s.status != "approved" then Fail(400, "Submission must be approved before minting")
      else if Truthy(s.mintTxHash) then Fail(400, "Already minted")
      else
        var c := CollectionByName(db.collections, s.mintedToCollection, true);
        if c.None? then Fail(404, "Collection not found") else Ok(c.value)
  }

  function MintRequestFor(s: Submission, c: Collection): Mint.MintRequest {
    Mint.MintRequest(c.contractAddress, c.chainId, s.walletAddress, s.photoIpfsUrl, s.comment, c.name)
  }

  datatype Minting = Minting(txHash: String, tokenId: Option<String>, contractAddress: String, chainId: int, submission: Submission)

  /** `POST /submissions/:id/mint` as a function of the chain's answer `send`. */
  function MintRoute(db: Db, id: String, env: Mint.RpcEnv, now: int, send: Mint.TeamMintCall -> Option<Mint.Receipt>)
    : (r: (Reply<Minting>, Db))
    ensures r.0.Ok? ==> MintPrecheck(db, id).Ok? && r.1 == db.(submissions := db.submissions[id := r.0.value.submission])
    ensures r.0.Ok? ==> r.0.value.submission == db.submissions[id].(mintTxHash := Some(r.0.value.txHash), tokenId := r.0.value.tokenId)
    ensures r.0.Fail? ==> r.1 == db
    ensures Minted(db, id) ==> r.0.Fail? && r.0.status == 400
    ensures forall k :: k in db.submissions && k != id ==> k in r.1.submissions && r.1.submissions[k] == db.submissions[k]
    ensures var pre := MintPrecheck(db, id);
      pre.Fail? ==> r.0 == Fail(pre.status, pre.error)
    ensures var pre := MintPrecheck(db, id);
      pre.Ok? ==>
        var receipt := send(Mint.TeamMintArgs(MintRequestFor(db.submissions[id], pre.value), env, now));
        && (r.0.Ok? <==> receipt.Some?)
        && (receipt.None? ==> r.0 == Fail(500, "Minting failed"))
        && (r.0.Ok? ==>
              r.0.value.txHash == receipt.value.hash
              && r.0.value.tokenId == Mint.FirstTokenId(receipt.value.logs)
              && r.0.value.contractAddress == pre.value.contractAddress
              && r.0.value.chainId == pre.value.chainId)
  {
    var pre := MintPrecheck(db, id);
    if pre.Fail? then (Fail(pre.status, pre.error), db)
    else
      var s := db.submissions[id];
      var c := pre.value;
      var receipt := send(Mint.TeamMintArgs(MintRequestFor(s, c), env, now));
      if receipt.None? then (Fail(500, "Minting failed"), db)
      else
        var tokenId := Mint.FirstTokenId(receipt.value.logs);
        var t := s.(mintTxHash := Some(receipt.value.hash), tokenId := tokenId);
        (Ok(Minting(receipt.value.hash, tokenId, c.contractAddress, c.chainId, t)), db.(submissions := db.submissions[id := t]))
  }

  /** The mint endpoint as the route runs it: guards, then `mintNFT` (with its receipt scan), then the update. */
  method MintSubmission(db: Db, id: String, env: Mint.RpcEnv, now: int, send: Mint.TeamMintCall -> Option<Mint.Receipt>)
    returns (reply: Reply<Minting>, db': Db)
    ensures (reply, db') == MintRoute(db, id, env, now, send)
  {
    if id !in db.submissions {
      return Fail(404, "Submission not found"), db;
    }
    var s := db.submissions[id];
    if s.status != "approved" {
      return Fail(400, "Submission must be approved before minting"), db;
    }
    if Truthy(s.mintTxHash) {
      return Fail(400, "Already minted"), db;
    }
    var c := CollectionByName(db.collections, s.mintedToCollection, true);
    if c.None? {
      return Fail(404, "Collection not found"), db;
    }
    var result := Mint.MintNft(MintRequestFor(s, c.value), env, now, send);
    if result.None? {
      return Fail(500, "Minting failed"), db;
    }
    var updated := s.(mintTxHash := Some(result.value.txHash), tokenId := result.value.tokenId);
    reply := Ok(Minting(result.value.txHash, result.value.tokenId, c.value.contractAddress, c.value.chainId, updated));
    db' := db.(submissions := db.submissions[id := updated]);
  }

  // ---------------------------------------------------------------------------
  // share recording

  /** Names every plain object inherits from `Object.prototype`: looking them up in the field map finds a truthy value. */
  const InheritedNames: seq<String> := [
    "constructor", "__proto__", "toString", "toLocaleString", "valueOf", "hasOwnProperty",
    "isPrototypeOf", "propertyIsEnumerable", "__defineGetter__", "__defineSetter__",
    "__lookupGetter__", "__lookupSetter__"]

  datatype ShareColumn = SharedToX | SharedToBluesky | SharedToInstagram

  /** `fieldMap[platform]`: a share column, an inherited member (truthy, not a column), or undefined. */
  datatype Lookup = Column(col: ShareColumn) | Inherited | Missing

  function FieldMap(platform: Option<String>): (l: Lookup)
    ensures l.Column? <==> platform in {Some("x"), Some("bluesky"), Some("instagram")}
  {
    if platform == Some("x") then Column(SharedToX)
    else if platform == Some("bluesky") then Column(SharedToBluesky)
    else if platform == Some("instagram") then Column(SharedToInstagram)
    else if platform.Some? && platform.value in InheritedNames then Inherited
    else Missing
  }

  function Stamp(s: Submission, col: ShareColumn, now: int): Submission {
    match col
    case SharedToX => s.(sharedToX := Some(now))
    case SharedToBluesky => s.(sharedToBluesky := Some(now))
    case SharedToInstagram => s.(sharedToInstagram := Some(now))
  }

  /**
   * `POST /submissions/:id/record-share`: stamps the platform's column. An
   * inherited name passes the guard and makes the update throw (500).
   */
  function RecordShare(db: Db, id: String, platform: Option<String>, now: int): (r: (Reply<Submission>, Db))
    ensures r.0.Ok? <==> FieldMap(platform).Column? && id in db.submissions
    ensures r.0.Ok? ==> r.1 == db.(submissions := db.submissions[id := Stamp(db.submissions[id], FieldMap(platform).col, now)])
    ensures FieldMap(platform).Missing? ==> r.0 == Fail(400, "Invalid platform. Use: x, bluesky, instagram")
    ensures FieldMap(platform).Inherited? ==> r.0 == Fail(500, "Failed to record share")
    ensures FieldMap(platform).Column? && id !in db.submissions ==> r.0 == Fail(500, "Failed to record share")
    ensures r.0.Fail? ==> r.1 == db
    ensures KeepsMintRecords(db, r.1) && r.1.collections == db.collections
  {
    match FieldMap(platform)
    case Missing => (Fail(400, "Invalid platform. Use: x, bluesky, instagram"), db)
    case Inherited => (Fail(500, "Failed to record share"), db)
    case Column(col) =>
      if id !in db.submissions then (Fail(500, "Failed to record share"), db)
      else
        var t := Stamp(db.submissions[id], col, now);
        (Ok(t), db.(submissions := db.submissions[id := t]))
  }

  /** "constructor" is not a platform, but it gets past the 400 guard. */
  lemma ConstructorPassesGuard(db: Db, id: String, now: int)
    ensures RecordShare(db, id, Some("constructor"), now).0 == Fail(500, "Failed to record share")
  {
    assert "constructor" in InheritedNames;
  }

  // ---------------------------------------------------------------------------
  // mint once

  /** The admin actions that write submissions. */
  datatype Action =
    | DoPatch(id: String, body: PatchBody)
    | DoApprove(id: String, collectionId: Option<String>, adminAddress: String, now: int)
    | DoDeny(id: String, adminNotes: Option<String>, adminAddress: String, now: int)
    | DoMint(id: String, env: Mint.RpcEnv, now: int, send: Mint.TeamMintCall -> Option<Mint.Receipt>)
    | DoRecordShare(id: String, platform: Option<String>, now: int)

  function Apply(db: Db, a: Action): Db {
    match a
    case DoPatch(id, body) => PatchSubmission(db, id, body).1
    case DoApprove(id, cid, who, now) => Approve(db, id, cid, who, now).1
    case DoDeny(id, notes, who, now) => Deny(db, id, notes, who, now).1
    case DoMint(id, env, now, send) => MintRoute(db, id, env, now, send).1
    case DoRecordShare(id, platform, now) => RecordShare(db, id, platform, now).1
  }

  function Run(db: Db, actions: seq<Action>): Db
    decreases |actions|
  {
    if actions == [] then db else Run(Apply(db, actions[0]), actions[1..])
  }

  /**
   * Mint once: after a submission is minted, no sequence of admin actions
   * (approving it again included) changes its mint record, and every further
   * mint request for it is refused with 400.
   */
  lemma {:induction false} MintOnce(db: Db, id: String, actions: seq<Action>, env: Mint.RpcEnv, now: int,
                                    send: Mint.TeamMintCall -> Option<Mint.Receipt>)
    requires Minted(db, id)
    ensures Minted(Run(db, actions), id)
    ensures Run(db, actions).submissions[id].mintTxHash == db.submissions[id].mintTxHash
    ensures Run(db, actions).submissions[id].tokenId == db.submissions[id].tokenId
    ensures MintRoute(Run(db, actions), id, env, now, send).0.Fail?
    decreases |actions|
  {
    if actions != [] {
      var db1 := Apply(db, actions[0]);
      assert id in db1.submissions && db1.submissions[id].mintTxHash == db.submissions[id].mintTxHash
        && db1.submissions[id].tokenId == db.submissions[id].tokenId;
      MintOnce(db1, id, actions[1..], env, now, send);
    }
  }
}
