/**
 * The two database records the admin routes read and write, and the
 * lookups they use. The database itself is a value: a map from submission
 * id to submission and the collections in the order `findFirst` meets them.
 */
module Records {
  import opened Wrappers
  import opened Text

  datatype Submission = Submission(
    comment: String,
    xHandle: Option<String>,
    instagramHandle: Option<String>,
    blueskyHandle: Option<String>,
    email: Option<String>,
    walletAddress: String,
    photoIpfsUrl: String,
    photoGatewayUrl: Option<String>,
    status: String,
    mintedToCollection: Option<String>,
    reviewedBy: Option<String>,
    reviewedAt: Option<int>,
    adminNotes: Option<String>,
    mintTxHash: Option<String>,
    tokenId: Option<String>,
    sharedToX: Option<int>,
    sharedToBluesky: Option<int>,
    sharedToInstagram: Option<int>,
    createdAt: int)

  datatype Collection = Collection(id: String, name: String, contractAddress: String, chainId: int, active: bool)

  datatype Db = Db(submissions: map<String, Submission>, collections: seq<Collection>)

  /** `nftCollection.findUnique({ where: { id } })`. */
  function CollectionById(collections: seq<Collection>, id: String): (r: Option<Collection>)
    ensures r.Some? ==> r.value in collections && r.value.id == id
    ensures r.None? ==> forall c :: c in collections ==> c.id != id
  {
    if collections == [] then None
    else if collections[0].id == id then Some(collections[0])
    else CollectionById(collections[1..], id)
  }

  /**
   * `nftCollection.findFirst({ where: { name, active: true } })` when
   * `activeOnly`, without the `active` condition otherwise; a null name
   * matches no collection.
   */
  function CollectionByName(collections: seq<Collection>, name: Option<String>, activeOnly: bool): (r: Option<Collection>)
    ensures r.Some? ==> r.value in collections && name == Some(r.value.name) && (activeOnly ==> r.value.active)
    ensures r.None? ==> forall c :: c in collections ==> !(name == Some(c.name) && (activeOnly ==> c.active))
  {
    if collections == [] then None
    else if name == Some(collections[0].name) && (activeOnly ==> collections[0].active) then Some(collections[0])
    else CollectionByName(collections[1..], name, activeOnly)
  }

  /** A submission has been minted once its transaction hash is recorded. */
  predicate Minted(db: Db, id: String) {
    id in db.submissions && Truthy(db.submissions[id].mintTxHash)
  }

  /** Every submission is kept, with its mint record (hash and token id) unchanged. */
  predicate KeepsMintRecords(db: Db, db': Db) {
    && db.submissions.Keys <= db'.submissions.Keys
    && forall id :: id in db.submissions ==>
         db'.submissions[id].mintTxHash == db.submissions[id].mintTxHash
         && db'.submissions[id].tokenId == db.submissions[id].tokenId
  }

  /** Rewriting one submission without touching its hash or token id keeps every mint record. */
  lemma UpdateKeepsMintRecords(db: Db, id: String, t: Submission)
    requires id in db.submissions
    requires t.mintTxHash == db.submissions[id].mintTxHash && t.tokenId == db.submissions[id].tokenId
    ensures KeepsMintRecords(db, db.(submissions := db.submissions[id := t]))
  {
  }
}
