/**
 * The public submission form: when the submit button is enabled, and the
 * payload `handleSubmit` builds from the form fields. The photo is an
 * opaque file; `submitEntry` is the parameter `submit`, whose outcome is
 * acceptance or an error message.
 */
module SubmissionForm {
  import opened Wrappers
  import opened Text
  import opened Handles

  type Photo = seq<bv8>

  /** The form's state: the chosen photo (None is `null`), the five text inputs, the busy flag and the error line. */
  datatype Form = Form(
    photo: Option<Photo>, comment: String, email: String,
    xHandle: String, instagramHandle: String, blueskyHandle: String,
    submitting: bool, error: String)

  /** What `submitEntry` receives; None is `undefined`. */
  datatype Payload = Payload(
    photo: Photo, comment: String,
    xHandle: Option<String>, instagramHandle: Option<String>, blueskyHandle: Option<String>,
    email: Option<String>, walletAddress: String)

  datatype Outcome = Accepted | Rejected(message: String)

  /** `photo && comment.trim() && !submitting`. */
  predicate CanSubmit(f: Form) {
    f.photo.Some? && Trim(f.comment) != [] && !f.submitting
  }

  /** The button is enabled exactly for a photo, a comment that is not white space only, and no submission under way. */
  lemma CanSubmitIff(f: Form)
    ensures CanSubmit(f) <==>
      f.photo.Some? && (exists i :: 0 <= i < |f.comment| && !IsWhitespace(f.comment[i])) && !f.submitting
  {
    TrimEmptyIff(f.comment);
  }

  /** `h.trim().replace(/^@/, '') || undefined`: trimmed, one leading "@" removed, and nothing left is `undefined`. */
  function CleanHandle(h: String): (r: Option<String>)
    ensures r.None? <==> Trim(h) == [] || Trim(h) == "@"
    ensures r.Some? ==> r.value != [] && (Trim(h) == r.value || Trim(h) == "@" + r.value)
    ensures r.Some? && Trim(h)[0] != '@' ==> r.value == Trim(h)
  {
    var t := StripLeadingAt(Trim(h));
    if t == [] then None else Some(t)
  }

  /** A lone "@" is sent as `undefined`. */
  lemma LoneAtIsUndefined()
    ensures CleanHandle("@") == None
  {
    TrimStartNoop("@");
    TrimEndNoop("@");
  }

  /** Only one "@" is removed: "@@bob" is sent as "@bob". */
  lemma DoubleAtKeepsOne()
    ensures CleanHandle("@@bob") == Some("@bob")
  {
    TrimStartNoop("@@bob");
    TrimEndNoop("@@bob");
    assert "@@bob"[1..] == "@bob";
  }

  /** Typing the "@" is optional: a trimmed handle is sent the same with or without one in front. */
  lemma AtIsOptional(t: String)
    requires Trim(t) == t && (t == [] || t[0] != '@')
    ensures CleanHandle("@" + t) == CleanHandle(t)
  {
    var s := "@" + t;
    TrimStartNoop(s);
    if t != [] {
      assert s[|s| - 1] == t[|t| - 1];
      TrimEnds(t);
    }
    TrimEndNoop(s);
  }

  /** A cleaned handle shows in the admin views as "@" and the handle the user typed, whether or not it was typed with the "@". */
  lemma CleanThenDisplay(t: String)
    requires Trim(t) == t && t != [] && t[0] != '@'
    ensures NormalizeHandle(CleanHandle(t)) == "@" + t
    ensures NormalizeHandle(CleanHandle("@" + t)) == "@" + t
  {
    AtIsOptional(t);
  }

  /** `email.trim() || undefined`. */
  function CleanEmail(e: String): (r: Option<String>)
    ensures r.None? <==> Trim(e) == []
    ensures r.Some? ==> r.value == Trim(e)
  {
    if Trim(e) == [] then None else Some(Trim(e))
  }

  /** The payload of an enabled form: the comment trimmed, handles and email cleaned, the wallet address as given. */
  function PayloadOf(f: Form, walletAddress: String): (p: Payload)
    requires CanSubmit(f)
    ensures p.photo == f.photo.value && p.walletAddress == walletAddress
    ensures p.comment == Trim(f.comment) && p.comment != []
    ensures p.xHandle == CleanHandle(f.xHandle) && p.instagramHandle == CleanHandle(f.instagramHandle)
    ensures p.blueskyHandle == CleanHandle(f.blueskyHandle) && p.email == CleanEmail(f.email)
  {
    Payload(f.photo.value, Trim(f.comment), CleanHandle(f.xHandle), CleanHandle(f.instagramHandle),
      CleanHandle(f.blueskyHandle), CleanEmail(f.email), walletAddress)
  }

  /**
   * `handleSubmit`: nothing happens unless the form can be submitted;
   * otherwise the payload is sent and, once `submitEntry` settles, the
   * busy flag is cleared and the error line holds the failure's message
   * (or stays cleared). The payload sent is returned beside the new state.
   */
  function HandleSubmit(f: Form, walletAddress: String, submit: Payload -> Outcome): (r: (Form, Option<Payload>))
    ensures !CanSubmit(f) ==> r == (f, None)
    ensures CanSubmit(f) ==> r.1 == Some(PayloadOf(f, walletAddress))
    ensures CanSubmit(f) ==>
      r.0 == f.(submitting := false,
                error := match submit(r.1.value) case Accepted => "" case Rejected(m) => m)
  {
    if !CanSubmit(f) then (f, None)
    else
      var p := PayloadOf(f, walletAddress);
      var error := match submit(p) case Accepted => "" case Rejected(m) => m;
      (f.(submitting := false, error := error), Some(p))
  }

  /** A form already submitting sends nothing; after a send the form is never left busy, on success or failure. */
  lemma NoDoubleSubmit(f: Form, walletAddress: String, submit: Payload -> Outcome)
    ensures f.submitting ==> HandleSubmit(f, walletAddress, submit).1.None?
    ensures HandleSubmit(f, walletAddress, submit).1.Some? ==> !HandleSubmit(f, walletAddress, submit).0.submitting
    ensures HandleSubmit(f, walletAddress, submit).0.submitting == f.submitting
  {
  }
}
