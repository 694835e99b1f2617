/**
 * Social-handle normalisation, written identically in the share-URL route of
 * the admin API and in the admin share panel:
 * `h ? '@' + h.replace(/^@/, '') : ''`.
 */
module Handles {
  import opened Wrappers
  import opened Text

  /**
   * A falsy handle becomes ""; any other handle gets exactly one "@" in front
   * of it: the input itself when it already starts with "@", the input with
   * "@" prepended otherwise.
   */
  function NormalizeHandle(h: Option<String>): (r: String)
    ensures r == [] <==> !Truthy(h)
    ensures r != [] ==> r[0] == '@'
    ensures Truthy(h) && h.value[0] == '@' ==> r == h.value
    ensures Truthy(h) && h.value[0] != '@' ==> r == "@" + h.value
  {
    if Truthy(h) then "@" + StripLeadingAt(h.value) else ""
  }

  /** Normalising an already normalised handle changes nothing. */
  lemma NormalizeIdempotent(h: Option<String>)
    ensures NormalizeHandle(Some(NormalizeHandle(h))) == NormalizeHandle(h)
  {
  }
}
