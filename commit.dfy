/**
 * The address-bar commit rule: the typed text is either loaded as it is,
 * when it looks like an address, or sent to DuckDuckGo as a search query.
 */
module Commit {
  import opened Wrappers

  /** The page the activity opens first, and the text the bar starts with. */
  const InitialUrl: string := "https://www.mozilla.org"

  /** The search endpoint; the typed text is appended to it unencoded. */
  const SearchUriBase: string := "https://duckduckgo.com/?q="

  /** Text that contains a '.' or a ':' and no space is taken for an address. */
  predicate LooksLikeAddress(text: string) {
    ('.' in text || ':' in text) && ' ' !in text
  }

  /** The URI a commit of `text` asks the engine to load. */
  function CommitTarget(text: string): (uri: string)
    ensures uri == text <==> LooksLikeAddress(text)
    ensures uri != text ==> uri == SearchUriBase + text
  {
    if LooksLikeAddress(text) then text else SearchUriBase + text
  }

  /** The query of a search URI, or None for a URI that is not one. */
  function SearchQuery(uri: string): (q: Option<string>)
    ensures q.Some? ==> uri == SearchUriBase + q.value
  {
    if |uri| >= |SearchUriBase| && uri[..|SearchUriBase|] == SearchUriBase
    then
      assert uri == SearchUriBase + uri[|SearchUriBase|..];
      Some(uri[|SearchUriBase|..])
    else None
  }

  /** Text that is not taken for an address is recovered whole from the search URI. */
  lemma SearchQueryRoundTrip(text: string)
    requires !LooksLikeAddress(text)
    ensures SearchQuery(CommitTarget(text)) == Some(text)
  {
    var uri := SearchUriBase + text;
    assert uri[..|SearchUriBase|] == SearchUriBase;
    assert uri[|SearchUriBase|..] == text;
  }

  /**
   * Committing the loaded URI again loads the same URI exactly when the
   * typed text had no space: a space survives into the unencoded search URI,
   * so that URI is itself not taken for an address.
   */
  lemma RecommitIsStableIffNoSpace(text: string)
    ensures CommitTarget(CommitTarget(text)) == CommitTarget(text) <==> ' ' !in text
  {
    if !LooksLikeAddress(text) {
      var uri := SearchUriBase + text;
      assert uri[5] == ':' && ' ' !in SearchUriBase;
      assert ' ' in uri <==> ' ' in text by {
        if ' ' in text {
          var k :| 0 <= k < |text| && text[k] == ' ';
          assert uri[|SearchUriBase| + k] == ' ';
        }
      }
    }
  }

  /** The bar's initial text, committed unchanged, reloads the initial page. */
  lemma InitialUrlLoadsVerbatim()
    ensures CommitTarget(InitialUrl) == InitialUrl
  {
    assert InitialUrl[5] == ':';
  }
}
