/** The search step of the SERP analyst: the deterministic placeholder
    results and the choice between them and the search service's organic
    results. */
module Serp {
  import opened Text
  import opened Settings

  /** One search result as the analyst receives it. Real organic results
      carry further keys, which are not part of this model. */
  datatype SerpEntry = SerpEntry(position: int, title: string, link: string, snippet: string)

  /** The number of placeholder results, and the cut applied to real ones. */
  const ResultLimit: nat := 10

  const TitleHead := "Result "
  const TitleTail := " - Example Site"
  const LinkHead := "https://example"
  const LinkHost := ".com/"
  const SnippetHead := "This is a comprehensive guide about "
  const SnippetTail := ". Learn everything you need to know..."

  function MockTitle(query: string, n: nat): string {
    TitleHead + NatToDecimal(n) + ": " + query + TitleTail
  }

  function MockLink(query: string, n: nat): string {
    LinkHead + NatToDecimal(n) + LinkHost + ReplaceChar(query, ' ', '-')
  }

  function MockSnippet(query: string): string {
    SnippetHead + query + SnippetTail
  }

  function MockEntry(query: string, n: nat): SerpEntry {
    SerpEntry(n, MockTitle(query, n), MockLink(query, n), MockSnippet(query))
  }

  /** The placeholder results: ten entries, ranked 1 to 10 in order. */
  function MockSerpResults(query: string): (r: seq<SerpEntry>)
    ensures |r| == ResultLimit
    ensures forall i :: 0 <= i < |r| ==> r[i].position == i + 1
    ensures forall i, j :: 0 <= i < j < |r| ==> r[i].position < r[j].position
    ensures forall i :: 0 <= i < |r| ==> r[i] == MockEntry(query, r[i].position)
  {
    seq(ResultLimit, i requires 0 <= i < ResultLimit => MockEntry(query, i + 1))
  }

  /** The title is the query framed by a fixed head and tail, so the query
      can be read back from it. */
  lemma MockTitleRecoversQuery(query: string, n: nat)
    ensures var t := MockTitle(query, n);
      var lo := |TitleHead + NatToDecimal(n) + ": "|;
      lo + |query| + |TitleTail| == |t| && t[lo..lo + |query|] == query
  {
  }

  /** The snippet is the query framed by a fixed head and tail. */
  lemma MockSnippetRecoversQuery(query: string)
    ensures var s := MockSnippet(query);
      |SnippetHead| + |query| + |SnippetTail| == |s| && s[|SnippetHead|..|SnippetHead| + |query|] == query
  {
  }

  /** A placeholder link contains no space, whatever the query: the rank is
      digits and every space of the query became a hyphen. */
  lemma MockLinkHasNoSpace(query: string, n: nat)
    ensures ' ' !in MockLink(query, n)
  {
    ReplaceCharRemoves(query, ' ', '-');
  }

  /** Every placeholder result embeds the query verbatim in its title and its
      snippet, and carries a link without spaces. */
  lemma MockResultsEmbedQuery(query: string)
    ensures forall i :: 0 <= i < ResultLimit ==>
      && IsInfix(query, MockSerpResults(query)[i].title)
      && IsInfix(query, MockSerpResults(query)[i].snippet)
      && ' ' !in MockSerpResults(query)[i].link
  {
    var r := MockSerpResults(query);
    forall i | 0 <= i < ResultLimit
      ensures IsInfix(query, r[i].title) && IsInfix(query, r[i].snippet) && ' ' !in r[i].link
    {
      var n := i + 1;
      assert r[i] == MockEntry(query, n);
      MockTitleRecoversQuery(query, n);
      var lo := |TitleHead + NatToDecimal(n) + ": "|;
      assert r[i].title[lo..lo + |query|] == query;
      MockSnippetRecoversQuery(query);
      assert r[i].snippet[|SnippetHead|..|SnippetHead| + |query|] == query;
      MockLinkHasNoSpace(query, n);
    }
  }

  /** What the search service call produced: the organic results of a
      successful response (an empty list when the key is absent), or an
      exception of any kind. */
  datatype SearchReply = Organic(results: seq<SerpEntry>) | SearchFailed(reason: string)

  /** `search_serp`: the placeholders when no search key is configured or the
      call raised; otherwise at most ten organic results, in their order. */
  function SearchSerp(query: string, serpKey: string, reply: SearchReply): (r: seq<SerpEntry>)
    ensures |r| <= ResultLimit
    ensures serpKey == "" ==> r == MockSerpResults(query)
    ensures reply.SearchFailed? ==> r == MockSerpResults(query)
    ensures serpKey != "" && reply.Organic? ==>
      && |r| == (if |reply.results| < ResultLimit then |reply.results| else ResultLimit)
      && r == reply.results[..|r|]
  {
    if serpKey == "" then MockSerpResults(query)
    else match reply
      case Organic(results) => Take(results, ResultLimit)
      case SearchFailed(_) => MockSerpResults(query)
  }

  /** The analyst's own `[:10]` cut of the search results changes nothing. */
  lemma SecondCutIsNoOp(query: string, serpKey: string, reply: SearchReply)
    ensures Take(SearchSerp(query, serpKey, reply), ResultLimit) == SearchSerp(query, serpKey, reply)
  {
  }

  /** `/status` reports "mock_mode" exactly when the search step returns the
      placeholders whatever the search service would answer. */
  lemma StatusMockModeMatchesSearch(cfg: Config, query: string)
    ensures GetStatus(cfg).serp == "mock_mode"
      <==> forall reply :: SearchSerp(query, cfg.serpKey, reply) == MockSerpResults(query)
  {
    if cfg.serpKey != "" {
      assert SearchSerp(query, cfg.serpKey, Organic([])) == [];
      assert |MockSerpResults(query)| == ResultLimit;
    }
  }
}
