/** The news page: a fixed list of articles narrowed by a category button
    and a search box, a "Trending Now" strip and the category buttons'
    labels. */
module News {
  import opened Text

  datatype Article = Article(id: nat, title: string, excerpt: string, category: string, date: string, trending: bool)

  /** The filter buttons; "all" shows every category. */
  const Categories: seq<string> := ["all", "phishing", "scams", "malware", "updates"]

  const NewsArticles: seq<Article> := [
    Article(1, "New Phishing Campaign Targets Banking Customers",
      "Security researchers have discovered a sophisticated phishing campaign targeting major bank customers with fake SMS messages...",
      "phishing", "2025-11-27", true),
    Article(2, "FBI Warns of Cryptocurrency Scam Surge",
      "The FBI reports a 300% increase in cryptocurrency-related scams, with losses exceeding $1 billion in the past year...",
      "scams", "2025-11-26", true),
    Article(3, "SpamShield Updates Detection Algorithm",
      "Our latest AI model update improves spam detection accuracy to 99.8%, with enhanced real-time phishing protection...",
      "updates", "2025-11-25", false),
    Article(4, "New Malware Spreads Through Fake Package Delivery Texts",
      "Cybersecurity experts warn about malicious software disguised as package delivery notifications targeting smartphone users...",
      "malware", "2025-11-24", false),
    Article(5, "Social Engineering Tactics Evolve with AI",
      "Scammers are now using AI-generated voices and deepfakes to make their phishing attempts more convincing...",
      "phishing", "2025-11-23", true),
    Article(6, "Holiday Season Scams: What to Watch Out For",
      "As holiday shopping peaks, scammers are exploiting fake discount codes and fraudulent online stores...",
      "scams", "2025-11-22", false)
  ]

  predicate MatchesCategory(a: Article, selected: string) {
    selected == "all" || a.category == selected
  }

  /** Case-insensitive search in the title or the excerpt. */
  predicate MatchesSearch(a: Article, query: string) {
    Contains(Lower(a.title), Lower(query)) || Contains(Lower(a.excerpt), Lower(query))
  }

  predicate Matches(a: Article, selected: string, query: string) {
    MatchesCategory(a, selected) && MatchesSearch(a, query)
  }

  /** The articles shown for the selected category and search text. */
  function Filtered(articles: seq<Article>, selected: string, query: string): seq<Article> {
    Filter(articles, a => Matches(a, selected, query))
  }

  /** Exactly the matching articles are shown, in their list order. */
  lemma FilteredKeepsMatches(articles: seq<Article>, selected: string, query: string)
    ensures var r := Filtered(articles, selected, query);
            forall i :: 0 <= i < |r| ==> r[i] in articles && MatchesCategory(r[i], selected) && MatchesSearch(r[i], query)
    ensures var r := Filtered(articles, selected, query);
            forall i :: 0 <= i < |articles| && Matches(articles[i], selected, query) ==> articles[i] in r
    ensures Subsequence(Filtered(articles, selected, query), articles)
  {
    FilterMembers(articles, a => Matches(a, selected, query));
    FilterSubsequence(articles, a => Matches(a, selected, query));
  }

  /** With "all" selected and an empty search box every article is shown. */
  lemma {:induction false} UnfilteredShowsAll(articles: seq<Article>)
    ensures Filtered(articles, "all", "") == articles
  {
    if articles != [] {
      var init := articles[..|articles| - 1];
      UnfilteredShowsAll(init);
      var a := articles[|articles| - 1];
      assert Lower("") == "";
      ContainsEmpty(Lower(a.title));
      assert Matches(a, "all", "");
      assert articles == init + [a];
    }
  }

  predicate IsTrending(a: Article) { a.trending }

  /** "Trending Now": the first two trending articles among those shown. */
  function Trending(shown: seq<Article>): (r: seq<Article>)
    ensures |r| == if |Filter(shown, IsTrending)| < 2 then |Filter(shown, IsTrending)| else 2
    ensures r == Filter(shown, IsTrending)[..|r|]
  {
    Take(Filter(shown, IsTrending), 2)
  }

  /** Every article in the strip is trending and shown. */
  lemma TrendingAreShownAndTrending(shown: seq<Article>)
    ensures forall i :: 0 <= i < |Trending(shown)| ==> Trending(shown)[i] in shown && Trending(shown)[i].trending
  {
    FilterMembers(shown, IsTrending);
    var t := Filter(shown, IsTrending);
    assert forall i :: 0 <= i < |Trending(shown)| ==> Trending(shown)[i] == t[i];
  }

  /** When the first two articles shown are trending, they are the strip. */
  lemma TrendingLeadingPair(shown: seq<Article>)
    requires |shown| >= 2 && shown[0].trending && shown[1].trending
    ensures Trending(shown) == shown[..2]
  {
    assert shown[..2] == [] + [shown[0]] + [shown[1]];
    FilterSnoc([], shown[0], IsTrending);
    FilterSnoc([shown[0]], shown[1], IsTrending);
    assert Filter(shown[..2], IsTrending) == shown[..2];
    FilterPrefix(shown, IsTrending, 2);
  }

  /** Unfiltered, the strip holds the first two articles. */
  lemma TrendingUnfiltered()
    ensures Trending(Filtered(NewsArticles, "all", "")) == NewsArticles[..2]
  {
    UnfilteredShowsAll(NewsArticles);
    TrendingLeadingPair(NewsArticles);
  }

  /** A category button's label: its first character upper-cased. */
  function CategoryLabel(category: string): (shown: string)
    ensures |shown| == |category|
    ensures category != [] ==> shown[0] == UpperChar(category[0]) && shown[1..] == category[1..]
    ensures Lower(shown) == Lower(category)
  {
    if category == [] then [] else [UpperChar(category[0])] + category[1..]
  }

  /** The five buttons read All, Phishing, Scams, Malware and Updates. */
  lemma CategoryLabels()
    ensures seq(|Categories|, i requires 0 <= i < |Categories| => CategoryLabel(Categories[i]))
            == ["All", "Phishing", "Scams", "Malware", "Updates"]
  {
    assert CategoryLabel("all") == "All";
    assert CategoryLabel("phishing") == "Phishing";
    assert CategoryLabel("scams") == "Scams";
    assert CategoryLabel("malware") == "Malware";
    assert CategoryLabel("updates") == "Updates";
  }
}
