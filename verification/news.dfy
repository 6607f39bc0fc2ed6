/** The news page: a fixed list of articles and the discipline filter over it. */
module NewsPage {

  /** An article; the emoji image is not modelled. */
  datatype Article = Article(id: int, title: string, discipline: string, summary: string, date: string)

  /** The three articles the page ships with, newest first. */
  const MockArticles: seq<Article> := [
    Article(1, "NEW MUAY THAI DISCIPLINE COMING SOON", "Muay Thai",
      "The art of eight limbs will be available next month. Master devastating elbow and knee strikes.", "2024-02-15"),
    Article(2, "BOXING FUNDAMENTALS UPDATE", "Boxing",
      "New advanced combinations and defensive techniques added to the Boxing curriculum.", "2024-02-10"),
    Article(3, "INTRODUCING RANK CHALLENGES", "All",
      "Test your skills with rank-specific challenges and earn bonus XP.", "2024-02-05")
  ]

  /** The filter buttons, in display order. */
  const Selections: seq<string> := ["All", "Boxing", "Muay Thai", "BJJ", "General"]

  /** `xs` is `ys` with some elements left out, the rest in their order. */
  predicate Subsequence<T(==)>(xs: seq<T>, ys: seq<T>)
    decreases |ys|
  {
    if xs == [] then true
    else if ys == [] then false
    else if xs[0] == ys[0] then Subsequence(xs[1..], ys[1..])
    else Subsequence(xs, ys[1..])
  }

  /** The articles whose discipline is exactly `selection`, in their order. */
  function WithDiscipline(articles: seq<Article>, selection: string): (r: seq<Article>)
    ensures forall a :: a in r <==> a in articles && a.discipline == selection
    ensures |r| <= |articles|
    ensures Subsequence(r, articles)
    ensures forall a :: multiset(r)[a] == if a.discipline == selection then multiset(articles)[a] else 0
    decreases |articles|
  {
    if articles == [] then []
    else
      assert articles == [articles[0]] + articles[1..];
      if articles[0].discipline == selection then [articles[0]] + WithDiscipline(articles[1..], selection)
      else WithDiscipline(articles[1..], selection)
  }

  /** `filteredArticles`: everything under "All", otherwise the articles of the selected discipline. */
  function Filtered(articles: seq<Article>, selection: string): (r: seq<Article>)
    ensures selection == "All" ==> r == articles
    ensures selection != "All" ==> forall a :: a in r <==> a in articles && a.discipline == selection
    ensures Subsequence(r, articles)
  {
    if selection == "All" then
      SubsequenceRefl(articles);
      articles
    else WithDiscipline(articles, selection)
  }

  /** Every sequence is a subsequence of itself. */
  lemma {:induction false} SubsequenceRefl<T>(xs: seq<T>)
    ensures Subsequence(xs, xs)
    decreases |xs|
  {
    if xs != [] {
      SubsequenceRefl(xs[1..]);
    }
  }

  /** Filtering an already filtered list with the same selection changes nothing. */
  lemma {:induction false} WithDisciplineIdempotent(articles: seq<Article>, selection: string)
    ensures WithDiscipline(WithDiscipline(articles, selection), selection) == WithDiscipline(articles, selection)
    decreases |articles|
  {
    if articles != [] {
      WithDisciplineIdempotent(articles[1..], selection);
      var rest := WithDiscipline(articles[1..], selection);
      if articles[0].discipline == selection {
        assert ([articles[0]] + rest)[1..] == rest;
      }
    }
  }

  lemma FilteredIdempotent(articles: seq<Article>, selection: string)
    ensures Filtered(Filtered(articles, selection), selection) == Filtered(articles, selection)
  {
    if selection != "All" {
      WithDisciplineIdempotent(articles, selection);
    }
  }

  /** Of the filter buttons, only "All" shows the whole list. */
  lemma OnlyAllShowsEverything()
    ensures forall s :: s in Selections ==> (Filtered(MockArticles, s) == MockArticles <==> s == "All")
  {
    assert Selections == ["All", "Boxing", "Muay Thai", "BJJ", "General"];
    DisciplineSelections();
    EmptySelections();
  }

  /** "BJJ" and "General" have no articles. */
  lemma EmptySelections()
    ensures Filtered(MockArticles, "BJJ") == []
    ensures Filtered(MockArticles, "General") == []
  {
  }

  /** The article tagged "All" shows only under the "All" selection, not under any discipline. */
  lemma AllTaggedOnlyUnderAll(selection: string)
    ensures MockArticles[2] in Filtered(MockArticles, selection) <==> selection == "All"
  {
  }

  /** Each discipline button shows exactly its one article. */
  lemma DisciplineSelections()
    ensures Filtered(MockArticles, "Boxing") == [MockArticles[1]]
    ensures Filtered(MockArticles, "Muay Thai") == [MockArticles[0]]
  {
  }
}
