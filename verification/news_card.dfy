/** One article card in the feed: whether it is rendered at all, and the values its
    buttons show. */
module NewsCard {
  import opened NewsModel
  import opened NewsContext

  /** Only the current card and its two neighbours are rendered. */
  predicate Rendered(index: int, currentIndex: int)
  {
    !(index < currentIndex - 1 || index > currentIndex + 1)
  }

  /** The indices of a feed of `n` articles that are rendered. */
  function RenderedIndices(currentIndex: int, n: nat): (r: set<int>)
    ensures forall i :: i in r <==> 0 <= i < n && currentIndex - 1 <= i <= currentIndex + 1
    ensures |r| <= 3
    ensures 0 <= currentIndex < n ==> currentIndex in r
  {
    var r := set i | 0 <= i < n && Rendered(i, currentIndex);
    assert r <= {currentIndex - 1, currentIndex, currentIndex + 1};
    SubsetCardinality(r, {currentIndex - 1, currentIndex, currentIndex + 1});
    r
  }

  lemma SubsetCardinality(a: set<int>, b: set<int>)
    requires a <= b
    ensures |a| <= |b|
  {
    assert b == a + (b - a);
  }

  /** What a card shows for an article, given the context's lists and language. */
  datatype CardView = CardView(liked: bool, bookmarked: bool, languageLabel: string)

  function LanguageLabel(l: Language): (text: string)
    ensures text == "EN" <==> l == En
    ensures text == "EN" || text == "HI"
  {
    if l == En then "EN" else "HI"
  }

  /** What a card shows: the heart is filled iff some liked article has this card's id,
      the bookmark iff some bookmarked one has. */
  function View(item: Article, bookmarks: seq<Article>, likes: seq<Article>, language: Language): (v: CardView)
    ensures v.liked <==> exists a :: a in likes && a.id == item.id
    ensures v.bookmarked <==> exists a :: a in bookmarks && a.id == item.id
  {
    CardView(ContainsId(likes, item.id), ContainsId(bookmarks, item.id), LanguageLabel(language))
  }

  /** The Like button flips this card's heart and nothing else: not its bookmark, and not
      the heart of any card with another id. */
  lemma LikeTogglesOnlyThisCard(item: Article, other: Article, bookmarks: seq<Article>,
                                likes: seq<Article>, language: Language)
    ensures View(item, bookmarks, Toggled(likes, item), language).liked == !View(item, bookmarks, likes, language).liked
    ensures View(item, bookmarks, Toggled(likes, item), language).bookmarked == View(item, bookmarks, likes, language).bookmarked
    ensures other.id != item.id ==>
              View(other, bookmarks, Toggled(likes, item), language) == View(other, bookmarks, likes, language)
  {
    ToggleFlipsOnlyThisId(likes, item);
  }

  /** The Save button flips this card's bookmark and nothing else. */
  lemma SaveTogglesOnlyThisCard(item: Article, other: Article, bookmarks: seq<Article>,
                                likes: seq<Article>, language: Language)
    ensures View(item, Toggled(bookmarks, item), likes, language).bookmarked == !View(item, bookmarks, likes, language).bookmarked
    ensures View(item, Toggled(bookmarks, item), likes, language).liked == View(item, bookmarks, likes, language).liked
    ensures other.id != item.id ==>
              View(other, Toggled(bookmarks, item), likes, language) == View(other, bookmarks, likes, language)
  {
    ToggleFlipsOnlyThisId(bookmarks, item);
  }
}
