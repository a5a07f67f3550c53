/** The feed page: vertical swipes step through the articles one at a time, a
    right-to-left pan opens the detail panel, and three dot buttons switch between the
    sidebar, the feed and the detail panel. Gesture offsets are in pixels. */
module Home {
  import opened Common
  import opened NewsModel
  import opened NewsContext

  /** The vertical swipe threshold, and the horizontal drift beyond which a drag is
      not taken as vertical. */
  const SwipeThreshold: int := 50
  const MaxDrift: int := 50
  /** How far left a pan must go to open the details, and the vertical slack it allows. */
  const DetailPan: int := -60
  const DetailSlack: int := 50

  function Abs(v: int): nat
  {
    if v < 0 then -v else v
  }

  /** The index after a drag that ends at offset (x, y) over a feed of `n` articles:
      up (y < -50) moves to the next article, down (y > 50) to the previous one, and only
      while the drag stayed roughly vertical and there is an article to move to. */
  function NextIndex(i: int, n: int, x: int, y: int): (r: int)
    ensures 0 <= i < n ==> 0 <= r < n
    ensures -1 <= r - i <= 1
    ensures Abs(x) >= MaxDrift ==> r == i
    ensures -SwipeThreshold <= y <= SwipeThreshold ==> r == i
    ensures r == i + 1 <==> Abs(x) < MaxDrift && y < -SwipeThreshold && i < n - 1
    ensures r == i - 1 <==> Abs(x) < MaxDrift && y > SwipeThreshold && i > 0
  {
    if Abs(x) < MaxDrift then
      if y < -SwipeThreshold then (if i < n - 1 then i + 1 else i)
      else if y > SwipeThreshold then (if i > 0 then i - 1 else i)
      else i
    else i
  }

  /** An up-swipe on the last article and a down-swipe on the first change nothing. */
  lemma SwipesStopAtEnds(n: int, x: int, y: int)
    requires n > 0
    ensures y < -SwipeThreshold ==> NextIndex(n - 1, n, x, y) == n - 1
    ensures y > SwipeThreshold ==> NextIndex(0, n, x, y) == 0
  {
  }

  /** What the page shows: a loading text, an empty-feed text, or the feed with the
      article at the current index (absent when the index is out of range). */
  datatype Screen = LoadingScreen | EmptyScreen | FeedScreen(current: Option<Article>)

  function ScreenFor(loading: bool, news: seq<Article>, currentIndex: int): (s: Screen)
    ensures s.FeedScreen? <==> !loading && news != []
    ensures loading ==> s == LoadingScreen
    ensures s.FeedScreen? && 0 <= currentIndex < |news| ==> s.current == Some(news[currentIndex])
  {
    if loading then LoadingScreen
    else if news == [] then EmptyScreen
    else FeedScreen(if 0 <= currentIndex < |news| then Some(news[currentIndex]) else None)
  }

  datatype Dot = SidebarDot | FeedDot | DetailDot

  /** The dots drawn highlighted: left while the sidebar is open, center while neither
      panel is, right while the details are. */
  function LitDots(isSidebarOpen: bool, showDetail: bool): (lit: set<Dot>)
    ensures lit != {}
    ensures SidebarDot in lit <==> isSidebarOpen
    ensures DetailDot in lit <==> showDetail
  {
    (if isSidebarOpen then {SidebarDot} else {})
    + (if !isSidebarOpen && !showDetail then {FeedDot} else {})
    + (if showDetail then {DetailDot} else {})
  }

  /** The page's own state. */
  class HomeFeed {
    var currentIndex: int
    var showDetail: bool

    constructor ()
      ensures currentIndex == 0 && !showDetail
    {
      currentIndex, showDetail := 0, false;
    }

    /** `handleDragEnd`. */
    method HandleDragEnd(ctx: NewsProvider, x: int, y: int)
      modifies this
      ensures currentIndex == NextIndex(old(currentIndex), |ctx.news|, x, y)
      ensures showDetail == old(showDetail)
    {
      if Abs(x) < MaxDrift {
        if y < -SwipeThreshold {
          if currentIndex < |ctx.news| - 1 {
            currentIndex := currentIndex + 1;
          }
        } else if y > SwipeThreshold {
          if currentIndex > 0 {
            currentIndex := currentIndex - 1;
          }
        }
      }
    }

    /** `handlePanEnd`: opens the details on a leftward, nearly horizontal pan, and
        never closes them. */
    method HandlePanEnd(x: int, y: int)
      modifies this
      ensures showDetail == (old(showDetail) || (x < DetailPan && Abs(y) < DetailSlack))
      ensures currentIndex == old(currentIndex)
    {
      if x < DetailPan && Abs(y) < DetailSlack {
        showDetail := true;
      }
    }

    /** The left dot: details closed, sidebar open. */
    method LeftDot(ctx: NewsProvider)
      modifies this, ctx
      ensures !showDetail && ctx.isSidebarOpen
      ensures LitDots(ctx.isSidebarOpen, showDetail) == {SidebarDot}
      ensures currentIndex == old(currentIndex)
      ensures ctx.news == old(ctx.news) && ctx.bookmarks == old(ctx.bookmarks) && ctx.likes == old(ctx.likes)
      ensures ctx.storage == old(ctx.storage) && ctx.user == old(ctx.user) && ctx.language == old(ctx.language)
      ensures ctx.loading == old(ctx.loading)
    {
      showDetail := false;
      ctx.OpenSidebar();
    }

    /** The center dot: back to the feed, with both panels closed. */
    method CenterDot(ctx: NewsProvider)
      modifies this, ctx
      ensures !showDetail && !ctx.isSidebarOpen
      ensures LitDots(ctx.isSidebarOpen, showDetail) == {FeedDot}
      ensures currentIndex == old(currentIndex)
      ensures ctx.news == old(ctx.news) && ctx.bookmarks == old(ctx.bookmarks) && ctx.likes == old(ctx.likes)
      ensures ctx.storage == old(ctx.storage) && ctx.user == old(ctx.user) && ctx.language == old(ctx.language)
      ensures ctx.loading == old(ctx.loading)
    {
      ctx.CloseSidebar();
      showDetail := false;
    }

    /** The right dot: sidebar closed, details open. */
    method RightDot(ctx: NewsProvider)
      modifies this, ctx
      ensures showDetail && !ctx.isSidebarOpen
      ensures LitDots(ctx.isSidebarOpen, showDetail) == {DetailDot}
      ensures currentIndex == old(currentIndex)
      ensures ctx.news == old(ctx.news) && ctx.bookmarks == old(ctx.bookmarks) && ctx.likes == old(ctx.likes)
      ensures ctx.storage == old(ctx.storage) && ctx.user == old(ctx.user) && ctx.language == old(ctx.language)
      ensures ctx.loading == old(ctx.loading)
    {
      ctx.CloseSidebar();
      showDetail := true;
    }
  }
}
