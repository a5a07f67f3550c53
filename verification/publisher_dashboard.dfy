/** The publisher studio: the shared add-news form with six categories, and a logout
    that returns to the feed. */
module PublisherDashboard {
  import opened NewsModel
  import opened NewsContext
  import opened NewsEditor

  /** The category choices, in menu order. */
  const Categories: seq<string> := ["General", "Tech", "Business", "Entertainment", "Sports", "Politics"]

  /** The reset draft's category is one of the choices, and the choices are distinct. */
  lemma CategoriesWellFormed()
    ensures EmptyDraft.category in Categories && Categories[0] == DefaultCategory
    ensures forall i, j :: 0 <= i < j < |Categories| ==> Categories[i] != Categories[j]
  {
  }

  /** `handleLogout`: log out, then go to the feed. */
  method HandleLogout(ctx: NewsProvider) returns (navigateTo: string)
    modifies ctx
    ensures navigateTo == "/"
    ensures ctx.user.None? && ctx.storage == old(ctx.storage) - {NewsContext.UserKey, TokenKey}
    ensures ctx.bookmarks == old(ctx.bookmarks) && ctx.likes == old(ctx.likes) && ctx.news == old(ctx.news)
    ensures ctx.loading == old(ctx.loading) && ctx.language == old(ctx.language) && ctx.isSidebarOpen == old(ctx.isSidebarOpen)
  {
    ctx.Logout();
    navigateTo := "/";
  }
}
