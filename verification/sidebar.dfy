/** The navigation drawer: its menu entries, which one is highlighted, and the
    edge swipe that opens it. */
module Sidebar {
  import opened Common
  import opened PublisherRequestModel
  import opened PublisherRoutes
  import opened AuthRoutes
  import opened NewsContext

  /** A menu entry; an entry without a `disabled` key is enabled. */
  datatype NavItem = NavItem(path: string, caption: string, disabled: bool)

  const HomeItem: NavItem := NavItem("/", "Home", false)
  const SavedItem: NavItem := NavItem("/bookmarks", "Saved", false)
  const StudioItem: NavItem := NavItem("/publisher-dashboard", "Publisher Studio", false)
  const PendingItem: NavItem := NavItem("#", "Application Pending", true)
  const BecomePublisherItem: NavItem := NavItem("/publisher-guidelines", "Become Publisher", false)

  /** How far right the edge pan must go to open the drawer. */
  const EdgeSwipe: int := 30

  /** `user.id || user._id`: the login reply names the id `id`, /me names it `_id`. */
  function UserIdOf(u: ClientUser): (r: Option<ObjectId>)
    ensures u.id.Some? ==> r == u.id
    ensures u.id.None? ==> r == u.docId
  {
    if u.id.Some? then u.id else u.docId
  }

  /** `navItems`, for the signed-in user (if any) and the publisher status fetched for them
      ("none" until a status arrives). */
  function NavItems(user: Option<ClientUser>, publisherStatus: string): (items: seq<NavItem>)
    ensures |items| >= 1 && items[0] == HomeItem
    ensures user.None? <==> |items| == 1
    ensures user.Some? ==> |items| == 3 && items[1] == SavedItem
    ensures user.Some? && user.value.isPublisher ==> items[2] == StudioItem
    ensures user.Some? && !user.value.isPublisher ==>
              items[2] == (if publisherStatus == "pending" then PendingItem else BecomePublisherItem)
  {
    [HomeItem]
    + (if user.Some? then
         [SavedItem]
         + (if user.value.isPublisher then [StudioItem]
            else [NavItem(if publisherStatus == "pending" then "#" else "/publisher-guidelines",
                          if publisherStatus == "pending" then "Application Pending" else "Become Publisher",
                          publisherStatus == "pending")])
       else [])
  }

  /** `isActive(path)`: the entry for the page being shown. */
  predicate IsActive(pathname: string, path: string)
  {
    pathname == path
  }

  /** The entries have distinct paths, so at most one of them is highlighted; the only
      disabled entry is the pending application. */
  lemma AtMostOneActive(user: Option<ClientUser>, publisherStatus: string, pathname: string)
    ensures var items := NavItems(user, publisherStatus);
            forall i, j ::
              (0 <= i < |items| && 0 <= j < |items| && IsActive(pathname, items[i].path) && IsActive(pathname, items[j].path))
              ==> i == j
    ensures var items := NavItems(user, publisherStatus);
            forall i :: 0 <= i < |items| && items[i].disabled ==> items[i] == PendingItem
  {
    var items := NavItems(user, publisherStatus);
    assert forall i :: 0 <= i < |items| ==> items[i] in {HomeItem, SavedItem, StudioItem, PendingItem, BecomePublisherItem};
  }

  /** The drawer shows "Application Pending" to a signed-in non-publisher exactly when the
      status route reports that their newest request is still pending. */
  lemma PendingEntryMatchesServer(rs: seq<PublisherRequest>, u: ClientUser, key: ObjectId)
    requires !u.isPublisher
    ensures NavItems(Some(u), StatusOf(rs, key))[2] == PendingItem
            <==> LatestIndex(rs, key).Some? && rs[LatestIndex(rs, key).value].status == Pending
  {
    match LatestIndex(rs, key)
    case None =>
    case Some(k) =>
      StatusNamesDistinct(rs[k].status, Pending);
  }

  /** The edge pan: opens the drawer when dragged right past the threshold, never closes it. */
  method HandleEdgePanEnd(ctx: NewsProvider, x: int)
    modifies ctx
    ensures ctx.isSidebarOpen == (old(ctx.isSidebarOpen) || x > EdgeSwipe)
    ensures ctx.news == old(ctx.news) && ctx.bookmarks == old(ctx.bookmarks) && ctx.likes == old(ctx.likes)
    ensures ctx.storage == old(ctx.storage) && ctx.user == old(ctx.user) && ctx.language == old(ctx.language)
    ensures ctx.loading == old(ctx.loading)
  {
    if x > EdgeSwipe {
      ctx.OpenSidebar();
    }
  }

  /** The Logout entry: log out, then close the drawer. */
  method HandleLogoutClick(ctx: NewsProvider)
    modifies ctx
    ensures ctx.user.None? && !ctx.isSidebarOpen
    ensures ctx.storage == old(ctx.storage) - {NewsContext.UserKey, TokenKey}
    ensures ctx.news == old(ctx.news) && ctx.bookmarks == old(ctx.bookmarks) && ctx.likes == old(ctx.likes)
    ensures ctx.loading == old(ctx.loading) && ctx.language == old(ctx.language)
  {
    ctx.Logout();
    ctx.CloseSidebar();
  }
}
