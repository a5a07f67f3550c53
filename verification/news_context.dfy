/** The client's shared state (the React context behind every page): the feed, the
    bookmark and like lists mirrored into local storage, the language, the sidebar flag
    and the session. */
module NewsContext {
  import opened Common
  import opened NewsModel
  import opened AuthRoutes

  /** The feed language. */
  datatype Language = En | Hi

  /** What local storage holds under a key, read back as the JSON value it encodes. */
  datatype Stored = Items(items: seq<Article>) | UserValue(user: ClientUser) | TokenValue(token: string)

  const BookmarksKey: string := "bookmarks"
  const LikesKey: string := "likes"
  const UserKey: string := "user"
  const TokenKey: string := "token"
  const LoginFailedMessage: string := "Login failed"

  // ---------------------------------------------------------------- list toggles

  /** `list.filter(x => x._id !== id)`: keeps, in order, exactly the entries with another id. */
  function WithoutId(s: seq<Article>, id: ObjectId): (r: seq<Article>)
    ensures |r| <= |s|
    ensures forall a :: a in r <==> a in s && a.id != id
    ensures !ContainsId(r, id)
    ensures !ContainsId(s, id) ==> r == s
  {
    if s == [] then []
    else if s[0].id == id then WithoutId(s[1..], id)
    else [s[0]] + WithoutId(s[1..], id)
  }

  /** Filtering distributes over concatenation, so it never reorders what it keeps. */
  lemma {:induction false} WithoutIdAppend(s: seq<Article>, t: seq<Article>, id: ObjectId)
    ensures WithoutId(s + t, id) == WithoutId(s, id) + WithoutId(t, id)
  {
    if s == [] {
      assert s + t == t;
    } else {
      assert (s + t)[0] == s[0] && (s + t)[1..] == s[1..] + t;
      WithoutIdAppend(s[1..], t, id);
      if s[0].id != id {
        assert [s[0]] + (WithoutId(s[1..], id) + WithoutId(t, id))
            == ([s[0]] + WithoutId(s[1..], id)) + WithoutId(t, id);
      }
    }
  }

  /** An entry whose id differs from all of a list's ids can go in front without a clash. */
  lemma PrependKeepsDistinct(a: Article, r: seq<Article>)
    requires DistinctIds(r)
    requires forall k :: 0 <= k < |r| ==> r[k].id != a.id
    ensures DistinctIds([a] + r)
  {
  }

  /** A list without duplicate ids keeps that property when filtered. */
  lemma {:induction false} WithoutIdKeepsDistinct(s: seq<Article>, id: ObjectId)
    requires DistinctIds(s)
    ensures DistinctIds(WithoutId(s, id))
  {
    if s != [] {
      var t := s[1..];
      assert DistinctIds(t) by {
        forall i, j | 0 <= i < j < |t|
          ensures t[i].id != t[j].id
        {
          assert t[i] == s[i + 1] && t[j] == s[j + 1];
        }
      }
      WithoutIdKeepsDistinct(t, id);
      if s[0].id != id {
        var r := WithoutId(t, id);
        forall k | 0 <= k < |r|
          ensures r[k].id != s[0].id
        {
          assert r[k] in t;
          var j :| 0 <= j < |t| && t[j] == r[k];
          assert r[k] == s[j + 1];
        }
        PrependKeepsDistinct(s[0], r);
      }
    }
  }

  /** The list update of `toggleBookmark` and `toggleLike`: remove every entry with the
      item's id if there is one, otherwise append the item. */
  function Toggled(list: seq<Article>, item: Article): (r: seq<Article>)
    ensures ContainsId(list, item.id) ==> !ContainsId(r, item.id)
    ensures !ContainsId(list, item.id) ==> |r| == |list| + 1 && r[|list|] == item
  {
    if ContainsId(list, item.id) then WithoutId(list, item.id) else list + [item]
  }

  /** A toggle flips whether the item's id is listed and leaves every other id as it was. */
  lemma ToggleFlipsOnlyThisId(list: seq<Article>, item: Article)
    ensures ContainsId(Toggled(list, item), item.id) <==> !ContainsId(list, item.id)
    ensures forall id :: id != item.id ==> (ContainsId(Toggled(list, item), id) <==> ContainsId(list, id))
  {
    var r := Toggled(list, item);
    if !ContainsId(list, item.id) {
      assert r[|list|] == item;
    }
    forall id | id != item.id
      ensures ContainsId(r, id) <==> ContainsId(list, id)
    {
      if ContainsId(list, id) {
        var i :| 0 <= i < |list| && list[i].id == id;
        assert list[i] in r;
      }
      if ContainsId(r, id) {
        var i :| 0 <= i < |r| && r[i].id == id;
        assert r[i] in list;
      }
    }
  }

  /** Apart from the item's own id, a toggle keeps the list exactly, in the same order. */
  lemma ToggleKeepsOthersInOrder(list: seq<Article>, item: Article)
    ensures WithoutId(Toggled(list, item), item.id) == WithoutId(list, item.id)
  {
    if !ContainsId(list, item.id) {
      WithoutIdAppend(list, [item], item.id);
      assert WithoutId([item], item.id) == [];
    }
  }

  /** Toggling an item that is not listed, twice, gives back the original list. */
  lemma ToggleTwiceRestores(list: seq<Article>, item: Article)
    requires !ContainsId(list, item.id)
    ensures Toggled(Toggled(list, item), item) == list
  {
    assert (list + [item])[|list|] == item;
    ToggleKeepsOthersInOrder(list, item);
  }

  /** A list without duplicate ids has none after a toggle. */
  lemma ToggleKeepsDistinct(list: seq<Article>, item: Article)
    requires DistinctIds(list)
    ensures DistinctIds(Toggled(list, item))
  {
    if ContainsId(list, item.id) {
      WithoutIdKeepsDistinct(list, item.id);
    } else {
      forall i | 0 <= i < |list|
        ensures list[i].id != item.id
      {
      }
    }
  }

  // ---------------------------------------------------------------- language

  /** `prev === "en" ? "hi" : "en"`. */
  function Switched(l: Language): (r: Language)
    ensures r != l
  {
    if l == En then Hi else En
  }

  /** Switching the language twice is the identity. */
  lemma SwitchTwice(l: Language)
    ensures Switched(Switched(l)) == l
  {
  }

  // ---------------------------------------------------------------- session

  /** What `login` returns to the page. */
  datatype LoginResult = LoggedIn(user: ClientUser) | LoginFailed(message: string)

  /** The page-facing result of a login reply: the user, or the server's message with
      "Login failed" when it has none (or an empty one). */
  function LoginOutcome(reply: ApiReply<LoginBody>): (r: LoginResult)
    ensures reply.Ok? <==> r.LoggedIn?
    ensures reply.Ok? ==> r.user == reply.data.user
    ensures reply.Err? && Truthy(reply.message) ==> r == LoginFailed(reply.message.value)
    ensures reply.Err? && !Truthy(reply.message) ==> r == LoginFailed(LoginFailedMessage)
  {
    match reply
    case Ok(body) => LoggedIn(body.user)
    case Err(message) => LoginFailed(OrElse(message, LoginFailedMessage))
  }

  /** `JSON.parse(localStorage.getItem(key)) || []`. */
  function SavedItems(saved: map<string, Stored>, key: string): seq<Article>
  {
    if key in saved && saved[key].Items? then saved[key].items else []
  }

  /** The user restored from storage on mount, if one was stored. */
  function SavedUser(saved: map<string, Stored>): Option<ClientUser>
  {
    if UserKey in saved && saved[UserKey].UserValue? then Some(saved[UserKey].user) else None
  }

  /** The provider's state. */
  class NewsProvider {
    var news: seq<Article>
    var loading: bool
    var bookmarks: seq<Article>
    var likes: seq<Article>
    var language: Language
    var isSidebarOpen: bool
    var user: Option<ClientUser>
    /** Local storage. */
    var storage: map<string, Stored>

    /** The initial state together with the mount effects that read local storage. */
    constructor (saved: map<string, Stored>)
      ensures storage == saved
      ensures bookmarks == SavedItems(saved, BookmarksKey) && likes == SavedItems(saved, LikesKey)
      ensures user == SavedUser(saved)
      ensures news == [] && loading && language == En && !isSidebarOpen
    {
      news, loading := [], true;
      language, isSidebarOpen := En, false;
      storage := saved;
      bookmarks := SavedItems(saved, BookmarksKey);
      likes := SavedItems(saved, LikesKey);
      user := SavedUser(saved);
    }

    predicate IsBookmarked(id: ObjectId)
      reads this
    {
      ContainsId(bookmarks, id)
    }

    predicate IsLiked(id: ObjectId)
      reads this
    {
      ContainsId(likes, id)
    }

    /** `fetchNews`: the feed becomes the server's list; on failure it stays as it was. */
    method FetchNews(reply: ApiReply<seq<Article>>)
      modifies this
      ensures reply.Ok? ==> news == reply.data
      ensures reply.Err? ==> news == old(news)
      ensures !loading
      ensures bookmarks == old(bookmarks) && likes == old(likes) && storage == old(storage)
      ensures language == old(language) && isSidebarOpen == old(isSidebarOpen) && user == old(user)
    {
      loading := true;
      if reply.Ok? {
        news := reply.data;
      }
      loading := false;
    }

    /** `toggleBookmark`: the list is toggled and written through to storage. */
    method ToggleBookmark(item: Article)
      modifies this
      ensures bookmarks == Toggled(old(bookmarks), item)
      ensures storage == old(storage)[BookmarksKey := Items(bookmarks)]
      ensures IsBookmarked(item.id) == !old(IsBookmarked(item.id))
      ensures likes == old(likes) && news == old(news) && loading == old(loading)
      ensures language == old(language) && isSidebarOpen == old(isSidebarOpen) && user == old(user)
    {
      ToggleFlipsOnlyThisId(bookmarks, item);
      var updated := if ContainsId(bookmarks, item.id) then WithoutId(bookmarks, item.id) else bookmarks + [item];
      bookmarks := updated;
      storage := storage[BookmarksKey := Items(updated)];
    }

    /** `toggleLike`: the same rule on the likes list. */
    method ToggleLike(item: Article)
      modifies this
      ensures likes == Toggled(old(likes), item)
      ensures storage == old(storage)[LikesKey := Items(likes)]
      ensures IsLiked(item.id) == !old(IsLiked(item.id))
      ensures bookmarks == old(bookmarks) && news == old(news) && loading == old(loading)
      ensures language == old(language) && isSidebarOpen == old(isSidebarOpen) && user == old(user)
    {
      ToggleFlipsOnlyThisId(likes, item);
      var updated := if ContainsId(likes, item.id) then WithoutId(likes, item.id) else likes + [item];
      likes := updated;
      storage := storage[LikesKey := Items(updated)];
    }

    method HandleLanguageChange()
      modifies this
      ensures language == Switched(old(language))
      ensures bookmarks == old(bookmarks) && likes == old(likes) && storage == old(storage)
      ensures news == old(news) && loading == old(loading) && isSidebarOpen == old(isSidebarOpen) && user == old(user)
    {
      language := if language == En then Hi else En;
    }

    method OpenSidebar()
      modifies this
      ensures isSidebarOpen
      ensures bookmarks == old(bookmarks) && likes == old(likes) && storage == old(storage)
      ensures news == old(news) && loading == old(loading) && language == old(language) && user == old(user)
    {
      isSidebarOpen := true;
    }

    method CloseSidebar()
      modifies this
      ensures !isSidebarOpen
      ensures bookmarks == old(bookmarks) && likes == old(likes) && storage == old(storage)
      ensures news == old(news) && loading == old(loading) && language == old(language) && user == old(user)
    {
      isSidebarOpen := false;
    }

    method ToggleSidebar()
      modifies this
      ensures isSidebarOpen == !old(isSidebarOpen)
      ensures bookmarks == old(bookmarks) && likes == old(likes) && storage == old(storage)
      ensures news == old(news) && loading == old(loading) && language == old(language) && user == old(user)
    {
      isSidebarOpen := !isSidebarOpen;
    }

    /** `login`: on success the user and token are stored and the user is set; on failure
        neither changes. */
    method Login(reply: ApiReply<LoginBody>) returns (result: LoginResult)
      modifies this
      ensures result == LoginOutcome(reply)
      ensures reply.Ok? ==> && user == Some(reply.data.user)
                            && storage == old(storage)[UserKey := UserValue(reply.data.user)][TokenKey := TokenValue(reply.data.token)]
      ensures reply.Err? ==> user == old(user) && storage == old(storage)
      ensures bookmarks == old(bookmarks) && likes == old(likes)
      ensures news == old(news) && loading == old(loading) && language == old(language) && isSidebarOpen == old(isSidebarOpen)
    {
      match reply {
        case Ok(body) =>
          storage := storage[UserKey := UserValue(body.user)];
          storage := storage[TokenKey := TokenValue(body.token)];
          user := Some(body.user);
          result := LoggedIn(body.user);
        case Err(message) =>
          result := LoginFailed(OrElse(message, LoginFailedMessage));
      }
    }

    /** `logout`: the stored user and token are removed and the user is cleared. */
    method Logout()
      modifies this
      ensures user.None?
      ensures storage == old(storage) - {UserKey, TokenKey}
      ensures UserKey !in storage && TokenKey !in storage
      ensures bookmarks == old(bookmarks) && likes == old(likes)
      ensures news == old(news) && loading == old(loading) && language == old(language) && isSidebarOpen == old(isSidebarOpen)
    {
      storage := storage - {UserKey};
      storage := storage - {TokenKey};
      user := None;
    }
  }
}
