/** The article routes: list, create, update and delete. */
module NewsRoutes {
  import opened Common
  import opened NewsModel
  import opened Recency
  import opened Database

  /** GET /: `find().sort({ createdAt: -1 })`. */
  function ListNews(articles: seq<Article>): (r: seq<Article>)
    ensures NewestFirst(r, (a: Article) => a.createdAt)
    ensures multiset(r) == multiset(articles)
  {
    SortNewestFirst(articles, (a: Article) => a.createdAt)
  }

  /** The list holds every stored article once, newest first. */
  lemma ListNewsMeaning(articles: seq<Article>)
    ensures NewestFirst(ListNews(articles), (a: Article) => a.createdAt)
    ensures multiset(ListNews(articles)) == multiset(articles)
    ensures forall a :: a in ListNews(articles) <==> a in articles
  {
    forall a
      ensures a in ListNews(articles) <==> a in articles
    {
      assert a in multiset(ListNews(articles)) <==> a in multiset(articles);
    }
  }

  /** The fields POST / copies out of the request body: the six article fields,
      never `createdAt`. */
  function CreateFields(body: NewsFields): (f: NewsFields)
    ensures f.createdAt.None?
    ensures f == body.(createdAt := None)
  {
    NewsFields(body.title, body.description, body.content, body.imageUrl, body.category, body.source, None)
  }

  /** POST /: 201 with the stored article, or 400 and nothing stored. */
  method CreateNews(db: Store, body: NewsFields, now: Timestamp) returns (resp: Response<Article>)
    requires db.Valid()
    modifies db
    ensures db.Valid()
    ensures db.users == old(db.users) && db.requests == old(db.requests)
    ensures var built := NewArticle(CreateFields(body), old(db.nextId), now);
            && (built.Invalid? ==> resp == Failure(400, Thrown(ValidationFailed(built.paths)))
                                   && db.articles == old(db.articles) && db.nextId == old(db.nextId))
            && (built.Built? ==> resp == Success(201, built.doc) && db.articles == old(db.articles) + [built.doc]
                                 && db.nextId == old(db.nextId) + 1)
  {
    var id := db.nextId;
    var built := NewArticle(CreateFields(body), id, now);
    if built.Invalid? {
      return Failure(400, Thrown(ValidationFailed(built.paths)));
    }
    assert !ContainsId(db.articles, id);
    db.articles := db.articles + [built.doc];
    db.nextId := id + 1;
    resp := Success(201, built.doc);
  }

  /** PUT /:id: `findByIdAndUpdate(id, body, { new: true })`, which runs no validators.
      Replies with the updated article, or `null` when no article has that id. */
  method UpdateNews(db: Store, id: ObjectId, body: NewsFields) returns (resp: Response<Option<Article>>)
    requires db.Valid()
    modifies db
    ensures db.Valid()
    ensures db.users == old(db.users) && db.requests == old(db.requests) && db.nextId == old(db.nextId)
    ensures IndexOfArticle(old(db.articles), id).None? ==>
              resp == Success(200, None) && db.articles == old(db.articles)
    ensures IndexOfArticle(old(db.articles), id).Some? ==>
              var i := IndexOfArticle(old(db.articles), id).value;
              && db.articles == old(db.articles)[i := Patched(old(db.articles)[i], body)]
              && resp == Success(200, Some(db.articles[i]))
  {
    var found := IndexOfArticle(db.articles, id);
    if found.None? {
      return Success(200, None);
    }
    var i := found.value;
    db.articles := db.articles[i := Patched(db.articles[i], body)];
    resp := Success(200, Some(db.articles[i]));
  }

  /** An update changes only the article with that id, keeps its id, and sets exactly the
      fields the body provides. */
  lemma UpdateMeaning(articles: seq<Article>, i: nat, body: NewsFields)
    requires i < |articles|
    ensures var s := articles[i := Patched(articles[i], body)];
            && (forall j :: 0 <= j < |articles| && j != i ==> s[j] == articles[j])
            && s[i].id == articles[i].id
            && (body.title.Some? ==> s[i].title == body.title.value)
            && (body.title.None? ==> s[i].title == articles[i].title)
            && (body.description.Some? ==> s[i].description == body.description.value)
            && (body.description.None? ==> s[i].description == articles[i].description)
            && (body.content.Some? ==> s[i].content == body.content)
            && (body.content.None? ==> s[i].content == articles[i].content)
            && (body.imageUrl.Some? ==> s[i].imageUrl == body.imageUrl.value)
            && (body.imageUrl.None? ==> s[i].imageUrl == articles[i].imageUrl)
            && (body.category.Some? ==> s[i].category == body.category.value)
            && (body.category.None? ==> s[i].category == articles[i].category)
            && (body.source.Some? ==> s[i].source == body.source.value)
            && (body.source.None? ==> s[i].source == articles[i].source)
            && (body.createdAt.Some? ==> s[i].createdAt == body.createdAt.value)
            && (body.createdAt.None? ==> s[i].createdAt == articles[i].createdAt)
  {
  }

  /** DELETE /:id: `findByIdAndDelete(id)`; replies "News deleted" whether or not an
      article had that id. */
  method DeleteNews(db: Store, id: ObjectId) returns (resp: Response<string>)
    requires db.Valid()
    modifies db
    ensures db.Valid()
    ensures db.users == old(db.users) && db.requests == old(db.requests) && db.nextId == old(db.nextId)
    ensures resp == Success(200, "News deleted")
    ensures IndexOfArticle(old(db.articles), id).None? ==> db.articles == old(db.articles)
    ensures IndexOfArticle(old(db.articles), id).Some? ==>
              var i := IndexOfArticle(old(db.articles), id).value;
              db.articles == old(db.articles)[..i] + old(db.articles)[i + 1..]
  {
    var found := IndexOfArticle(db.articles, id);
    if found.Some? {
      var i := found.value;
      RemoveKeepsDistinct(db.articles, i);
      db.articles := db.articles[..i] + db.articles[i + 1..];
    }
    resp := Success(200, "News deleted");
  }

  /** After a delete no listed article has that id, and every other article is still listed. */
  lemma DeleteRemovesFromList(articles: seq<Article>, id: ObjectId)
    requires DistinctIds(articles)
    ensures var after := match IndexOfArticle(articles, id)
                         case None => articles
                         case Some(i) => articles[..i] + articles[i + 1..];
            && (forall a :: a in ListNews(after) ==> a.id != id)
            && (forall a :: a in articles && a.id != id ==> a in ListNews(after))
  {
    match IndexOfArticle(articles, id)
    case None =>
      ListNewsMeaning(articles);
    case Some(i) =>
      RemoveAtMembers(articles, i);
      ListNewsMeaning(articles[..i] + articles[i + 1..]);
  }
}
