/** The `News` schema: an article, its required fields and its defaults. */
module NewsModel {
  import opened Common

  /** A stored article; `content` is the one optional field. */
  datatype Article = Article(
    id: ObjectId,
    title: string,
    description: string,
    content: Option<string>,
    imageUrl: string,
    category: string,
    source: string,
    createdAt: Timestamp)

  /** Article fields as a client sends them in a JSON body; `None` is `undefined`. */
  datatype NewsFields = NewsFields(
    title: Option<string>,
    description: Option<string>,
    content: Option<string>,
    imageUrl: Option<string>,
    category: Option<string>,
    source: Option<string>,
    createdAt: Option<Timestamp>)

  const DefaultCategory: string := "General"
  const DefaultSource: string := "SwipeNews"

  /** The required paths (`title`, `description`, `imageUrl`) that are missing or empty. */
  function MissingPaths(f: NewsFields): set<string>
  {
    (if Truthy(f.title) then {} else {"title"})
    + (if Truthy(f.description) then {} else {"description"})
    + (if Truthy(f.imageUrl) then {} else {"imageUrl"})
  }

  function Or(s: Option<string>, default: string): string
  {
    if s.Some? then s.value else default
  }

  /** `new News({...})` followed by validation: required fields are checked,
      category and source get their defaults, and createdAt is the creation time. */
  function NewArticle(f: NewsFields, id: ObjectId, now: Timestamp): (r: Validation<Article>)
    ensures r.Built? <==> Truthy(f.title) && Truthy(f.description) && Truthy(f.imageUrl)
    ensures r.Invalid? ==> r.paths != {} && r.paths <= {"title", "description", "imageUrl"}
    ensures r.Built? ==> r.doc.id == id && r.doc.createdAt == now
    ensures r.Built? ==> r.doc.title == f.title.value && r.doc.description == f.description.value
                          && r.doc.imageUrl == f.imageUrl.value && r.doc.content == f.content
    ensures r.Built? ==> r.doc.category == (if f.category.None? then DefaultCategory else f.category.value)
    ensures r.Built? ==> r.doc.source == (if f.source.None? then DefaultSource else f.source.value)
  {
    var missing := MissingPaths(f);
    if missing != {} then Invalid(missing)
    else Built(Article(id, f.title.value, f.description.value, f.content, f.imageUrl.value,
                        Or(f.category, DefaultCategory), Or(f.source, DefaultSource), now))
  }

  /** A creation body the client cannot use to set the timestamp: two bodies that differ
      only in `createdAt` build the same article. */
  lemma CreatedAtNotFromClient(f: NewsFields, t: Timestamp, id: ObjectId, now: Timestamp)
    ensures NewArticle(f.(createdAt := Some(t)), id, now) == NewArticle(f.(createdAt := None), id, now)
  {
  }

  /** `findByIdAndUpdate` without validators: each provided field replaces the stored one. */
  function Patched(a: Article, f: NewsFields): (r: Article)
    ensures r.id == a.id
    ensures f == NewsFields(None, None, None, None, None, None, None) ==> r == a
  {
    a.(title := Or(f.title, a.title),
       description := Or(f.description, a.description),
       content := if f.content.Some? then f.content else a.content,
       imageUrl := Or(f.imageUrl, a.imageUrl),
       category := Or(f.category, a.category),
       source := Or(f.source, a.source),
       createdAt := if f.createdAt.Some? then f.createdAt.value else a.createdAt)
  }

  /** `list.some(x => x._id === id)`. */
  predicate ContainsId(s: seq<Article>, id: ObjectId)
  {
    exists i :: 0 <= i < |s| && s[i].id == id
  }

  /** Articles have distinct ids. */
  predicate DistinctIds(s: seq<Article>)
  {
    forall i, j :: 0 <= i < j < |s| ==> s[i].id != s[j].id
  }

  /** `findById(id)` on the article collection: the position of the article with that id. */
  function IndexOfArticle(s: seq<Article>, id: ObjectId): (k: Option<nat>)
    ensures k.None? <==> !ContainsId(s, id)
    ensures k.Some? ==> k.value < |s| && s[k.value].id == id
  {
    if s == [] then None
    else if s[0].id == id then Some(0)
    else match IndexOfArticle(s[1..], id)
      case None => None
      case Some(k) => Some(k + 1)
  }

  /** Removing one article keeps the others' ids distinct. */
  lemma RemoveKeepsDistinct(s: seq<Article>, i: nat)
    requires DistinctIds(s) && i < |s|
    ensures DistinctIds(s[..i] + s[i + 1..])
  {
    var r := s[..i] + s[i + 1..];
    forall p, q | 0 <= p < q < |r|
      ensures r[p].id != r[q].id
    {
      var p', q' := if p < i then p else p + 1, if q < i then q else q + 1;
      assert r[p] == s[p'] && r[q] == s[q'];
    }
  }

  /** With distinct ids, removing the article at `i` removes exactly the articles with its id. */
  lemma RemoveAtMembers(s: seq<Article>, i: nat)
    requires DistinctIds(s) && i < |s|
    ensures forall a :: a in s[..i] + s[i + 1..] <==> a in s && a.id != s[i].id
  {
    RemoveAtDropsOnlyId(s, i);
    RemoveAtKeepsOthers(s, i);
  }

  /** What remains after removing index `i` was in `s` and has another id. */
  lemma RemoveAtDropsOnlyId(s: seq<Article>, i: nat)
    requires DistinctIds(s) && i < |s|
    ensures forall a :: a in s[..i] + s[i + 1..] ==> a in s && a.id != s[i].id
  {
    var r := s[..i] + s[i + 1..];
    forall a | a in r
      ensures a in s && a.id != s[i].id
    {
      var k :| 0 <= k < |r| && r[k] == a;
      assert a == s[if k < i then k else k + 1];
    }
  }

  /** Every article with another id survives the removal of index `i`. */
  lemma RemoveAtKeepsOthers(s: seq<Article>, i: nat)
    requires i < |s|
    ensures forall a :: a in s && a.id != s[i].id ==> a in s[..i] + s[i + 1..]
  {
    var r := s[..i] + s[i + 1..];
    forall a | a in s && a.id != s[i].id
      ensures a in r
    {
      var k :| 0 <= k < |s| && s[k] == a;
      assert a == r[if k < i then k else k - 1];
    }
  }
}
