/** A reddit article or submission (lib/reddit/article.rb): the fields taken
    from an API record, the thumbnail URL derived from its name, and the two
    memoised lookups (thumbnail response and comment list). */
module Submissions {
  import opened RubyValues

  /** `User.new(x)`; the User class is not part of this model, so a user is
      only the value it was built from. */
  datatype User = UserOf(source: Value)

  /** An HTTP response: Net::HTTP reports the status code as a String. */
  datatype Response = Response(code: string, body: string)

  /** Every instance variable the constructor sets. */
  datatype ArticleFields = ArticleFields(
    score: Value,
    name: Value,
    title: Value,
    commentCount: Value,
    ups: Value,
    downs: Value,
    url: Value,
    domain: Value,
    author: Option<User>,
    id: Value,
    createdAt: Option<Time>,
    saved: Value,
    clicked: Value,
    hidden: Value,
    likes: Value,
    subredditId: Value,
    subreddit: Value)

  /** What `Article.new(attributes)` reads out of its argument: every field is
      `attributes[key]`, so a Hash gives its entries (nil where absent), a
      String gives substring matches, and anything else raises on the first
      lookup. */
  function FieldsOf(attributes: Value): (r: Result<ArticleFields>)
    ensures r.Raised? <==> !Indexable(attributes)
    ensures r.Raised? ==> (r.error == TypeError <==> attributes.Int?)
    ensures r.Raised? ==> r.error == TypeError || r.error == NoMethodError
    ensures attributes.Obj? ==>
      var m := attributes.fields;
      var f := r.value;
      f.score == Lookup(m, "score") && f.name == Lookup(m, "name") && f.title == Lookup(m, "title") &&
      f.commentCount == Lookup(m, "num_comments") &&
      f.ups == Lookup(m, "ups") && f.downs == Lookup(m, "downs") &&
      f.url == Lookup(m, "url") && f.domain == Lookup(m, "domain") && f.id == Lookup(m, "id") &&
      f.saved == Lookup(m, "saved") && f.clicked == Lookup(m, "clicked") &&
      f.hidden == Lookup(m, "hidden") && f.likes == Lookup(m, "likes") &&
      f.subredditId == Lookup(m, "subreddit_id") && f.subreddit == Lookup(m, "subreddit") &&
      (f.author.None? <==> Lookup(m, "author").Null?) &&
      (f.author.Some? ==> f.author.value == UserOf(Lookup(m, "author"))) &&
      (f.createdAt.None? <==> Lookup(m, "created").Null?) &&
      (f.createdAt.Some? ==> f.createdAt.value == TimeAt(Lookup(m, "created")))
  {
    if !Indexable(attributes) then Raised(IndexError(attributes))
    else
      var author := At(attributes, "author");
      var created := At(attributes, "created");
      Ok(ArticleFields(
        At(attributes, "score"), At(attributes, "name"), At(attributes, "title"),
        At(attributes, "num_comments"), At(attributes, "ups"), At(attributes, "downs"),
        At(attributes, "url"), At(attributes, "domain"),
        if author.Null? then None else Some(UserOf(author)),
        At(attributes, "id"),
        if created.Null? then None else Some(TimeAt(created)),
        At(attributes, "saved"), At(attributes, "clicked"), At(attributes, "hidden"),
        At(attributes, "likes"), At(attributes, "subreddit_id"), At(attributes, "subreddit")))
  }

  const ThumbsBase: string := "http://thumbs.reddit.com/"
  const ThumbsSuffix: string := ".png"

  /** `thumbnail_url`: the article's name between the thumbnail host and `.png`. */
  function ThumbnailUrl(name: Value): (url: string)
    ensures |url| == |ThumbsBase| + |ToS(name)| + |ThumbsSuffix|
    ensures url[..|ThumbsBase|] == ThumbsBase
    ensures url[|ThumbsBase|..|url| - |ThumbsSuffix|] == ToS(name)
    ensures url[|url| - |ThumbsSuffix|..] == ThumbsSuffix
  {
    ThumbsBase + ToS(name) + ThumbsSuffix
  }

  /** Reading the name back out of a thumbnail URL: the partner of ThumbnailUrl. */
  function ThumbnailNameOf(url: string): Option<string> {
    if |url| >= |ThumbsBase| + |ThumbsSuffix| && url[..|ThumbsBase|] == ThumbsBase
       && url[|url| - |ThumbsSuffix|..] == ThumbsSuffix
    then Some(url[|ThumbsBase|..|url| - |ThumbsSuffix|])
    else None
  }

  /** Distinct names give distinct thumbnail URLs, and the name can be
      recovered from the URL. */
  lemma ThumbnailUrlRoundTrip(name: string)
    ensures ThumbnailNameOf(ThumbnailUrl(Str(name))) == Some(name)
  {
  }

  /** A CommentList (not part of this model beyond the article id it is
      made for); an object, so that reuse is reuse of the same instance. */
  class CommentList {
    const articleId: Value

    constructor(articleId: Value)
      ensures this.articleId == articleId
    {
      this.articleId := articleId;
    }
  }

  class Article {
    const name: Value
    const title: Value
    const commentCount: Value
    const url: Value
    const domain: Value
    const author: Option<User>
    const id: Value
    const createdAt: Option<Time>
    const clicked: Value
    const hidden: Value
    const subredditId: Value
    const subreddit: Value

    // writable through `attr_accessor`
    var score: Value
    var likes: Value
    var saved: Value
    var ups: Value
    var downs: Value

    // memoised lookups
    var commentsList: CommentList?
    var thumbnailResponse: Option<Response>

    // how many times each memoised lookup has done its work
    ghost var commentListsCreated: nat
    ghost var thumbnailFetches: nat

    /** Each memoised lookup has done its work once exactly when its cache
        is filled. */
    ghost predicate Valid()
      reads this
    {
      thumbnailFetches == (if thumbnailResponse.Some? then 1 else 0) &&
      commentListsCreated == (if commentsList == null then 0 else 1)
    }

    /** The article's fields as they stand. */
    function Fields(): ArticleFields
      reads this
    {
      ArticleFields(score, name, title, commentCount, ups, downs, url, domain, author, id,
                    createdAt, saved, clicked, hidden, likes, subredditId, subreddit)
    }

    /** `initialize(attributes)` once the record's fields are read: every
        field as given, both caches empty. */
    constructor(f: ArticleFields)
      ensures Valid() && Fields() == f
      ensures thumbnailResponse.None? && commentsList == null
      ensures thumbnailFetches == 0 && commentListsCreated == 0
    {
      score, name, title, commentCount := f.score, f.name, f.title, f.commentCount;
      ups, downs, url, domain := f.ups, f.downs, f.url, f.domain;
      author, id, createdAt := f.author, f.id, f.createdAt;
      saved, clicked, hidden, likes := f.saved, f.clicked, f.hidden, f.likes;
      subredditId, subreddit := f.subredditId, f.subreddit;
      commentsList, thumbnailResponse := null, None;
      commentListsCreated, thumbnailFetches := 0, 0;
    }

    /** `saved?` */
    function IsSaved(): (r: Value)
      reads this
      ensures r == Fields().saved
    {
      saved
    }

    /** `clicked?` */
    function IsClicked(): (r: Value)
      reads this
      ensures r == Fields().clicked
    {
      clicked
    }

    /** `hidden?` */
    function IsHidden(): (r: Value)
      reads this
      ensures r == Fields().hidden
    {
      hidden
    }

    /** `liked?`: true, false or nil. */
    function IsLiked(): (r: Value)
      reads this
      ensures r == Fields().likes
    {
      likes
    }

    /** `score=` */
    method SetScore(v: Value)
      modifies this`score
      ensures Fields() == old(Fields()).(score := v)
    {
      score := v;
    }

    /** `likes=` */
    method SetLikes(v: Value)
      modifies this`likes
      ensures Fields() == old(Fields()).(likes := v)
    {
      likes := v;
    }

    /** `saved=` */
    method SetSaved(v: Value)
      modifies this`saved
      ensures Fields() == old(Fields()).(saved := v)
    {
      saved := v;
    }

    /** `ups=` */
    method SetUps(v: Value)
      modifies this`ups
      ensures Fields() == old(Fields()).(ups := v)
    {
      ups := v;
    }

    /** `downs=` */
    method SetDowns(v: Value)
      modifies this`downs
      ensures Fields() == old(Fields()).(downs := v)
    {
      downs := v;
    }

    /** `comments(options)`: the article's comment list, made on the first
        call and the same object on every later one. Handing `options` to
        the list's `top_level` is not part of this model. */
    method Comments() returns (list: CommentList)
      requires Valid()
      modifies this`commentsList, this`commentListsCreated
      ensures Valid() && commentsList == list
      ensures old(commentsList) != null ==> list == old(commentsList) && commentListsCreated == old(commentListsCreated)
      ensures old(commentsList) == null ==> fresh(list) && list.articleId == id
      ensures commentListsCreated == 1
    {
      if commentsList == null {
        commentsList := new CommentList(id);
        commentListsCreated := commentListsCreated + 1;
      }
      list := commentsList;
    }

    /** `get_thumbnail`: the cached response if there is one; otherwise the
        response `fetch` gives for the thumbnail URL, which is then cached.
        `fetch` stands for the HTTP GET, as the server would answer it now. */
    method GetThumbnail(fetch: string -> Response) returns (response: Response)
      requires Valid()
      modifies this`thumbnailResponse, this`thumbnailFetches
      ensures Valid() && thumbnailResponse == Some(response)
      ensures old(thumbnailResponse).Some? ==>
        response == old(thumbnailResponse).value && thumbnailFetches == old(thumbnailFetches)
      ensures old(thumbnailResponse).None? ==> response == fetch(ThumbnailUrl(name))
      ensures thumbnailFetches == 1
    {
      if thumbnailResponse.Some? {
        return thumbnailResponse.value;
      }
      response := fetch(ThumbnailUrl(name));
      thumbnailResponse := Some(response);
      thumbnailFetches := thumbnailFetches + 1;
    }

    /** `has_thumbnail?`: whether the (cached) response has status "200". */
    method HasThumbnail(fetch: string -> Response) returns (has: bool)
      requires Valid()
      modifies this`thumbnailResponse, this`thumbnailFetches
      ensures Valid() && thumbnailResponse.Some? && thumbnailFetches == 1
      ensures old(thumbnailResponse).Some? ==> thumbnailResponse == old(thumbnailResponse)
      ensures old(thumbnailResponse).None? ==> thumbnailResponse == Some(fetch(ThumbnailUrl(name)))
      ensures has <==> thumbnailResponse.value.code == "200"
    {
      var response := GetThumbnail(fetch);
      has := response.code == "200";
    }

    /** `thumbnail`: the body of the (cached) response, whatever its status. */
    method Thumbnail(fetch: string -> Response) returns (body: string)
      requires Valid()
      modifies this`thumbnailResponse, this`thumbnailFetches
      ensures Valid() && thumbnailResponse.Some? && thumbnailFetches == 1
      ensures old(thumbnailResponse).Some? ==> thumbnailResponse == old(thumbnailResponse)
      ensures old(thumbnailResponse).None? ==> thumbnailResponse == Some(fetch(ThumbnailUrl(name)))
      ensures body == thumbnailResponse.value.body
    {
      var response := GetThumbnail(fetch);
      body := response.body;
    }
  }

  /** `Article.new(attributes)`: the fields read from the record, or the
      exception reading them raises. */
  method NewArticle(attributes: Value) returns (r: Result<Article>)
    ensures r.Raised? <==> FieldsOf(attributes).Raised?
    ensures r.Raised? ==> r.error == FieldsOf(attributes).error
    ensures r.Ok? ==> fresh(r.value) && r.value.Valid() && r.value.Fields() == FieldsOf(attributes).value
    ensures r.Ok? ==> r.value.thumbnailResponse.None? && r.value.commentsList == null
  {
    match FieldsOf(attributes)
    case Ok(f) =>
      var a := new Article(f);
      r := Ok(a);
    case Raised(e) =>
      r := Raised(e);
  }

  /** `liked?` on an article made from a record is tri-state: the record's
      true, false or nil `likes` is reported as it is, and nil also when the
      record has no `likes`. */
  method LikedAfterNew(m: map<string, Value>) returns (liked: Value)
    ensures liked == Bool(true) <==> "likes" in m && m["likes"] == Bool(true)
    ensures liked == Bool(false) <==> "likes" in m && m["likes"] == Bool(false)
    ensures liked.Null? <==> "likes" !in m || m["likes"].Null?
  {
    var r := NewArticle(Obj(m));
    liked := r.value.IsLiked();
  }
}
