/** The main reddit or a subreddit (lib/reddit/reddit.rb): how one is built
    from nothing, a name or a record, and which listing each sort order
    requests. */
module Subreddits {
  import opened RubyValues
  import opened Urls
  import Submissions

  /** A key of a Ruby options hash: a Symbol such as `:querystring`, or a String. */
  datatype Key = Symbol(name: string) | Text(text: string)

  const QuerystringKey: Key := Symbol("querystring")

  /** The instance variables of a Reddit; those the constructor does not set
      stay nil. */
  datatype Reddit = Reddit(
    name: Value,
    title: Value,
    url: string,
    id: Value,
    description: Value,
    createdAt: Option<Time>,
    subscribers: Value)
  {
    /** `subscriber_count` */
    function SubscriberCount(): (r: Value)
      ensures r == subscribers
    {
      subscribers
    }
  }

  /** The text `gsub` inserts for a replacement argument: a String as it is, a
      Hash its entry for the matched text, converted with `to_s`; any other
      object makes `gsub` raise TypeError. */
  function GsubReplacement(rep: Value, matched: string): (r: Option<string>)
    ensures r.Some? <==> rep.Str? || rep.Obj?
    ensures rep.Str? ==> r == Some(rep.s)
    ensures rep.Obj? ==> r == Some(ToS(Lookup(rep.fields, matched)))
  {
    match rep
    case Str(s) => Some(s)
    case Obj(h) => Some(ToS(Lookup(h, matched)))
    case _ => None
  }

  /** `SUBREDDIT_URL.gsub('[subreddit]', title)` */
  function ListingUrl(title: Value): (r: Result<string>)
    ensures r.Raised? <==> !(title.Str? || title.Obj?)
    ensures r.Raised? ==> r.error == TypeError
    ensures title.Str? ==> r == Ok(BaseUrl + "r/" + title.s + "/")
    ensures title.Obj? ==> r == Ok(BaseUrl + "r/" + ToS(Lookup(title.fields, SubredditPlaceholder)) + "/")
  {
    match GsubReplacement(title, SubredditPlaceholder)
    case Some(rep) => Ok(SubredditUrlFor(rep))
    case None => Raised(TypeError)
  }

  /** `Reddit.new(attributes = nil)`: a Hash gives a reddit built from a
      record, nil the main reddit, anything else a subreddit of that name. */
  function NewReddit(attributes: Value := Null): (r: Result<Reddit>)
    // the main reddit
    ensures attributes.Null? ==>
      r.Ok? && r.value.url == BaseUrl && r.value.title.Null? &&
      r.value.name.Null? && r.value.id.Null? && r.value.description.Null? &&
      r.value.subscribers.Null? && r.value.createdAt.None?
    // a subreddit named by a String
    ensures attributes.Str? ==>
      r.Ok? && r.value.title == attributes && r.value.url == BaseUrl + "r/" + attributes.s + "/" &&
      r.value.name.Null? && r.value.id.Null? && r.value.description.Null? &&
      r.value.subscribers.Null? && r.value.createdAt.None?
    // any other non-Hash name cannot be substituted into the template
    ensures attributes.Int? || attributes.Bool? ==> r == Raised(TypeError)
    // a record: fields copied, URL built from the title (not the name)
    ensures attributes.Obj? ==>
      var m := attributes.fields;
      var title := Lookup(m, "title");
      (r.Ok? <==> title.Str? || title.Obj?) &&
      (r.Raised? ==> r.error == TypeError) &&
      (r.Ok? ==>
        r.value.name == Lookup(m, "name") && r.value.title == title &&
        r.value.id == Lookup(m, "id") && r.value.description == Lookup(m, "description") &&
        r.value.SubscriberCount() == Lookup(m, "subscribers") &&
        (r.value.createdAt.None? <==> Lookup(m, "created").Null?) &&
        (r.value.createdAt.Some? ==> r.value.createdAt.value == TimeAt(Lookup(m, "created"))) &&
        (title.Str? ==> r.value.url == BaseUrl + "r/" + title.s + "/") &&
        (title.Obj? ==>
          r.value.url == BaseUrl + "r/" + ToS(Lookup(title.fields, SubredditPlaceholder)) + "/"))
  {
    match attributes
    case Obj(m) =>
      var title := Lookup(m, "title");
      var created := Lookup(m, "created");
      (match ListingUrl(title)
       case Ok(url) =>
         Ok(Reddit(Lookup(m, "name"), title, url, Lookup(m, "id"), Lookup(m, "description"),
                   if created.Null? then None else Some(TimeAt(created)), Lookup(m, "subscribers")))
       case Raised(e) => Raised(e))
    case Null => Ok(Reddit(Null, Null, BaseUrl, Null, Null, None, Null))
    case _ =>
      (match ListingUrl(attributes)
       case Ok(url) => Ok(Reddit(Null, attributes, url, Null, Null, None, Null))
       case Raised(e) => Raised(e))
  }

  /** The call `articles` makes: `get_resources` with this resource URL and
      this options hash. */
  datatype ListingRequest = ListingRequest(resource: string, options: map<Key, Value>)

  /** `articles(page = 'hot', options = {})`: the reddit's URL directly
      followed by the page, and the caller's options as they are. */
  function Articles(r: Reddit, page: string := "hot", options: map<Key, Value> := map[]): (req: ListingRequest)
    ensures |req.resource| == |r.url| + |page|
    ensures StartsWith(req.resource, r.url) && req.resource[|r.url|..] == page
    ensures req.options == options
  {
    ListingRequest(r.url + page, options)
  }

  /** The block `articles` gives `get_resources`: `Article.new(resource_json['data'])`
      for each resource of the listing. */
  method ArticleOfResource(resource: Value) returns (r: Result<Submissions.Article>)
    ensures r.Raised? <==> !Indexable(resource) || Submissions.FieldsOf(At(resource, "data")).Raised?
    ensures !Indexable(resource) ==> r.error == IndexError(resource)
    ensures Indexable(resource) && Submissions.FieldsOf(At(resource, "data")).Raised? ==>
      r.error == Submissions.FieldsOf(At(resource, "data")).error
    ensures r.Ok? ==>
      fresh(r.value) && r.value.Valid() && r.value.Fields() == Submissions.FieldsOf(At(resource, "data")).value
  {
    match Index(resource, "data")
    case Raised(e) =>
      r := Raised(e);
    case Ok(data) =>
      r := Submissions.NewArticle(data);
  }

  /** `hot(options = {})` */
  function Hot(r: Reddit, options: map<Key, Value> := map[]): (req: ListingRequest)
    ensures req.resource == r.url + "hot" && req.options == options
  {
    Articles(r, "hot", options)
  }

  /** `top(options = {})` */
  function Top(r: Reddit, options: map<Key, Value> := map[]): (req: ListingRequest)
    ensures req.resource == r.url + "top" && req.options == options
  {
    Articles(r, "top", options)
  }

  /** `controversial(options = {})` */
  function Controversial(r: Reddit, options: map<Key, Value> := map[]): (req: ListingRequest)
    ensures req.resource == r.url + "controversial" && req.options == options
  {
    Articles(r, "controversial", options)
  }

  /** A caller's options hash, which `new` and `rising` update in place. */
  class OptionsHash {
    var entries: map<Key, Value>

    constructor(entries: map<Key, Value>)
      ensures this.entries == entries
    {
      this.entries := entries;
    }
  }

  /** `options[:querystring] = qs` */
  function WithQuerystring(options: map<Key, Value>, qs: string): (r: map<Key, Value>)
    ensures r.Keys == options.Keys + {QuerystringKey}
    ensures r[QuerystringKey] == Str(qs)
    ensures forall k :: k in options && k != QuerystringKey ==> r[k] == options[k]
  {
    options[QuerystringKey := Str(qs)]
  }

  /** `new(options = {})`: sets the caller's `:querystring` to `sort=new` and
      requests the `new` page. */
  method New(r: Reddit, options: OptionsHash) returns (req: ListingRequest)
    modifies options
    ensures options.entries == WithQuerystring(old(options.entries), "sort=new")
    ensures req == Articles(r, "new", options.entries)
  {
    options.entries := options.entries[QuerystringKey := Str("sort=new")];
    req := Articles(r, "new", options.entries);
  }

  /** `rising(options = {})`: sets the caller's `:querystring` to
      `sort=rising` and requests the `new` page as well. */
  method Rising(r: Reddit, options: OptionsHash) returns (req: ListingRequest)
    modifies options
    ensures options.entries == WithQuerystring(old(options.entries), "sort=rising")
    ensures req == Articles(r, "new", options.entries)
  {
    options.entries := options.entries[QuerystringKey := Str("sort=rising")];
    req := Articles(r, "new", options.entries);
  }

  /** `new` and `rising` request the same page from the same options hash
      and differ in the querystring alone. */
  lemma NewAndRisingDifferOnlyInQuerystring(r: Reddit, options: map<Key, Value>)
    ensures
      var viaNew := Articles(r, "new", WithQuerystring(options, "sort=new"));
      var viaRising := Articles(r, "new", WithQuerystring(options, "sort=rising"));
      viaNew.resource == viaRising.resource == r.url + "new" &&
      viaNew.options.Keys == viaRising.options.Keys &&
      viaNew.options[QuerystringKey] == Str("sort=new") &&
      viaRising.options[QuerystringKey] == Str("sort=rising") &&
      (forall k :: k in viaNew.options && k != QuerystringKey ==> viaNew.options[k] == viaRising.options[k])
  {
  }

  /** The listing a named subreddit requests for a page. */
  lemma NamedListingResource(name: string, page: string, options: map<Key, Value>)
    ensures NewReddit(Str(name)).Ok?
    ensures Articles(NewReddit(Str(name)).value, page, options).resource == BaseUrl + "r/" + name + "/" + page
    ensures SubredditNameOf(NewReddit(Str(name)).value.url) == Some(name)
  {
  }

  /** The listing the main reddit requests for a page. */
  lemma MainListingResource(page: string, options: map<Key, Value>)
    ensures Articles(NewReddit().value, page, options).resource == BaseUrl + page
  {
  }
}
