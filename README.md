# reddit client core, modelled in Dafny

A model of the Ruby reddit client library (module `Reddit`). Three parts are modelled:

- **Listings (`Reddit`).** A reddit is built from nothing (the main page), from a subreddit name, or from an API record. Its URL comes from filling the `[subreddit]` placeholder of `SUBREDDIT_URL`. `hot`, `top`, `new`, `rising` and `controversial` each choose a page and hand it to `articles`. `new` and `rising` first write a `:querystring` into the caller's options hash.
- **Articles (`Article`).** The record fields an article copies, its tri-state `liked?` flag, and the attribute writers. The thumbnail URL is derived from the article's name. `has_thumbnail?` and `thumbnail` share one memoised response, and `comments` memoises one comment list.
- **Sessions (`Session`).** The URL constants, the session's credentials and logged-in flag, the `main` and `subreddit` factories, the form `login` posts, and the decision `login` takes on the server's decoded answer.

Ruby's dynamic values are modelled as `RubyValues.Value`: nil, booleans, integers, strings and string-keyed hashes. Ruby semantics that change behaviour are written out:

- `hash[key]` answers nil for a missing key.
- `string[key]` answers the key when it is a substring, otherwise nil.
- `[]` on an Integer raises TypeError; on nil, true or false it raises NoMethodError.
- Only nil and false are falsy.
- `gsub` with a String pattern replaces every non-overlapping occurrence, scanning left to right. A Hash replacement inserts the hash's entry for the matched text. Any other replacement raises TypeError.

Files and modules:

- `values.dfy`: `RubyValues`, the value model.
- `urls.dfy`: `Urls`, the constants and `gsub`.
- `reddit.dfy`: `Subreddits`.
- `article.dfy`: `Submissions`.
- `session.dfy`: `Sessions`.

`Reddit` instances are values (only the constructor assigns their fields), so `Reddit` is a datatype. `Article` and `Session` hold state the source changes in place, so they are classes. The caller's options hash, which `new` and `rising` update in place, is the class `OptionsHash`.

Behaviour of the code worth knowing:

- `login` never assigns `@logged_in` and keeps no cookie, so `logged_in?` stays false after a successful `login` (`LoginLeavesSessionLoggedOut`).
- `login` posts `user_login`, `passwd_login`, `rem=1`, `reason=""`, `op=login-main` and `dest=/`.
- The code has no token fetch, no login guard and no voting, saving, hiding or subscribing actions.

The model assumes Ruby 1.9 or later. That is where `gsub` accepts a Hash replacement and `Hash#to_s` is `Hash#inspect`. In Ruby 1.8, `gsub` with a Hash replacement raises TypeError.

## Model

| member | source | states |
|---|---|---|
| RubyValues.Lookup | lib/reddit/article.rb:9-26 | `hash[key]` is the stored entry when the key is present and nil when it is absent |
| RubyValues.At | lib/reddit/article.rb:9-26 | `v[key]` on a Hash is the lookup; on a String it is the key exactly when the key occurs in the string, otherwise nil |
| RubyValues.IndexError | lib/reddit/session.rb:50-51 | `[]` with a String argument raises TypeError on an Integer and NoMethodError on nil, true or false |
| RubyValues.Index | lib/reddit/session.rb:50-51 | `v[key]` raises exactly when `v` is neither a Hash nor a String, and then raises `IndexError(v)`; otherwise it answers `At(v, key)` |
| RubyValues.Truthy | lib/reddit/session.rb:50 | the `if` test is false exactly for nil and false |
| RubyValues.NatDigits | lib/reddit/article.rb:56 | the interpolated form of a non-negative Integer is a non-empty run of decimal digits that denotes exactly that number, with a leading 0 only for 0 itself, whose text is exactly `0` |
| RubyValues.ToS | lib/reddit/article.rb:56 | interpolation inserts nothing for nil, a String verbatim, `true`/`false` for booleans, and for an Integer the decimal digits of its magnitude with no leading zero (`0` for zero), after a `-` when negative |
| Urls.UrlConstants | lib/reddit/session.rb:2-5 | `PROFILE_URL`, `SUBREDDIT_URL` and `COMMENTS_URL` each start with `BASE_URL` and hold their placeholder after it; `BASE_URL` holds no placeholder |
| Urls.ReplaceAll | lib/reddit/reddit.rb:19 | `gsub` with a String pattern leaves text shorter than the pattern unchanged, and replacing the pattern by itself changes nothing |
| Urls.ReplaceAllWithoutPattern | lib/reddit/reddit.rb:19 | `gsub` leaves a string that does not contain the pattern unchanged |
| Urls.ReplaceAllChangesOnlyWithPattern | lib/reddit/reddit.rb:19 | if `gsub` changes a string, the pattern occurs in it at some index |
| Urls.ReplaceAllSkipsPrefix | lib/reddit/reddit.rb:19 | a prefix without the pattern's first character passes through `gsub` unchanged |
| Urls.ReplaceAllAtPattern | lib/reddit/reddit.rb:19 | an occurrence at the front is replaced, and the scan resumes right after it, never inside the inserted text |
| Urls.ExpandTemplate | lib/reddit/reddit.rb:19 | a template holding one placeholder expands to prefix + value + suffix for every value, including values that contain the placeholder |
| Urls.SubredditTemplateExpands | lib/reddit/session.rb:4 | `SUBREDDIT_URL` with its `[subreddit]` placeholder filled is `BASE_URL + "r/" + name + "/"` |
| Urls.ProfileTemplateExpands | lib/reddit/session.rb:3 | `PROFILE_URL` with its `[username]` placeholder filled is `BASE_URL + "user/" + username + "/"` |
| Urls.CommentsTemplateExpands | lib/reddit/session.rb:5 | `COMMENTS_URL` with its `[id]` placeholder filled is `BASE_URL + "comments/" + id + "/"` |
| Urls.SubredditUrlFor | lib/reddit/reddit.rb:19 | filling `SUBREDDIT_URL` with a name gives `http://www.reddit.com/r/<name>/`; every listing URL (`ListingUrl`) is built through it |
| Urls.SubredditUrlRoundTrip | lib/reddit/reddit.rb:19 | the subreddit name can be read back out of the URL built from it, so distinct names give distinct URLs |
| Urls.BaseUrlIsNoSubreddit | lib/reddit/session.rb:2 | the main page's URL is not the URL of any subreddit |
| Subreddits.GsubReplacement | lib/reddit/reddit.rb:13 | `gsub` accepts a String or a Hash replacement; it inserts a String replacement verbatim and, for a Hash, the `to_s` of its entry for the matched text (empty when absent); any other replacement raises |
| Subreddits.ListingUrl | lib/reddit/reddit.rb:13 | filling the template raises TypeError exactly when the title is neither a String nor a Hash; a String title gives `BASE_URL + "r/" + title + "/"`, and a Hash title gives `BASE_URL + "r/" + title['[subreddit]'].to_s + "/"` |
| Subreddits.NewReddit | lib/reddit/reddit.rb:8-21 | nil gives the main reddit (url `BASE_URL`, every other field nil); a String gives that title, the subreddit URL and nil elsewhere; an Integer or boolean raises TypeError; a record copies name, title, id, description and subscribers, sets `created_at` exactly when `created` is not nil, builds the url from the title (not the name), also when the title is a Hash, and raises TypeError exactly when the title cannot be substituted |
| Subreddits.ArticleOfResource | lib/reddit/reddit.rb:55-57 | each listing resource becomes a new article whose fields are those read from its `data` entry; a resource that is not indexable raises `IndexError(resource)`, and a `data` entry that cannot be read raises exactly the error `FieldsOf` gives |
| Subreddits.Reddit.SubscriberCount | lib/reddit/reddit.rb:23-25 | `subscriber_count` is the stored subscribers value (for a record, its `subscribers` entry, by NewReddit) |
| Subreddits.Articles | lib/reddit/reddit.rb:54-58 | `articles` requests the reddit's URL followed directly by the page, with no separator, and the caller's options unchanged |
| Subreddits.Hot | lib/reddit/reddit.rb:27-29 | `hot` requests `url + "hot"` with the options passed through |
| Subreddits.Top | lib/reddit/reddit.rb:31-33 | `top` requests `url + "top"` with the options passed through |
| Subreddits.Controversial | lib/reddit/reddit.rb:45-47 | `controversial` requests `url + "controversial"` with the options passed through |
| Subreddits.WithQuerystring | lib/reddit/reddit.rb:36 | after `options[:querystring] = qs` the keys are the old keys plus `:querystring`, `:querystring` holds `qs`, and every other entry is unchanged |
| Subreddits.New | lib/reddit/reddit.rb:35-38 | `new` overwrites the caller's `:querystring` with `sort=new` in place, leaves every other entry alone, and requests page `new` with the updated hash |
| Subreddits.Rising | lib/reddit/reddit.rb:40-43 | `rising` overwrites the caller's `:querystring` with `sort=rising` in place and also requests page `new` |
| Subreddits.NewAndRisingDifferOnlyInQuerystring | lib/reddit/reddit.rb:35-43 | from the same options, `new` and `rising` request the same resource `url + "new"` with the same keys; they differ only at `:querystring` |
| Subreddits.NamedListingResource | lib/reddit/reddit.rb:54-55 | a named subreddit requests `http://www.reddit.com/r/<name>/<page>`, and its name is recoverable from its url |
| Subreddits.MainListingResource | lib/reddit/reddit.rb:54-55 | the main reddit requests `http://www.reddit.com/<page>` |
| Submissions.FieldsOf | lib/reddit/article.rb:8-27 | `Article.new` raises exactly when the record is neither a Hash nor a String (TypeError for an Integer, NoMethodError otherwise). From a Hash it copies score, name, title, ups, downs, url, domain, id, saved, clicked, hidden, likes, subreddit_id and subreddit, and takes comment_count from `num_comments`. The author is absent exactly when the record's author is nil, and otherwise is a User built from it. `created_at` is absent exactly when `created` is nil |
| Submissions.LikedAfterNew | lib/reddit/article.rb:45-47 | `liked?` of an article made from a record is true or false exactly when the record's `likes` is, and nil exactly when the record has no non-nil `likes` |
| Submissions.ThumbnailUrl | lib/reddit/article.rb:55-57 | the thumbnail URL is `http://thumbs.reddit.com/`, then the interpolated name, then `.png`, and depends on nothing but the name |
| Submissions.ThumbnailUrlRoundTrip | lib/reddit/article.rb:55-57 | the name can be read back out of its thumbnail URL |
| Submissions.Article.constructor | lib/reddit/article.rb:8-27 | a new article holds exactly the fields read from its record, with both memoised lookups empty |
| Submissions.Article.IsSaved | lib/reddit/article.rb:30-32 | `saved?` is the stored `saved` field as it stands |
| Submissions.Article.IsClicked | lib/reddit/article.rb:35-37 | `clicked?` is the stored `clicked` field |
| Submissions.Article.IsHidden | lib/reddit/article.rb:40-42 | `hidden?` is the stored `hidden` field |
| Submissions.Article.IsLiked | lib/reddit/article.rb:45-47 | `liked?` is the stored `likes` field, which may be true, false or nil |
| Submissions.Article.SetScore | lib/reddit/article.rb:5 | `score=` changes the score and no other field |
| Submissions.Article.SetLikes | lib/reddit/article.rb:5 | `likes=` changes likes and no other field |
| Submissions.Article.SetSaved | lib/reddit/article.rb:5 | `saved=` changes saved and no other field |
| Submissions.Article.SetUps | lib/reddit/article.rb:5 | `ups=` changes ups and no other field |
| Submissions.Article.SetDowns | lib/reddit/article.rb:5 | `downs=` changes downs and no other field |
| Submissions.Article.Comments | lib/reddit/article.rb:50-53 | the comment list is created for the article's id on the first call only; later calls return the same object, and at most one list is ever created |
| Submissions.Article.GetThumbnail | lib/reddit/article.rb:70-75 | the first call fetches the thumbnail URL and caches the response; later calls return the cached response unchanged and fetch nothing; at most one fetch ever happens (the `Valid` invariant) |
| Submissions.Article.HasThumbnail | lib/reddit/article.rb:59-62 | `has_thumbnail?` is true iff the cached (or first fetched) response's code is exactly `"200"` |
| Submissions.Article.Thumbnail | lib/reddit/article.rb:64-67 | `thumbnail` is the body of that same cached response, whatever its code |
| Submissions.NewArticle | lib/reddit/article.rb:8-27 | `Article.new` either raises the error reading the record raises, or gives a fresh article holding the record's fields with empty caches |
| Sessions.LoginOutcome | lib/reddit/session.rb:50-54 | `login` returns true iff the decoded answer has no truthy `error` entry. Otherwise it raises AuthenticationException carrying `error['message']` (or the lookup's own error when `error` is not indexable). A Hash answer without `error` gives true; a Hash `error` gives its `message` |
| Sessions.Session.constructor | lib/reddit/session.rb:20-24 | a new session keeps the given username and password (by default both empty) and is not logged in |
| Sessions.Session.IsLoggedIn | lib/reddit/session.rb:41-43 | `logged_in?` is the logged-in flag |
| Sessions.Session.Main | lib/reddit/session.rb:27-29 | `main` is the main reddit: url `BASE_URL`, nil title, not the URL of any subreddit |
| Sessions.Session.Subreddit | lib/reddit/session.rb:32-34 | `subreddit(name)` is `Reddit.new(name)`: for a String, a reddit titled `name` at `BASE_URL + "r/" + name + "/"`; for nil, the main reddit; an Integer or boolean raises TypeError |
| Sessions.Session.LoginRequest | lib/reddit/session.rb:46-47 | login posts to `BASE_URL + "api/login.json"` exactly six fields: `user_login` = username, `passwd_login` = password, op `login-main`, rem `1`, reason empty, dest `/` |
| Sessions.Session.Login | lib/reddit/session.rb:45-55 | `login` sends that form and answers `LoginOutcome` of the decoded reply; it modifies no field of the session |
| Sessions.LoginLeavesSessionLoggedOut | lib/reddit/session.rb:41-55 | a new session is still not logged in after `login`, whatever the server answers |

## Left out

- Network I/O: the GET in `get_thumbnail` and the POST in `login` are not modelled. The thumbnail fetch is a parameter `fetch: string -> Response`, which answers as the server would at that call. `login` takes the decoded JSON answer as a parameter.
- JSON decoding (`JSON.parse`) and its failures are not modelled; the decoded value is an input. The debug print `pp` in `login` has no effect on the model.
- `Time.at` is opaque: `created_at` records only the value it was built from (`TimeAt`). Errors `Time.at` may raise on non-numeric input are not modelled.
- `RubyValues.Value` has no JSON arrays and no floating-point numbers, so array-valued or float-valued fields are not represented.
- `URI.parse` of the thumbnail URL, and the `path + "?query"` request line built from it, are not modelled; `fetch` receives the whole thumbnail URL.
- `ResourceList#get_resources` is not part of this model: `articles` is modelled by the request it makes (`ListingRequest`) and the block it passes (`ArticleOfResource`).
- `CommentList#top_level` and `User` are not part of this model. `comments` returns the memoised list, not the list's top-level comments. A user is only the value it was built from.
- `Session#user` is left out because it only wraps `User.new`, which is not part of this model.
- `subscribing`, `contributing`, `moderating` and `load_subreddits_from` are called by the tests but defined in no source file of this model, so they are left out.
- Subreddits.GsubReplacement: backslash escapes in a String replacement (such as `\0` or `\\`) are not interpreted, so a name containing a backslash is inserted verbatim.
- RubyValues.ToS: a Hash is rendered as the fixed text `{...}`, not as `Hash#inspect`, because Dafny maps do not keep Ruby's insertion order.
- Submissions.ThumbnailUrl: a Hash-valued name would be interpolated with `Hash#inspect`; the model inserts the fixed text `{...}`, because Dafny maps do not keep Ruby's insertion order.
- Subreddits.New and Subreddits.Rising: the default argument `options = {}` is a fresh hash the caller cannot see; calling them with a freshly constructed empty `OptionsHash` models it.
- Sessions.Session.constructor: Ruby accepts any object as username and password; the model takes strings only.
