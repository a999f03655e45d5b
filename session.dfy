/** A reddit browsing session (lib/reddit/session.rb): its credentials and
    logged-in flag, the factories for the main reddit and subreddits, and the
    decision `login` takes on the server's decoded answer. */
module Sessions {
  import opened RubyValues
  import opened Urls
  import opened Subreddits

  /** The login endpoint, written out in full rather than built from BaseUrl. */
  const LoginUrl: string := "http://www.reddit.com/api/login.json"

  /** A form-encoded POST. */
  datatype PostRequest = PostRequest(url: string, form: map<string, string>)

  /** What `login` decides from the decoded JSON answer: if its `error` entry
      is truthy, it raises AuthenticationException with that entry's
      `message`; otherwise it returns true. Either lookup raises when its
      receiver is neither a Hash nor a String. */
  function LoginOutcome(decoded: Value): (r: Result<bool>)
    ensures r.Ok? ==> r.value
    ensures r.Ok? <==> Indexable(decoded) && !Truthy(At(decoded, "error"))
    ensures !Indexable(decoded) ==> r == Raised(IndexError(decoded))
    ensures Indexable(decoded) && Truthy(At(decoded, "error")) ==>
      var err := At(decoded, "error");
      r == if Indexable(err) then Raised(AuthenticationException(At(err, "message")))
           else Raised(IndexError(err))
    // the server's usual shapes: a Hash with or without an `error` Hash
    ensures decoded.Obj? && "error" !in decoded.fields ==> r == Ok(true)
    ensures decoded.Obj? && "error" in decoded.fields && decoded.fields["error"].Obj? ==>
      r == Raised(AuthenticationException(Lookup(decoded.fields["error"].fields, "message")))
  {
    match Index(decoded, "error")
    case Raised(e) => Raised(e)
    case Ok(err) =>
      if !Truthy(err) then Ok(true)
      else
        match Index(err, "message")
        case Raised(e) => Raised(e)
        case Ok(message) => Raised(AuthenticationException(message))
  }

  class Session {
    var username: string
    var password: string
    var loggedIn: bool

    /** `initialize(username = "", password = "")`: not logged in. */
    constructor(username: string := "", password: string := "")
      ensures this.username == username && this.password == password
      ensures !loggedIn
    {
      this.username := username;
      this.password := password;
      loggedIn := false;
    }

    /** `logged_in?` */
    function IsLoggedIn(): (b: bool)
      reads this
      ensures b <==> loggedIn
    {
      loggedIn
    }

    /** `main`: the main reddit. */
    function Main(): (r: Reddit)
      ensures r.url == BaseUrl && r.title.Null?
      ensures SubredditNameOf(r.url) == None
    {
      BaseUrlIsNoSubreddit();
      NewReddit().value
    }

    /** `subreddit(subreddit)`: `Reddit.new` with the given argument, so a
        String names a subreddit (and nil gives the main reddit). */
    function Subreddit(subreddit: Value): (r: Result<Reddit>)
      ensures r == NewReddit(subreddit)
      ensures subreddit.Str? ==>
        r.Ok? && r.value.title == subreddit &&
        r.value.url == BaseUrl + "r/" + subreddit.s + "/" &&
        SubredditNameOf(r.value.url) == Some(subreddit.s)
      ensures subreddit.Null? ==> r.Ok? && r.value == Main()
      ensures subreddit.Int? || subreddit.Bool? ==> r == Raised(TypeError)
    {
      if subreddit.Str? then SubredditUrlRoundTrip(subreddit.s); NewReddit(subreddit)
      else NewReddit(subreddit)
    }

    /** The POST `login` sends: the credentials under `user_login` and
        `passwd_login`, and four fixed fields. */
    function LoginRequest(): (req: PostRequest)
      reads this
      ensures req.url == BaseUrl + "api/login.json"
      ensures req.form.Keys == {"reason", "op", "dest", "user_login", "passwd_login", "rem"}
      ensures req.form["user_login"] == username && req.form["passwd_login"] == password
      ensures req.form["reason"] == "" && req.form["op"] == "login-main"
      ensures req.form["dest"] == "/" && req.form["rem"] == "1"
    {
      PostRequest(LoginUrl, map["reason" := "", "op" := "login-main", "dest" := "/",
                               "user_login" := username, "passwd_login" := password, "rem" := "1"])
    }

    /** `login`: sends LoginRequest() and decides on `decoded`, the JSON the
        server answers with. It changes no field of the session; in
        particular it never sets the logged-in flag. */
    method Login(decoded: Value) returns (req: PostRequest, r: Result<bool>)
      ensures req == LoginRequest()
      ensures r == LoginOutcome(decoded)
    {
      req := LoginRequest();
      r := LoginOutcome(decoded);
    }
  }

  /** A new session is still not logged in after `login`, whatever the
      server answers. */
  method LoginLeavesSessionLoggedOut(username: string, password: string, decoded: Value)
    returns (outcome: Result<bool>, loggedIn: bool)
    ensures outcome == LoginOutcome(decoded)
    ensures !loggedIn
  {
    var session := new Session(username, password);
    var _, r := session.Login(decoded);
    outcome := r;
    loggedIn := session.IsLoggedIn();
  }
}
