/** The service's URL constants and the placeholder substitution
    (`String#gsub` with a String pattern) used to fill them in. */
module Urls {
  import opened RubyValues

  const BaseUrl: string := "http://www.reddit.com/"
  const ProfileUrl: string := BaseUrl + "user/[username]/"
  const SubredditUrl: string := BaseUrl + "r/[subreddit]/"
  const CommentsUrl: string := BaseUrl + "comments/[id]/"

  /** Each template is the base URL followed by a path that holds its
      placeholder, and the base URL holds no placeholder. */
  lemma UrlConstants()
    ensures StartsWith(ProfileUrl, BaseUrl) && Occurs(UsernamePlaceholder, ProfileUrl[|BaseUrl|..])
    ensures StartsWith(SubredditUrl, BaseUrl) && Occurs(SubredditPlaceholder, SubredditUrl[|BaseUrl|..])
    ensures StartsWith(CommentsUrl, BaseUrl) && Occurs(IdPlaceholder, CommentsUrl[|BaseUrl|..])
    ensures '[' !in BaseUrl
  {
    OccursFromPosition(UsernamePlaceholder, ProfileUrl[|BaseUrl|..], 5);
    OccursFromPosition(SubredditPlaceholder, SubredditUrl[|BaseUrl|..], 2);
    OccursFromPosition(IdPlaceholder, CommentsUrl[|BaseUrl|..], 9);
  }

  const UsernamePlaceholder: string := "[username]"
  const SubredditPlaceholder: string := "[subreddit]"
  const IdPlaceholder: string := "[id]"

  /** `s.gsub(pat, rep)`: scanning left to right, every non-overlapping
      occurrence of `pat` is replaced by `rep`; the inserted text is not
      scanned again. */
  function ReplaceAll(s: string, pat: string, rep: string): (r: string)
    requires pat != []
    ensures |s| < |pat| ==> r == s
    ensures rep == pat ==> r == s
    decreases |s|
  {
    if s == [] then []
    else if StartsWith(s, pat) then rep + ReplaceAll(s[|pat|..], pat, rep)
    else [s[0]] + ReplaceAll(s[1..], pat, rep)
  }

  /** Text without the pattern comes back unchanged. */
  lemma {:induction false} ReplaceAllWithoutPattern(s: string, pat: string, rep: string)
    requires pat != [] && !Occurs(pat, s)
    ensures ReplaceAll(s, pat, rep) == s
    decreases |s|
  {
    if s != [] {
      ReplaceAllWithoutPattern(s[1..], pat, rep);
      assert [s[0]] + s[1..] == s;
    }
  }

  /** Conversely, a replacement that changes the text means the pattern
      occurs in it at some position. */
  lemma ReplaceAllChangesOnlyWithPattern(s: string, pat: string, rep: string) returns (i: nat)
    requires pat != [] && ReplaceAll(s, pat, rep) != s
    ensures MatchAt(s, pat, i)
  {
    if !Occurs(pat, s) {
      ReplaceAllWithoutPattern(s, pat, rep);
    }
    i := OccursAt(pat, s);
  }

  /** A prefix that does not contain the pattern's first character passes
      through the substitution untouched. */
  lemma {:induction false} ReplaceAllSkipsPrefix(p: string, t: string, pat: string, rep: string)
    requires pat != [] && pat[0] !in p
    ensures ReplaceAll(p + t, pat, rep) == p + ReplaceAll(t, pat, rep)
    decreases |p|
  {
    if p != [] {
      var s := p + t;
      assert s[0] == p[0] != pat[0];
      assert !StartsWith(s, pat) by {
        if |pat| <= |s| { assert s[..|pat|][0] == s[0]; }
      }
      assert s[1..] == p[1..] + t;
      ReplaceAllSkipsPrefix(p[1..], t, pat, rep);
      calc {
        ReplaceAll(s, pat, rep);
        [p[0]] + ReplaceAll(p[1..] + t, pat, rep);
        [p[0]] + (p[1..] + ReplaceAll(t, pat, rep));
        { assert [p[0]] + p[1..] == p; }
        p + ReplaceAll(t, pat, rep);
      }
    } else {
      assert p + t == t;
    }
  }

  /** A text that starts with the pattern has it replaced, and the scan
      resumes right after it. */
  lemma ReplaceAllAtPattern(pat: string, t: string, rep: string)
    requires pat != []
    ensures ReplaceAll(pat + t, pat, rep) == rep + ReplaceAll(t, pat, rep)
  {
  }

  /** A template holding the placeholder once, with no stray copy of its
      first character elsewhere, expands to prefix + value + suffix, whatever
      the value contains. */
  lemma ExpandTemplate(prefix: string, pat: string, suffix: string, value: string)
    requires pat != [] && pat[0] !in prefix && pat[0] !in suffix
    ensures ReplaceAll(prefix + pat + suffix, pat, value) == prefix + value + suffix
  {
    ReplaceAllSkipsPrefix(prefix, pat + suffix, pat, value);
    assert prefix + pat + suffix == prefix + (pat + suffix);
    ReplaceAllAtPattern(pat, suffix, value);
    ReplaceAllSkipsPrefix(suffix, [], pat, value);
    assert suffix + [] == suffix;
  }

  /** Filling in the subreddit template with any name. */
  lemma SubredditTemplateExpands(name: string)
    ensures ReplaceAll(SubredditUrl, SubredditPlaceholder, name) == BaseUrl + "r/" + name + "/"
  {
    var prefix := BaseUrl + "r/";
    assert SubredditUrl == prefix + SubredditPlaceholder + "/";
    ExpandTemplate(prefix, SubredditPlaceholder, "/", name);
  }

  /** Filling in the profile template with any user name. */
  lemma ProfileTemplateExpands(username: string)
    ensures ReplaceAll(ProfileUrl, UsernamePlaceholder, username) == BaseUrl + "user/" + username + "/"
  {
    var prefix := BaseUrl + "user/";
    assert ProfileUrl == prefix + UsernamePlaceholder + "/";
    ExpandTemplate(prefix, UsernamePlaceholder, "/", username);
  }

  /** Filling in the comments template with any article id. */
  lemma CommentsTemplateExpands(id: string)
    ensures ReplaceAll(CommentsUrl, IdPlaceholder, id) == BaseUrl + "comments/" + id + "/"
  {
    var prefix := BaseUrl + "comments/";
    assert CommentsUrl == prefix + IdPlaceholder + "/";
    ExpandTemplate(prefix, IdPlaceholder, "/", id);
  }

  /** The URL of a named subreddit. */
  function SubredditUrlFor(name: string): (url: string)
    ensures url == BaseUrl + "r/" + name + "/"
  {
    SubredditTemplateExpands(name);
    ReplaceAll(SubredditUrl, SubredditPlaceholder, name)
  }

  /** Reading a subreddit's name back out of a listing URL: the partner of
      SubredditUrlFor. */
  function SubredditNameOf(url: string): Option<string> {
    var prefix := BaseUrl + "r/";
    if StartsWith(url, prefix) && |url| > |prefix| && url[|url| - 1] == '/'
    then Some(url[|prefix|..|url| - 1])
    else None
  }

  lemma SubredditUrlRoundTrip(name: string)
    ensures SubredditNameOf(SubredditUrlFor(name)) == Some(name)
  {
  }

  /** The main page's URL is not the URL of any subreddit. */
  lemma BaseUrlIsNoSubreddit()
    ensures SubredditNameOf(BaseUrl) == None
  {
  }
}
