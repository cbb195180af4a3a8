/**
 * The platform's development-server middleware that serves the sibling
 * demo apps: a request URL of the form `/demos/frontend-app-<name>`,
 * optionally followed by `/index.html` and a query, is answered with that
 * app's `index.html` when the file exists; anything else goes on to the
 * next middleware. The file system is a parameter; reading the file and
 * writing the response are not modelled.
 */
module DevServer {
  import opened Wrappers
  import opened Strings

  const DemosPrefix: string := "/demos/"
  const AppPrefix: string := "frontend-app-"
  const IndexHtml: string := "/index.html"
  const IndexFile: string := "index.html"
  const HtmlContentType: string := "text/html; charset=utf-8"

  /** The characters `[^/?#]` excludes. */
  predicate IsNameStop(c: char) {
    c == '/' || c == '?' || c == '#'
  }

  /** `.*`: a run of characters none of which is a line terminator. */
  predicate AnyLine(s: string) {
    forall i | 0 <= i < |s| :: !IsLineTerminator(s[i])
  }

  /** `t` starts with `p`. */
  predicate StartsWith(t: string, p: string) {
    |p| <= |t| && t[..|p|] == p
  }

  /** `(frontend-app-[^/?#]+)`: the prefix, then at least one character that is not '/', '?' or '#'. */
  predicate IsAppName(n: string) {
    |n| > |AppPrefix| && StartsWith(n, AppPrefix) && forall i | 0 <= i < |n| :: !IsNameStop(n[i])
  }

  /** `(\/index\.html)?(\?.*)?$`: what may follow the name. */
  predicate IsTail(t: string) {
    t == "" || t == IndexHtml ||
    (StartsWith(t, "?") && AnyLine(t[1..])) ||
    (StartsWith(t, IndexHtml + "?") && AnyLine(t[|IndexHtml| + 1..]))
  }

  /**
   * The pattern read as a declaration: `url` is the demos prefix, the
   * captured name and an allowed tail, in that order.
   */
  predicate PatternMatches(url: string, name: string, tail: string -> bool) {
    |url| >= |DemosPrefix| + |name| &&
    StartsWith(url, DemosPrefix) &&
    url[|DemosPrefix|..|DemosPrefix| + |name|] == name &&
    IsAppName(name) &&
    tail(url[|DemosPrefix| + |name|..])
  }

  /** The longest prefix of `s` without '/', '?' or '#': what the greedy `[^/?#]+` takes. */
  function NameRun(s: string): (r: string)
    ensures StartsWith(s, r)
    ensures forall i | 0 <= i < |r| :: !IsNameStop(r[i])
    ensures |r| == |s| || IsNameStop(s[|r|])
  {
    if s == [] || IsNameStop(s[0]) then []
    else
      var rest := NameRun(s[1..]);
      assert s[1..][..|rest|] == s[1..|rest| + 1];
      [s[0]] + rest
  }

  /** The matcher as the regular expression runs it: the greedy name, then a check of what is left. */
  function MatchWith(url: string, tail: string -> bool): Option<string> {
    if StartsWith(url, DemosPrefix) then
      var rest := url[|DemosPrefix|..];
      var name := NameRun(rest);
      if IsAppName(name) && tail(rest[|name|..]) then Some(name) else None
    else None
  }

  /** `url.match(...)` and `match[1]` as written. */
  function MatchDemoUrl(url: string): (r: Option<string>)
    ensures r.Some? ==> PatternMatches(url, r.value, IsTail)
    ensures r.Some? ==> IsAppName(r.value)
  {
    MatchWithSound(url, IsTail);
    MatchWith(url, IsTail)
  }

  /** What the greedy run leaves of a name followed by anything starting with '/' or '?', or by nothing. */
  lemma {:induction false} NameRunOf(name: string, t: string)
    requires forall i | 0 <= i < |name| :: !IsNameStop(name[i])
    requires t == "" || IsNameStop(t[0])
    ensures NameRun(name + t) == name
  {
    if name == [] {
      assert name + t == t;
    } else {
      assert (name + t)[0] == name[0] && (name + t)[1..] == name[1..] + t;
      NameRunOf(name[1..], t);
      assert [name[0]] + name[1..] == name;
    }
  }

  lemma MatchWithSound(url: string, tail: string -> bool)
    ensures MatchWith(url, tail).Some? ==> PatternMatches(url, MatchWith(url, tail).value, tail)
  {
    if MatchWith(url, tail).Some? {
      var rest := url[|DemosPrefix|..];
      var name := NameRun(rest);
      assert url[|DemosPrefix|..|DemosPrefix| + |name|] == rest[..|name|];
      assert url[|DemosPrefix| + |name|..] == rest[|name|..];
    }
  }

  /** The greedy matcher finds every match the pattern allows, and the capture is unique. */
  lemma MatchComplete(url: string, name: string)
    requires PatternMatches(url, name, IsTail)
    ensures MatchDemoUrl(url) == Some(name)
  {
    var d := |DemosPrefix|;
    var rest := url[d..];
    var t := url[d + |name|..];
    assert rest == name + t;
    assert t == "" || IsNameStop(t[0]);
    NameRunOf(name, t);
  }

  /** The capture starts with `frontend-app-`, has at least one more character and holds no '/', '?' or '#'. */
  lemma CapturedName(url: string)
    requires MatchDemoUrl(url).Some?
    ensures StartsWith(MatchDemoUrl(url).value, AppPrefix)
    ensures |MatchDemoUrl(url).value| > |AppPrefix|
    ensures forall i | 0 <= i < |MatchDemoUrl(url).value| ::
      var c := MatchDemoUrl(url).value[i]; c != '/' && c != '?' && c != '#'
  {
  }

  /** A URL built from the prefix, an app name and a piece that stops the name is decided by that piece alone. */
  lemma MatchWithParts(name: string, t: string, tail: string -> bool)
    requires IsAppName(name) && (t == "" || IsNameStop(t[0]))
    ensures MatchWith(DemosPrefix + name + t, tail) == (if tail(t) then Some(name) else None)
  {
    var u := DemosPrefix + name + t;
    assert u == DemosPrefix + (name + t);
    assert u[..|DemosPrefix|] == DemosPrefix;
    assert u[|DemosPrefix|..] == name + t;
    assert (name + t)[|name|..] == t;
    NameRunOf(name, t);
  }

  /** The four URL shapes that match, for any app name and any one-line query. */
  lemma MatchingShapes(name: string, query: string)
    requires IsAppName(name) && AnyLine(query)
    ensures MatchDemoUrl(DemosPrefix + name) == Some(name)
    ensures MatchDemoUrl(DemosPrefix + name + IndexHtml) == Some(name)
    ensures MatchDemoUrl(DemosPrefix + name + "?" + query) == Some(name)
    ensures MatchDemoUrl(DemosPrefix + name + IndexHtml + "?" + query) == Some(name)
  {
    MatchWithParts(name, "", IsTail);
    assert DemosPrefix + name + "" == DemosPrefix + name;
    MatchWithParts(name, IndexHtml, IsTail);
    QueryShape(name, query);
    IndexQueryShape(name, query);
  }

  lemma QueryShape(name: string, query: string)
    requires IsAppName(name) && AnyLine(query)
    ensures MatchDemoUrl(DemosPrefix + name + "?" + query) == Some(name)
  {
    var q := "?" + query;
    assert q[0] == '?' && q[..1] == "?" && q[1..] == query;
    MatchWithParts(name, q, IsTail);
    assert DemosPrefix + name + "?" + query == DemosPrefix + name + q;
  }

  lemma IndexQueryShape(name: string, query: string)
    requires IsAppName(name) && AnyLine(query)
    ensures MatchDemoUrl(DemosPrefix + name + IndexHtml + "?" + query) == Some(name)
  {
    var iq := IndexHtml + "?" + query;
    assert iq[0] == '/' && iq[..|IndexHtml| + 1] == IndexHtml + "?" && iq[|IndexHtml| + 1..] == query;
    MatchWithParts(name, iq, IsTail);
    assert DemosPrefix + name + IndexHtml + "?" + query == DemosPrefix + name + iq;
  }

  /** A fragment after the name never matches. */
  lemma FragmentNoMatch(name: string, rest: string)
    requires IsAppName(name)
    ensures MatchDemoUrl(DemosPrefix + name + "#" + rest).None?
  {
    var t := "#" + rest;
    assert t[0] == '#' && t != "" && t != IndexHtml;
    assert !StartsWith(t, "?") && !StartsWith(t, IndexHtml + "?") by {
      assert IndexHtml[0] == '/';
    }
    MatchWithParts(name, t, IsTail);
    assert DemosPrefix + name + "#" + rest == DemosPrefix + name + t;
  }

  // ---------------------------------------------------------------------
  // The trailing slash
  // ---------------------------------------------------------------------

  /** As written, the bare trailing-slash form the comment promises does not match. */
  lemma TrailingSlashNoMatch(name: string)
    requires IsAppName(name)
    ensures MatchDemoUrl(DemosPrefix + name + "/").None?
  {
    var t := "/";
    assert |IndexHtml| == 11 && t[..1] == "/";
    assert t != IndexHtml && !StartsWith(t, "?") && !StartsWith(t, IndexHtml + "?");
    MatchWithParts(name, t, IsTail);
  }

  /** The tail with the bare trailing slash allowed too: `(\/(index\.html)?)?(\?.*)?$`. */
  predicate IsIntendedTail(t: string) {
    IsTail(t) || t == "/" || (StartsWith(t, "/?") && AnyLine(t[2..]))
  }

  /** The matcher with the trailing slash accepted, as the comment describes it. */
  function MatchDemoUrlIntended(url: string): (r: Option<string>)
    ensures r.Some? ==> PatternMatches(url, r.value, IsIntendedTail)
    ensures r.Some? ==> IsAppName(r.value)
  {
    MatchWithSound(url, IsIntendedTail);
    MatchWith(url, IsIntendedTail)
  }

  /** The intended matcher serves the trailing-slash form and agrees with the written one on every URL it matched. */
  lemma IntendedMatchesTrailingSlash(name: string, url: string)
    requires IsAppName(name)
    ensures MatchDemoUrlIntended(DemosPrefix + name + "/") == Some(name)
    ensures MatchDemoUrl(url).Some? ==> MatchDemoUrlIntended(url) == MatchDemoUrl(url)
  {
    MatchWithParts(name, "/", IsIntendedTail);
  }

  // ---------------------------------------------------------------------
  // The middleware
  // ---------------------------------------------------------------------

  /** An absolute, normalised path as its segments. */
  type Path = seq<string>

  /** `path.resolve(dir, '..', name, 'index.html')` for a single-segment name. */
  function AppIndexPath(configDir: Path, name: string): (p: Path)
    ensures |configDir| > 0 ==> p == configDir[..|configDir| - 1] + [name, IndexFile]
    ensures |configDir| == 0 ==> p == [name, IndexFile]
  {
    var parent := if |configDir| > 0 then configDir[..|configDir| - 1] else [];
    parent + [name, IndexFile]
  }

  /** What the middleware does with a request. */
  datatype Action = ServeFile(path: Path, contentType: string) | Next

  /**
   * What the middleware does once the URL has been matched: serve the app's
   * `index.html` when the file exists, otherwise `next()`.
   */
  function Respond(m: Option<string>, configDir: Path, fileExists: Path -> bool): (a: Action)
    ensures a.Next? <==> m.None? || !fileExists(AppIndexPath(configDir, m.value))
    ensures a.ServeFile? ==>
      a.contentType == HtmlContentType && a.path == AppIndexPath(configDir, m.value) && fileExists(a.path)
  {
    if m.Some? then
      var filePath := AppIndexPath(configDir, m.value);
      if fileExists(filePath) then ServeFile(filePath, HtmlContentType) else Next
    else Next
  }

  /**
   * The middleware as written, with `fileExists` for `fs.existsSync`; `url`
   * is `req.url`, absent when undefined.
   */
  function Middleware(url: Option<string>, configDir: Path, fileExists: Path -> bool): (a: Action)
    ensures a.Next? <==>
      (MatchDemoUrl(url.GetOr("")).None? ||
       !fileExists(AppIndexPath(configDir, MatchDemoUrl(url.GetOr("")).value)))
    ensures a.ServeFile? ==>
      (a.contentType == HtmlContentType &&
       a.path == AppIndexPath(configDir, MatchDemoUrl(url.GetOr("")).value) && fileExists(a.path))
  {
    Respond(MatchDemoUrl(url.GetOr("")), configDir, fileExists)
  }

  /** The middleware with the corrected pattern. */
  function MiddlewareIntended(url: Option<string>, configDir: Path, fileExists: Path -> bool): (a: Action)
    ensures a.Next? <==>
      (MatchDemoUrlIntended(url.GetOr("")).None? ||
       !fileExists(AppIndexPath(configDir, MatchDemoUrlIntended(url.GetOr("")).value)))
    ensures a.ServeFile? ==>
      (a.contentType == HtmlContentType &&
       a.path == AppIndexPath(configDir, MatchDemoUrlIntended(url.GetOr("")).value) && fileExists(a.path))
  {
    Respond(MatchDemoUrlIntended(url.GetOr("")), configDir, fileExists)
  }

  /**
   * On the trailing-slash form the middleware as written calls `next()` even
   * when the app's `index.html` exists; the corrected one serves it. Wherever
   * the written one serves a file, the corrected one serves the same file.
   */
  lemma TrailingSlashFallsThrough(name: string, configDir: Path, fileExists: Path -> bool, url: Option<string>)
    requires IsAppName(name) && fileExists(AppIndexPath(configDir, name))
    ensures Middleware(Some(DemosPrefix + name + "/"), configDir, fileExists) == Next
    ensures MiddlewareIntended(Some(DemosPrefix + name + "/"), configDir, fileExists) ==
      ServeFile(AppIndexPath(configDir, name), HtmlContentType)
    ensures Middleware(url, configDir, fileExists).ServeFile? ==>
      MiddlewareIntended(url, configDir, fileExists) == Middleware(url, configDir, fileExists)
  {
    TrailingSlashNoMatch(name);
    IntendedMatchesTrailingSlash(name, url.GetOr(""));
  }

  /** A missing URL is `''`, which never matches. */
  lemma NoUrlFallsThrough(configDir: Path, fileExists: Path -> bool)
    ensures Middleware(None, configDir, fileExists) == Next
  {
  }

  /** The served file is the app's `index.html` directly under the config directory's parent: no other directory is reached. */
  lemma ServedFileIsSibling(url: Option<string>, configDir: Path, fileExists: Path -> bool)
    requires |configDir| > 0
    requires Middleware(url, configDir, fileExists).ServeFile?
    ensures var p := Middleware(url, configDir, fileExists).path;
      |p| == |configDir| + 1 &&
      p[..|configDir| - 1] == configDir[..|configDir| - 1] &&
      IsAppName(p[|configDir| - 1]) && p[|configDir| - 1] != ".." && p[|configDir|] == IndexFile
  {
    var name := MatchDemoUrl(url.GetOr("")).value;
    var p := AppIndexPath(configDir, name);
    assert p[|configDir| - 1] == name;
    assert name[0] == 'f' by {
      assert name[..|AppPrefix|] == AppPrefix;
      assert name[0] == name[..|AppPrefix|][0];
    }
  }
}
