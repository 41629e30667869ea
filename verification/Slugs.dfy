/** The two parsers that derive a repository's slug from its origin remote: the server's,
    which splits in stages, and the client's, which splits once. */
module Slugs {
  import opened Protocol

  // ---- Characters and pieces of strings ----

  predicate IsWhite(c: char) {
    var n := c as int;
    || 0x9 <= n <= 0xD || n == 0x20 || n == 0x85 || n == 0xA0 || n == 0x1680 || 0x2000 <= n <= 0x200A
    || n == 0x2028 || n == 0x2029 || n == 0x202F || n == 0x205F || n == 0x3000
  }

  predicate IsSlash(c: char) { c == '/' }

  predicate IsSeparator(c: char) { c == '/' || c == ':' }

  predicate IsCut(c: char) { c == '?' || c == '#' }

  predicate Free(s: string, p: char -> bool) {
    forall c :: c in s ==> !p(c)
  }

  predicate Only(s: string, p: char -> bool) {
    forall c :: c in s ==> p(c)
  }

  function TrimStart(s: string, p: char -> bool): string {
    if s != "" && p(s[0]) then TrimStart(s[1..], p) else s
  }

  function TrimEnd(s: string, p: char -> bool): string {
    if s != "" && p(s[|s| - 1]) then TrimEnd(s[..|s| - 1], p) else s
  }

  function Trim(s: string): string {
    TrimEnd(TrimStart(s, IsWhite), IsWhite)
  }

  /** Up to the first character that satisfies p. */
  function Before(s: string, p: char -> bool): string {
    if s == "" || p(s[0]) then "" else [s[0]] + Before(s[1..], p)
  }

  /** After the last character that satisfies p. */
  function LastPiece(s: string, p: char -> bool): (r: string)
    ensures Free(r, p)
    ensures forall c :: c in r ==> c in s
  {
    if s == "" || p(s[|s| - 1]) then "" else LastPiece(s[..|s| - 1], p) + [s[|s| - 1]]
  }

  /** What follows the first occurrence of c. */
  function AfterFirst(s: string, c: char): Option<string> {
    if s == "" then None else if s[0] == c then Some(s[1..]) else AfterFirst(s[1..], c)
  }

  const MARKER := "://"

  /** What follows the first occurrence of the scheme marker. */
  function AfterMarker(s: string): Option<string> {
    if |s| < 3 then None else if s[..3] == MARKER then Some(s[3..]) else AfterMarker(s[1..])
  }

  const GIT := ".git"

  predicate EndsWith(s: string, suffix: string) {
    |suffix| <= |s| && s[|s| - |suffix|..] == suffix
  }

  function StripGit(s: string): string {
    if EndsWith(s, GIT) then s[..|s| - 4] else s
  }

  function NonEmpty(s: string): Option<string> {
    if s == "" then None else Some(s)
  }

  // ---- The server's parser ----

  function PathPart(url: string): Option<string> {
    match AfterMarker(url)
    case Some(rest) => AfterFirst(rest, '/')
    case None =>
      match AfterFirst(url, ':')
      case Some(path) => Some(path)
      case None => Some(url)
  }

  function SlugOfPath(path: string): Option<string> {
    NonEmpty(StripGit(Trim(LastPiece(TrimEnd(Before(path, IsCut), IsSlash), IsSlash))))
  }

  function ParseSlug(url: string): Option<Slug> {
    var u := Trim(url);
    if u == "" then None
    else match PathPart(u)
      case None => None
      case Some(path) => SlugOfPath(path)
  }

  // ---- The client's parser ----

  function ParseOriginUrl(url: string): Option<Slug> {
    var u := Trim(url);
    if u == "" then None else NonEmpty(StripGit(LastPiece(u, IsSeparator)))
  }

  // ---- Remotes ----

  /** A remote without its last path segment; the segments before it are `parents`. */
  datatype Remote =
    | Scp(host: string, rooted: bool, parents: seq<string>)
    | Url(scheme: string, host: string, parents: seq<string>)
    | Path(rooted: bool, parents: seq<string>)

  /** The characters c and d occur nowhere in s. */
  predicate Without(s: string, c: char, d: char) {
    c !in s && d !in s
  }

  predicate Clean(segment: string) {
    segment != "" && Without(segment, '/', ':') && Without(segment, '?', '#') && Free(segment, IsWhite)
  }

  predicate CleanRemote(r: Remote) {
    && (forall s :: s in r.parents ==> Clean(s))
    && match r
       case Scp(host, _, _) => Without(host, '/', ':') && Free(host, IsWhite)
       case Url(scheme, host, _) =>
         Without(scheme, '/', ':') && Free(scheme, IsWhite) && '/' !in host && Free(host, IsWhite)
       case Path(_, _) => true
  }

  function Segments(parents: seq<string>): string {
    if parents == [] then "" else parents[0] + "/" + Segments(parents[1..])
  }

  function Root(rooted: bool): string {
    if rooted then "/" else ""
  }

  /** The text of a remote with its last segment and what follows it. */
  function Render(r: Remote, tail: string): string {
    match r
    case Scp(host, rooted, parents) => host + ":" + (Root(rooted) + Segments(parents) + tail)
    case Url(scheme, host, parents) => scheme + MARKER + (host + "/" + (Segments(parents) + tail))
    case Path(rooted, parents) => Root(rooted) + Segments(parents) + tail
  }

  function Slashes(k: nat): string {
    seq(k, _ => '/')
  }

  /** A query or fragment, or nothing. */
  predicate Query(q: string) {
    q != "" ==> (q[0] == '?' || q[0] == '#') && Without(q, '/', ':') && !IsWhite(q[|q| - 1])
  }

  // ---- Lemmas about the characters ----

  /** The white-space characters of Unicode. */
  const BLANKS := "\t\n\U{B}\U{C}\r \U{85}\U{A0}\U{1680}\U{2000}\U{2001}\U{2002}\U{2003}\U{2004}\U{2005}\U{2006}" +
    "\U{2007}\U{2008}\U{2009}\U{200A}\U{2028}\U{2029}\U{202F}\U{205F}\U{3000}"

  lemma WhiteIs(c: char)
    ensures IsWhite(c) <==> c in BLANKS
  {
  }

  /** `.git` is taken off exactly once, and only from the end. */
  lemma NameCases(last: string)
    ensures forall t :: last == t + ".git" ==> NonEmpty(StripGit(last)) == if t == "" then None else Some(t)
    ensures (forall t :: last != t + ".git") ==> NonEmpty(StripGit(last)) == if last == "" then None else Some(last)
  {
    if EndsWith(last, GIT) {
      assert last == last[..|last| - 4] + ".git";
    }
  }

  // ---- Lemmas about the pieces ----

  lemma {:induction false} TrimStartDrops(pad: string, s: string, p: char -> bool)
    requires Only(pad, p) && s != "" && !p(s[0])
    ensures TrimStart(pad + s, p) == s
  {
    if pad == "" {
      assert pad + s == s;
    } else {
      assert pad[0] in pad && (pad + s)[1..] == pad[1..] + s;
      TrimStartDrops(pad[1..], s, p);
    }
  }

  lemma {:induction false} TrimEndDrops(s: string, pad: string, p: char -> bool)
    requires Only(pad, p) && s != "" && !p(s[|s| - 1])
    ensures TrimEnd(s + pad, p) == s
  {
    if pad == "" {
      assert s + pad == s;
    } else {
      var n := |pad| - 1;
      assert pad[n] in pad && (s + pad)[..|s| + n] == s + pad[..n];
      TrimEndDrops(s, pad[..n], p);
    }
  }

  lemma TrimDrops(pre: string, s: string, post: string)
    requires Only(pre, IsWhite) && Only(post, IsWhite) && s != "" && !IsWhite(s[0]) && !IsWhite(s[|s| - 1])
    ensures Trim(pre + s + post) == s
  {
    assert pre + s + post == pre + (s + post);
    TrimStartDrops(pre, s + post, IsWhite);
    TrimEndDrops(s, post, IsWhite);
  }

  lemma {:induction false} BeforeCut(s: string, t: string, p: char -> bool)
    requires Free(s, p) && (t == "" || p(t[0]))
    ensures Before(s + t, p) == s
  {
    if s == "" {
      assert s + t == t;
    } else {
      assert s[0] in s && (s + t)[1..] == s[1..] + t;
      BeforeCut(s[1..], t, p);
    }
  }

  lemma {:induction false} LastPieceIs(s: string, t: string, p: char -> bool)
    requires Free(t, p) && (s == "" || p(s[|s| - 1]))
    ensures LastPiece(s + t, p) == t
  {
    if t == "" {
      assert s + t == s;
    } else {
      var n := |t| - 1;
      assert t[n] in t && (s + t)[..|s| + n] == s + t[..n];
      LastPieceIs(s, t[..n], p);
    }
  }

  lemma {:induction false} AfterFirstIs(s: string, t: string, c: char)
    requires c !in s
    ensures AfterFirst(s, c) == None && AfterFirst(s + [c] + t, c) == Some(t)
  {
    if s == "" {
      assert s + [c] + t == [c] + t;
    } else {
      assert (s + [c] + t)[1..] == s[1..] + [c] + t;
      AfterFirstIs(s[1..], t, c);
    }
  }

  /** The scheme marker does not begin at any of the first n characters. */
  ghost predicate NoMarkerIn(s: string, n: nat) {
    forall i :: 0 <= i < n && i + 3 <= |s| ==> s[i..][..3] != "://"
  }

  lemma {:induction false} AfterMarkerIs(s: string, t: string)
    requires NoMarkerIn(s + "://" + t, |s|)
    ensures AfterMarker(s + "://" + t) == Some(t)
  {
    var u := s + "://" + t;
    if s == "" {
      assert u == "://" + t;
    } else {
      assert u[0..] == u && u[1..] == s[1..] + "://" + t;
      forall i | 0 <= i < |s| - 1 && i + 3 <= |u| - 1 ensures u[1..][i..][..3] != "://" {
        assert u[1..][i..] == u[i + 1..];
      }
      AfterMarkerIs(s[1..], t);
    }
  }

  lemma {:induction false} NoMarker(s: string)
    requires NoMarkerIn(s, |s|)
    ensures AfterMarker(s) == None
  {
    if |s| >= 3 {
      assert s[0..] == s;
      forall i | 0 <= i < |s| - 1 && i + 3 <= |s| - 1 ensures s[1..][i..][..3] != "://" {
        assert s[1..][i..] == s[i + 1..];
      }
      NoMarker(s[1..]);
    }
  }

  lemma MarkerNeedsColon(s: string, n: nat)
    requires forall i :: 0 <= i < |s| - 2 && i < n && s[i] == ':' ==> !(s[i + 1] == '/' && s[i + 2] == '/')
    ensures NoMarkerIn(s, n)
  {
    forall i | 0 <= i < n && i + 3 <= |s| ensures s[i..][..3] != "://" {
      var t := s[i..][..3];
      assert t[0] == s[i] && t[1] == s[i + 1] && t[2] == s[i + 2];
    }
  }

  lemma {:induction false} SegmentsShape(parents: seq<string>)
    requires forall s :: s in parents ==> Clean(s)
    ensures var t := Segments(parents);
            && Free(t, IsCut) && Free(t, IsWhite) && ':' !in t
            && (t != "" ==> t[0] != '/' && t[|t| - 1] == '/')
  {
    if parents != [] {
      SegmentsShape(parents[1..]);
      assert parents[0] in parents && parents[0][0] in parents[0];
    }
  }

  // ---- What the parsers see of a remote ----

  /** Blank text names nothing. */
  lemma BlankNamesNothing(s: string)
    requires forall c :: c in s ==> c in BLANKS
    ensures ParseSlug(s) == ParseOriginUrl(s) == None
  {
    TrimFacts(s);
    forall c | c in s ensures IsWhite(c) { WhiteIs(c); }
  }

  /** The last segment, any trailing slashes, and any query or fragment. */
  function Tail(last: string, k: nat, q: string): string {
    last + Slashes(k) + q
  }

  function Lead(r: Remote): string {
    match r
    case Scp(_, rooted, parents) => Root(rooted) + Segments(parents)
    case Url(_, _, parents) => Segments(parents)
    case Path(rooted, parents) => Root(rooted) + Segments(parents)
  }

  lemma LeadShape(r: Remote)
    requires CleanRemote(r)
    ensures var t := Lead(r);
            Free(t, IsCut) && Free(t, IsWhite) && ':' !in t && (t != "" ==> t[|t| - 1] == '/') &&
                !(|t| >= 2 && t[0] == '/' && t[1] == '/')
  {
    SegmentsShape(r.parents);
  }

  lemma TailShape(last: string, k: nat, q: string)
    requires Clean(last) && Query(q)
    ensures var t := Tail(last, k, q);
            t != "" && !IsSeparator(t[0]) && !IsWhite(t[0]) && !IsWhite(t[|t| - 1]) && ':' !in t
  {
  }

  /** The path of a URL follows the first slash after the host; without one there is no path, hence no name. */
  lemma UrlPath(scheme: string, host: string, path: string)
    requires NoMarkerIn(scheme + "://" + (host + "/" + path), |scheme|) && '/' !in host
    ensures PathPart(scheme + "://" + (host + "/" + path)) == Some(path)
  {
    AfterMarkerIs(scheme, host + "/" + path);
    AfterFirstIs(host, path, '/');
  }

  lemma UrlWithoutPath(scheme: string, host: string)
    requires NoMarkerIn(scheme + "://" + host, |scheme|) && '/' !in host
    ensures PathPart(scheme + "://" + host) == None
  {
    AfterMarkerIs(scheme, host);
    AfterFirstIs(host, "", '/');
  }

  lemma ScpPath(host: string, path: string)
    requires NoMarkerIn(host + ":" + path, |host + ":" + path|) && ':' !in host
    ensures PathPart(host + ":" + path) == Some(path)
  {
    NoMarker(host + ":" + path);
    AfterFirstIs(host, path, ':');
  }

  lemma BarePath(path: string)
    requires ':' !in path
    ensures PathPart(path) == Some(path)
  {
    MarkerNeedsColon(path, |path|);
    NoMarker(path);
    AfterFirstIs(path, "", ':');
  }

  lemma ScpHasNoMarker(host: string, path: string)
    requires ':' !in host && ':' !in path && !(|path| >= 2 && path[0] == '/' && path[1] == '/')
    ensures NoMarkerIn(host + ":" + path, |host + ":" + path|)
  {
    var u := host + ":" + path;
    assert forall i :: 0 <= i < |u| && i != |host| ==> u[i] in host || u[i] in path;
    forall i | 0 <= i < |u| - 2 && u[i] == ':' ensures !(u[i + 1] == '/' && u[i + 2] == '/') {
      assert u[i + 1] == path[0] && u[i + 2] == path[1];
    }
    MarkerNeedsColon(u, |u|);
  }

  lemma SchemeIsFirst(scheme: string, rest: string)
    requires ':' !in scheme
    ensures NoMarkerIn(scheme + "://" + rest, |scheme|)
  {
    var u := scheme + "://" + rest;
    assert forall i :: 0 <= i < |scheme| ==> u[i] == scheme[i];
    MarkerNeedsColon(u, |scheme|);
  }

  lemma PathPartIs(r: Remote, tail: string)
    requires CleanRemote(r) && tail != "" && !IsSeparator(tail[0]) && ':' !in tail
    ensures PathPart(Render(r, tail)) == Some(Lead(r) + tail)
  {
    LeadShape(r);
    match r
    case Scp(host, rooted, parents) =>
      SegmentsShape(parents);
      assert Root(rooted) + Segments(parents) + tail == Lead(r) + tail;
      ScpHasNoMarker(host, Lead(r) + tail);
      ScpPath(host, Lead(r) + tail);
    case Url(scheme, host, parents) =>
      SchemeIsFirst(scheme, host + "/" + (Segments(parents) + tail));
      UrlPath(scheme, host, Segments(parents) + tail);
    case Path(_, _) =>
      BarePath(Lead(r) + tail);
  }

  lemma {:induction false} OnlySlashes(k: nat)
    ensures TrimEnd(Slashes(k), IsSlash) == ""
  {
    if k > 0 {
      assert Slashes(k)[..k - 1] == Slashes(k - 1);
      OnlySlashes(k - 1);
    }
  }

  lemma UndecoratedPath(path: string, k: nat, q: string)
    requires path == "" || path[|path| - 1] != '/'
    requires Without(path, '?', '#') && (q == "" || q[0] == '?' || q[0] == '#')
    ensures TrimEnd(Before(path + Slashes(k) + q, IsCut), IsSlash) == path
  {
    BeforeCut(path + Slashes(k), q, IsCut);
    if path == "" {
      assert path + Slashes(k) == Slashes(k);
      OnlySlashes(k);
    } else {
      TrimEndDrops(path, Slashes(k), IsSlash);
    }
  }

  /** The name in any path: its last segment, after which slashes and then a query or fragment may follow, without
      the blanks around it and one `.git`. Every path has this form. */
  lemma SlugOfAnyPath(lead: string, last: string, k: nat, q: string)
    requires lead == "" || (lead[|lead| - 1] == '/' && last != "")
    requires '/' !in last && Without(lead + last, '?', '#') && (q == "" || q[0] == '?' || q[0] == '#')
    ensures SlugOfPath(lead + last + Slashes(k) + q) == NonEmpty(StripGit(Trim(last)))
  {
    assert last != "" ==> last[|last| - 1] in last;
    UndecoratedPath(lead + last, k, q);
    LastPieceIs(lead, last, IsSlash);
  }

  lemma CleanTrims(s: string)
    requires Clean(s)
    ensures Trim(s) == s
  {
    assert "" + s + "" == s && s[0] in s && s[|s| - 1] in s;
    TrimDrops("", s, "");
  }

  lemma SlugOfPathIs(lead: string, last: string, k: nat, q: string)
    requires Without(lead, '?', '#') && (lead == "" || lead[|lead| - 1] == '/') && Clean(last) && Query(q)
    ensures SlugOfPath(lead + Tail(last, k, q)) == NonEmpty(StripGit(last))
  {
    assert lead + Tail(last, k, q) == lead + last + Slashes(k) + q;
    SlugOfAnyPath(lead, last, k, q);
    CleanTrims(last);
  }

  lemma RenderSplits(r: Remote, tail: string)
    ensures Render(r, tail) == Render(r, "") + tail
  {
  }

  /** What stands before the tail starts with no blank and ends with a separator. */
  predicate Framed(t: string) {
    t != "" ==> !IsWhite(t[0]) && IsSeparator(t[|t| - 1])
  }

  lemma ScpFramed(host: string, lead: string)
    requires Free(host, IsWhite) && (lead != "" ==> lead[|lead| - 1] == '/')
    ensures Framed(host + ":" + (lead + ""))
  {
  }

  lemma UrlFramed(scheme: string, host: string, lead: string)
    requires Free(scheme, IsWhite) && (lead != "" ==> lead[|lead| - 1] == '/')
    ensures Framed(scheme + MARKER + (host + "/" + (lead + "")))
  {
  }

  lemma RenderFramed(r: Remote)
    requires CleanRemote(r)
    ensures Framed(Render(r, ""))
  {
    LeadShape(r);
    match r
    case Scp(host, _, _) => ScpFramed(host, Lead(r));
    case Url(scheme, host, _) => UrlFramed(scheme, host, Lead(r));
    case Path(_, _) => assert Lead(r) + "" == Lead(r); assert Lead(r) != "" ==> Lead(r)[0] in Lead(r);
  }

  /** A remote's text, with blanks around it as the version control tools print it. */
  function Text(r: Remote, last: string, k: nat, q: string, pre: string, post: string): string {
    pre + Render(r, Tail(last, k, q)) + post
  }

  predicate Plain(r: Remote, last: string, q: string, pre: string, post: string) {
    CleanRemote(r) && Clean(last) && Query(q) && Only(pre, IsWhite) && Only(post, IsWhite)
  }

  lemma TextTrims(r: Remote, last: string, k: nat, q: string, pre: string, post: string)
    requires Plain(r, last, q, pre, post)
    ensures Trim(Text(r, last, k, q, pre, post)) == Render(r, Tail(last, k, q)) != ""
  {
    var tail := Tail(last, k, q);
    TailShape(last, k, q);
    RenderSplits(r, tail);
    RenderFramed(r);
    TrimDrops(pre, Render(r, tail), post);
  }

  // ---- The results ----

  /** The server takes the last segment less one `.git`, whatever trailing slashes, query or fragment follow. */
  lemma ServerSlug(r: Remote, last: string, k: nat, q: string, pre: string, post: string)
    requires Plain(r, last, q, pre, post)
    ensures ParseSlug(Text(r, last, k, q, pre, post)) == NonEmpty(StripGit(last))
  {
    TextTrims(r, last, k, q, pre, post);
    TailShape(last, k, q);
    PathPartIs(r, Tail(last, k, q));
    LeadShape(r);
    SlugOfPathIs(Lead(r), last, k, q);
  }

  /** The client takes what follows the last separator, less one `.git`. */
  lemma ClientSlug(r: Remote, last: string, k: nat, q: string, pre: string, post: string)
    requires Plain(r, last, q, pre, post)
    ensures ParseOriginUrl(Text(r, last, k, q, pre, post)) == NonEmpty(StripGit(if k == 0 then last + q else q))
  {
    TextTrims(r, last, k, q, pre, post);
    RenderSplits(r, Tail(last, k, q));
    RenderFramed(r);
    var front := Render(r, "");
    if k == 0 {
      assert Tail(last, k, q) == last + q;
      LastPieceIs(front, last + q, IsSeparator);
    } else {
      assert front + Tail(last, k, q) == (front + last + Slashes(k)) + q;
      LastPieceIs(front + last + Slashes(k), q, IsSeparator);
    }
  }

  lemma CutStays(s: string, q: string)
    requires q != "" && IsCut(q[0])
    ensures q[0] in StripGit(s + q)
  {
    var t := s + q;
    assert t[|s|] == q[0];
    if |t| >= 4 && |t| - 4 <= |s| {
      assert t[|t| - 4..][|s| - (|t| - 4)] == q[0];
      assert GIT[|s| - (|t| - 4)] != q[0];
    }
    assert StripGit(t)[|s|] == q[0];
  }

  /** The two parsers agree exactly on remotes without query, fragment or trailing slash, apart from
      a last segment `.git` with trailing slashes, from which neither takes a slug. */
  lemma ParsersAgreeIff(r: Remote, last: string, k: nat, q: string, pre: string, post: string)
    requires Plain(r, last, q, pre, post)
    ensures ParseSlug(Text(r, last, k, q, pre, post)) == ParseOriginUrl(Text(r, last, k, q, pre, post))
            <==> q == "" && (k == 0 || last == GIT)
  {
    ServerSlug(r, last, k, q, pre, post);
    ClientSlug(r, last, k, q, pre, post);
    if q != "" {
      assert "" + q == q;
      CutStays(if k == 0 then last else "", q);
      assert Free(StripGit(last), IsCut);
    } else {
      assert last + q == last;
      assert StripGit(last) == "" <==> last == GIT by {
        if |last| == 4 { assert last[|last| - 4..] == last; }
      }
    }
  }

  /** On the plain remotes of all three forms both parsers return the last segment less one `.git`. */
  lemma ParsersAgree(r: Remote, last: string, pre: string, post: string)
    requires Plain(r, last, "", pre, post)
    ensures ParseSlug(Text(r, last, 0, "", pre, post)) == ParseOriginUrl(Text(r, last, 0, "", pre, post)) ==
        NonEmpty(StripGit(last))
  {
    assert last + "" == last;
    ServerSlug(r, last, 0, "", pre, post);
    ClientSlug(r, last, 0, "", pre, post);
  }

  lemma WithGit(slug: string)
    requires Clean(slug)
    ensures Clean(slug + GIT) && StripGit(slug + GIT) == slug
  {
  }

  /** Appending `.git` to a clean slug in any plain remote and parsing gives the slug back. */
  lemma DotGitRoundTrip(r: Remote, slug: string, pre: string, post: string)
    requires Plain(r, slug, "", pre, post)
    ensures ParseSlug(Text(r, slug + GIT, 0, "", pre, post)) ==
        ParseOriginUrl(Text(r, slug + GIT, 0, "", pre, post)) == Some(slug)
  {
    WithGit(slug);
    ParsersAgree(r, slug + GIT, pre, post);
  }

  /** With trailing slashes the server still finds the name and the client finds nothing. */
  lemma TrailingSlashDisagrees(r: Remote, last: string, k: nat, pre: string, post: string)
    requires Plain(r, last, "", pre, post) && k > 0 && last != GIT
    ensures ParseSlug(Text(r, last, k, "", pre, post)) == Some(StripGit(last))
    ensures ParseOriginUrl(Text(r, last, k, "", pre, post)) == None
  {
    ServerSlug(r, last, k, "", pre, post);
    ClientSlug(r, last, k, "", pre, post);
    if |last| == 4 { assert last[|last| - 4..] == last; }
  }

  // ---- All remotes ----

  /** The path without its query or fragment, and that. */
  function Body(path: string): string {
    Before(path, IsCut)
  }

  function QueryOf(path: string): (q: string)
    ensures Body(path) + q == path && (q != "" ==> IsCut(q[0]))
  {
    BeforeIsPrefix(path, IsCut);
    path[|Body(path)|..]
  }

  /** The last segment, after trailing slashes have been removed. */
  function Segment(path: string): string {
    LastPiece(TrimEnd(Body(path), IsSlash), IsSlash)
  }

  predicate Slashed(path: string) {
    Body(path) != "" && IsSlash(Body(path)[|Body(path)| - 1])
  }

  /** The two names agree up to one `.git`, or neither is one. */
  predicate SameName(s: string, t: string) {
    NonEmpty(StripGit(s)) == NonEmpty(StripGit(t))
  }

  predicate Nameless(s: string) {
    s == "" || s == GIT
  }

  lemma {:induction false} BeforeIsPrefix(s: string, p: char -> bool)
    ensures Before(s, p) <= s && Free(Before(s, p), p)
    ensures |Before(s, p)| < |s| ==> p(s[|Before(s, p)|])
  {
    if s != "" && !p(s[0]) {
      BeforeIsPrefix(s[1..], p);
    }
  }

  lemma {:induction false} LastPieceSkips(s: string, t: string, p: char -> bool)
    requires s == "" || p(s[|s| - 1]) || !Free(t, p)
    ensures LastPiece(s + t, p) == LastPiece(t, p)
    decreases |t|
  {
    if t == "" {
      assert s + t == s;
    } else {
      var n := |t| - 1;
      assert (s + t)[..|s + t| - 1] == s + t[..n];
      if !p(t[n]) {
        assert t == t[..n] + [t[n]];
        LastPieceSkips(s, t[..n], p);
      }
    }
  }

  lemma {:induction false} LastPieceAppends(s: string, t: string, p: char -> bool)
    requires Free(t, p)
    ensures LastPiece(s + t, p) == LastPiece(s, p) + t
    decreases |t|
  {
    if t == "" {
      assert s + t == s;
    } else {
      var n := |t| - 1;
      assert (s + t)[..|s + t| - 1] == s + t[..n] && t[n] in t && t == t[..n] + [t[n]];
      LastPieceAppends(s, t[..n], p);
    }
  }

  lemma {:induction false} LastPieceSplits(s: string, p: char -> bool) returns (front: string)
    ensures s == front + LastPiece(s, p) && (front == "" || p(front[|front| - 1]))
  {
    if s == "" || p(s[|s| - 1]) {
      front := s;
    } else {
      front := LastPieceSplits(s[..|s| - 1], p);
    }
  }

  lemma {:induction false} AfterFirstSplits(s: string, c: char) returns (front: string)
    requires AfterFirst(s, c).Some?
    ensures s == front + AfterFirst(s, c).value && front != "" && front[|front| - 1] == c
  {
    if s[0] == c {
      front := [c];
    } else {
      front := AfterFirstSplits(s[1..], c);
      front := [s[0]] + front;
    }
  }

  lemma {:induction false} AfterMarkerSplits(s: string) returns (front: string)
    requires AfterMarker(s).Some?
    ensures s == front + AfterMarker(s).value
  {
    if s[..3] == MARKER {
      front := MARKER;
    } else {
      front := AfterMarkerSplits(s[1..]);
      front := [s[0]] + front;
    }
  }

  /** The path is what remains after a separator, or everything. */
  lemma PathPartSplits(u: string) returns (front: string)
    requires PathPart(u).Some?
    ensures u == front + PathPart(u).value && (front == "" || IsSeparator(front[|front| - 1]))
  {
    match AfterMarker(u)
    case Some(rest) =>
      var before := AfterMarkerSplits(u);
      var host := AfterFirstSplits(rest, '/');
      front := before + host;
    case None =>
      if AfterFirst(u, ':').Some? {
        front := AfterFirstSplits(u, ':');
      } else {
        front := "";
      }
  }

  lemma {:induction false} TrimEndPrefix(s: string, p: char -> bool)
    ensures TrimEnd(s, p) <= s
    ensures TrimEnd(s, p) != "" ==> !p(TrimEnd(s, p)[|TrimEnd(s, p)| - 1])
    ensures s == "" || !p(s[|s| - 1]) ==> TrimEnd(s, p) == s
    ensures forall c :: c in s && !p(c) ==> c in TrimEnd(s, p)
  {
    if s != "" && p(s[|s| - 1]) {
      assert s == s[..|s| - 1] + [s[|s| - 1]];
      TrimEndPrefix(s[..|s| - 1], p);
    }
  }

  lemma {:induction false} TrimStartSuffix(s: string, p: char -> bool)
    ensures |TrimStart(s, p)| <= |s| && s[|s| - |TrimStart(s, p)|..] == TrimStart(s, p)
    ensures TrimStart(s, p) != "" ==> !p(TrimStart(s, p)[0])
    ensures s == "" || !p(s[0]) ==> TrimStart(s, p) == s
    ensures forall c :: c in s && !p(c) ==> c in TrimStart(s, p)
  {
    if s != "" && p(s[0]) {
      assert s == [s[0]] + s[1..];
      TrimStartSuffix(s[1..], p);
    }
  }

  lemma TrimFacts(s: string)
    ensures Trim(s) != "" ==> !IsWhite(Trim(s)[0]) && !IsWhite(Trim(s)[|Trim(s)| - 1])
    ensures s != "" && !IsWhite(s[0]) && !IsWhite(s[|s| - 1]) ==> Trim(s) == s
    ensures forall c :: c in s && !IsWhite(c) ==> c in Trim(s)
    ensures forall c :: c in Trim(s) ==> c in s
  {
    TrimStartSuffix(s, IsWhite);
    TrimEndPrefix(TrimStart(s, IsWhite), IsWhite);
  }

  lemma NamelessIff(s: string)
    ensures NonEmpty(StripGit(s)) == None <==> Nameless(s)
  {
    if |s| == 4 { assert s[|s| - 4..] == s; }
  }

  lemma StripKeeps(s: string, c: char)
    requires c in s && c !in GIT
    ensures c in StripGit(s)
  {
    if EndsWith(s, GIT) {
      assert s == s[..|s| - 4] + GIT;
    }
  }

  /** What the client takes of a path. */
  lemma ClientPiece(path: string)
    ensures var q := QueryOf(path);
            LastPiece(path, IsSeparator) ==
              if !Free(q, IsSeparator) then LastPiece(q, IsSeparator)
              else if Slashed(path) then q
              else LastPiece(Segment(path), IsSeparator) + q
  {
    var q, body := QueryOf(path), Body(path);
    if !Free(q, IsSeparator) {
      LastPieceSkips(body, q, IsSeparator);
    } else {
      LastPieceAppends(body, q, IsSeparator);
      if !Slashed(path) {
        TrimEndPrefix(body, IsSlash);
        var front := LastPieceSplits(body, IsSlash);
        LastPieceSkips(front, Segment(path), IsSeparator);
      } else {
        assert "" + q == q;
      }
    }
  }

  /** When the parsers agree on the text after the last of the separators the server splits at first. */
  predicate AgreeOnPath(path: string) {
    var q, segment := QueryOf(path), Segment(path);
    if !Free(q, IsSeparator) then SameName(LastPiece(q, IsSeparator), Trim(segment))
    else if q != "" then false
    else if Slashed(path) then Nameless(Trim(segment))
    else ':' !in segment && (segment == "" || !IsWhite(segment[0]))
  }

  predicate AgreeOn(u: string) {
    match PathPart(u)
    case None => Nameless(LastPiece(u, IsSeparator))
    case Some(path) => AgreeOnPath(path)
  }

  /** The server's name contains no cut character, the client's would. */
  lemma QueryDisagrees(path: string, x: string)
    requires QueryOf(path) != ""
    ensures NonEmpty(StripGit(x + QueryOf(path))) != SlugOfPath(path)
  {
    var q, segment := QueryOf(path), Segment(path);
    CutStays(x, q);
    BeforeIsPrefix(path, IsCut);
    TrimEndPrefix(Body(path), IsSlash);
    TrimFacts(segment);
    assert forall c :: c in segment ==> c in Body(path);
    assert q[0] !in StripGit(Trim(segment)) by {
      assert forall c :: c in StripGit(Trim(segment)) ==> c in Trim(segment);
    }
  }

  lemma ColonDisagrees(segment: string)
    requires ':' in segment
    ensures !SameName(LastPiece(segment, IsSeparator), Trim(segment))
  {
    TrimFacts(segment);
    StripKeeps(Trim(segment), ':');
    var piece := LastPiece(segment, IsSeparator);
    assert ':' !in StripGit(piece) by {
      assert forall c :: c in StripGit(piece) ==> c in piece;
    }
  }

  lemma BlankDisagrees(segment: string)
    requires segment != "" && IsWhite(segment[0]) && !IsWhite(segment[|segment| - 1])
    ensures !SameName(segment, Trim(segment))
  {
    TrimFacts(segment);
    assert |StripGit(segment)| > 0 && StripGit(segment)[0] == segment[0] by {
      assert GIT[0] == '.' && !IsWhite('.');
    }
    assert StripGit(Trim(segment)) <= Trim(segment);
  }

  lemma WholePiece(segment: string)
    requires Free(segment, IsSlash) && ':' !in segment
    ensures LastPiece(segment, IsSeparator) == segment
  {
    assert "" + segment == segment;
    LastPieceIs("", segment, IsSeparator);
  }

  lemma TrimmedIsSame(segment: string)
    requires segment != "" && !IsWhite(segment[0]) && !IsWhite(segment[|segment| - 1])
    ensures SameName(segment, Trim(segment))
  {
    TrimFacts(segment);
  }

  lemma SegmentAgreesIff(segment: string)
    requires Free(segment, IsSlash) && (segment != "" ==> !IsWhite(segment[|segment| - 1]))
    ensures SameName(LastPiece(segment, IsSeparator), Trim(segment))
            <==> ':' !in segment && (segment == "" || !IsWhite(segment[0]))
  {
    if ':' in segment {
      ColonDisagrees(segment);
    } else {
      WholePiece(segment);
      if segment == "" {
        assert Trim(segment) == segment;
      } else if IsWhite(segment[0]) {
        BlankDisagrees(segment);
      } else {
        TrimmedIsSame(segment);
      }
    }
  }

  /** Nothing follows the last segment. */
  lemma BareAgreesIff(path: string)
    requires QueryOf(path) == "" && !Slashed(path) && (path != "" ==> !IsWhite(path[|path| - 1]))
    ensures SlugOfPath(path) == NonEmpty(StripGit(LastPiece(Segment(path), IsSeparator))) <==> AgreeOnPath(path)
  {
    TrimEndPrefix(Body(path), IsSlash);
    assert Body(path) == path;
    var front := LastPieceSplits(path, IsSlash);
    SegmentAgreesIff(Segment(path));
  }

  lemma PathsAgreeIff(path: string)
    requires path != "" ==> !IsWhite(path[|path| - 1])
    ensures SlugOfPath(path) == NonEmpty(StripGit(LastPiece(path, IsSeparator))) <==> AgreeOnPath(path)
  {
    var q, segment := QueryOf(path), Segment(path);
    ClientPiece(path);
    if Free(q, IsSeparator) {
      var x := if Slashed(path) then "" else LastPiece(segment, IsSeparator);
      assert LastPiece(path, IsSeparator) == x + q;
      if q != "" {
        QueryDisagrees(path, x);
      } else {
        assert x + q == x;
        if Slashed(path) { NamelessIff(Trim(segment)); } else { BareAgreesIff(path); }
      }
    }
  }

  /** For every text at all: exactly when the two parsers return the same. With no separator in a query or fragment,
      that is when there is none, no slash follows the last segment (or it names nothing), and this segment has
      no colon and no leading blank; without a path, when the client finds no name either. */
  lemma AllRemotesAgreeIff(url: string)
    ensures ParseSlug(url) == ParseOriginUrl(url) <==> Trim(url) == "" || AgreeOn(Trim(url))
  {
    var u := Trim(url);
    TrimFacts(url);
    if u != "" {
      if PathPart(u).Some? {
        var front := PathPartSplits(u);
        LastPieceSkips(front, PathPart(u).value, IsSeparator);
        PathsAgreeIff(PathPart(u).value);
      } else {
        NamelessIff(LastPiece(u, IsSeparator));
      }
    }
  }
}
