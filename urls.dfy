/**
  Splitting GitHub repository URLs into an owner and a repository name, as the
  script does by hand in `addRepoUpstream` (forkpull.py:165-173) and `main`
  (forkpull.py:265, 272-279), and the URLs it builds from such a pair.
 */
module Urls {
  import opened Results
  import opened PyStr

  const HTTPS_PREFIX: string := "https://github.com/"
  const SSH_PREFIX: string := "git@github.com:"
  const GIT_SUFFIX: string := ".git"
  const API_REPOS: string := "https://api.github.com/repos/"

  /** The Python exception each malformed input raises. */
  datatype ParseError =
    | EmptyUrl                  // `url[0]` of an empty string: IndexError
    | SegmentsUnbound           // first character neither `h` nor `g`: `url_segments` is unbound
    | NoSegmentOne              // the prefix does not occur: `url_segments[1]` raises IndexError
    | NotUserAndRepo(parts: nat) // `user, repo = ....split("/")` over `parts` values: ValueError
    | NoOwnerSegment            // `split('/')[-2]` of a string without `/`: IndexError

  datatype UserRepo = UserRepo(user: string, repo: string)

  /** The literal prefix split on for a URL whose first character is `c` (`h` or `g`). */
  function Prefix(c: char): string {
    if c == 'h' then HTTPS_PREFIX else SSH_PREFIX
  }

  /** `url_segments[1]`: the text after the first occurrence of the prefix, up to its second occurrence if there is one. */
  function SegmentOne(url: string, prefix: string): string
    requires prefix != [] && Contains(url, prefix)
  {
    SplitLength(url, prefix);
    Split(url, prefix)[1]
  }

  /**
    forkpull.py:171-173 (and 275-277): take segment 1, delete every `.git`, and
    unpack the split on `/` into exactly two names.
   */
  function UserAndRepo(segments: seq<string>): (r: Result<UserRepo, ParseError>)
    ensures r.Ok? <==> |segments| >= 2 && Count(DeleteAll(segments[1], GIT_SUFFIX), '/') == 1
    ensures r.Ok? ==> r.value.user + "/" + r.value.repo == DeleteAll(segments[1], GIT_SUFFIX)
    ensures r.Ok? ==> '/' !in r.value.user && '/' !in r.value.repo
    ensures r.Err? ==> r.error == NoSegmentOne || r.error.NotUserAndRepo?
  {
    if |segments| < 2 then Err(NoSegmentOne)
    else
      var rest := DeleteAll(segments[1], GIT_SUFFIX);
      var parts := Split(rest, "/");
      SplitCharCount(rest, '/');
      if |parts| != 2 then Err(NotUserAndRepo(|parts|))
      else
        JoinSplit(rest, "/");
        SplitCharParts(rest, '/');
        Ok(UserRepo(parts[0], parts[1]))
  }

  /** forkpull.py:165-173: the owner and name of the origin URL in `addRepoUpstream`. */
  function ParseOriginUrl(url: string): (r: Result<UserRepo, ParseError>)
    ensures r.Ok? ==> '/' !in r.value.user && '/' !in r.value.repo
  {
    if url == [] then Err(EmptyUrl)
    else if url[0] == 'h' || url[0] == 'g' then UserAndRepo(Split(url, Prefix(url[0])))
    else Err(SegmentsUnbound)
  }

  /**
    Which exception forkpull.py:165-173 raises for which origin URL, and when it
    yields an owner and a name.
   */
  lemma ParseOriginUrlOutcome(url: string)
    ensures ParseOriginUrl(url) == Err(EmptyUrl) <==> url == []
    ensures ParseOriginUrl(url) == Err(SegmentsUnbound) <==> url != [] && url[0] != 'h' && url[0] != 'g'
    ensures url != [] && (url[0] == 'h' || url[0] == 'g') ==>
      (ParseOriginUrl(url) == Err(NoSegmentOne) <==> !Contains(url, Prefix(url[0])))
    ensures ParseOriginUrl(url).Ok? <==>
      url != [] && (url[0] == 'h' || url[0] == 'g') && Contains(url, Prefix(url[0]))
      && Count(DeleteAll(SegmentOne(url, Prefix(url[0])), GIT_SUFFIX), '/') == 1
  {
    if url != [] && (url[0] == 'h' || url[0] == 'g') {
      SplitLength(url, Prefix(url[0]));
    }
  }

  /** forkpull.py:272-277: `main` splits the fork URL, and only accepts the `git@` form. */
  function ParseForkUrl(fork: string): (r: Result<UserRepo, ParseError>)
    ensures fork != [] && fork[0] == 'g' ==> r == ParseOriginUrl(fork)
    ensures fork != [] && fork[0] != 'g' ==> r == Err(SegmentsUnbound)
    ensures fork == [] ==> r == Err(EmptyUrl)
  {
    if fork == [] then Err(EmptyUrl)
    else if fork[0] == 'g' then UserAndRepo(Split(fork, SSH_PREFIX))
    else Err(SegmentsUnbound)
  }

  /** forkpull.py:279: the HTTPS URL `main` clones. */
  function CloneUrl(u: UserRepo): string {
    HTTPS_PREFIX + u.user + "/" + u.repo
  }

  /** forkpull.py:176: the metadata endpoint queried for the parent repository. */
  function ApiUrl(u: UserRepo): string {
    API_REPOS + u.user + "/" + u.repo
  }

  /** The `ssh_url` form GitHub gives a repository. */
  function SshUrl(u: UserRepo): string {
    SSH_PREFIX + u.user + "/" + u.repo + GIT_SUFFIX
  }

  /** forkpull.py:265: the second-to-last `/`-segment of the argument names the owner directory. */
  function OwnerDir(arg: string): (r: Result<string, ParseError>)
    ensures r.Ok? <==> '/' in arg
    ensures r.Ok? ==> '/' !in r.value
    ensures r.Err? ==> r.error == NoOwnerSegment
  {
    var parts := Split(arg, "/");
    SplitCharCount(arg, '/');
    CountZero(arg, '/');
    SplitCharParts(arg, '/');
    if |parts| < 2 then Err(NoOwnerSegment) else Ok(parts[|parts| - 2])
  }

  /** A name as GitHub allows it for owners and repositories, as far as the parsing cares. */
  predicate PlainName(s: string) {
    '/' !in s && !Contains(s, GIT_SUFFIX)
  }

  // ---------------------------------------------------------------------------

  lemma {:induction false} CountZero(s: string, c: char)
    ensures Count(s, c) == 0 <==> c !in s
    decreases |s|
  {
    if s != [] {
      CountZero(s[1..], c);
      assert s == [s[0]] + s[1..];
    }
  }

  /** In `a + "/" + b` the only slash is the one between. */
  lemma OnlySlash(a: string, b: string, k: int)
    requires '/' !in a && '/' !in b
    requires 0 <= k < |a + "/" + b| && (a + "/" + b)[k] == '/'
    ensures k == |a|
  {
  }

  /** `https://github.com/a/b` splits on its prefix into an empty segment and `a/b`. */
  lemma HttpsSegments(a: string, b: string)
    requires '/' !in a && '/' !in b
    ensures HTTPS_PREFIX + a + "/" + b == HTTPS_PREFIX + (a + "/" + b)
    ensures Split(HTTPS_PREFIX + (a + "/" + b), HTTPS_PREFIX) == ["", a + "/" + b]
  {
    var rest := a + "/" + b;
    SplitPrefixed(HTTPS_PREFIX, rest);
    if Contains(rest, HTTPS_PREFIX) {
      var i :| 0 <= i <= |rest| && At(rest, HTTPS_PREFIX, i);
      AtChar(rest, HTTPS_PREFIX, i, 6);
      AtChar(rest, HTTPS_PREFIX, i, 7);
      OnlySlash(a, b, i + 6);
      OnlySlash(a, b, i + 7);
      assert false;
    }
    SplitAbsent(rest, HTTPS_PREFIX);
  }

  /** `a/b` splits into `a` and `b` after the `.git` deletion, for plain names. */
  lemma TailSplits(a: string, b: string)
    requires PlainName(a) && PlainName(b)
    ensures UserAndRepo(["", a + "/" + b]) == Ok(UserRepo(a, b))
  {
    var rest := a + "/" + b;
    if Contains(rest, GIT_SUFFIX) {
      ContainsAroundChar(a, '/', b, GIT_SUFFIX);
    }
    DeleteAllAbsent(rest, GIT_SUFFIX);
    SplitPair(a, '/', b);
  }

  /**
    Round trip: the HTTPS URL built from an owner and a name parses back, through
    the `h` branch of forkpull.py:165-173, to the same owner and name.
   */
  lemma CloneUrlRoundTrip(u: UserRepo)
    requires PlainName(u.user) && PlainName(u.repo)
    ensures ParseOriginUrl(CloneUrl(u)) == Ok(u)
  {
    HttpsSegments(u.user, u.repo);
    TailSplits(u.user, u.repo);
  }

  /** `git@github.com:t` splits on its prefix into an empty segment and `t`, when `t` has no colon. */
  lemma SshSegments(tail: string)
    requires ':' !in tail
    ensures Split(SSH_PREFIX + tail, SSH_PREFIX) == ["", tail]
  {
    SplitPrefixed(SSH_PREFIX, tail);
    if Contains(tail, SSH_PREFIX) {
      var i :| 0 <= i <= |tail| && At(tail, SSH_PREFIX, i);
      AtChar(tail, SSH_PREFIX, i, 14);
      assert false;
    }
    SplitAbsent(tail, SSH_PREFIX);
  }

  /** Deleting `.git` from `s + ".git"` removes just the suffix when `s` has no `.git`. */
  lemma DeleteTrailingGit(s: string)
    requires !Contains(s, GIT_SUFFIX)
    ensures DeleteAll(s + GIT_SUFFIX, GIT_SUFFIX) == s
  {
    var t := s + GIT_SUFFIX;
    forall i | 0 <= i < |s| ensures !At(t, GIT_SUFFIX, i) {
      if At(t, GIT_SUFFIX, i) {
        if i + 4 <= |s| {
          assert t[i..i + 4] == s[i..i + 4];
          assert At(s, GIT_SUFFIX, i);
        } else {
          AtChar(t, GIT_SUFFIX, i, |s| - i);
        }
      }
    }
    DeleteAllAfter(s, GIT_SUFFIX, GIT_SUFFIX);
    assert GIT_SUFFIX[..|GIT_SUFFIX|] == GIT_SUFFIX;
    assert DeleteAll(GIT_SUFFIX, GIT_SUFFIX) == "";
    assert s + "" == s;
  }

  /**
    The `git@` URL of a repository parses, in `main` and in `addRepoUpstream`
    alike, to its owner and name: the trailing `.git` is deleted.
   */
  lemma SshUrlRoundTrip(u: UserRepo)
    requires PlainName(u.user) && PlainName(u.repo) && ':' !in u.user && ':' !in u.repo
    ensures ParseForkUrl(SshUrl(u)) == Ok(u)
    ensures ParseOriginUrl(SshUrl(u)) == Ok(u)
  {
    var rest := u.user + "/" + u.repo;
    var tail := rest + GIT_SUFFIX;
    assert SshUrl(u) == SSH_PREFIX + tail;
    SshSegments(tail);
    if Contains(rest, GIT_SUFFIX) {
      ContainsAroundChar(u.user, '/', u.repo, GIT_SUFFIX);
    }
    DeleteTrailingGit(rest);
    SplitPair(u.user, '/', u.repo);
  }

  /**
    The owner and name `main` reads from a `git@` fork URL survive the switch to
    the HTTPS clone URL of forkpull.py:279: both forms give the same pair.
   */
  lemma ForkAndCloneUrlsAgree(u: UserRepo)
    requires PlainName(u.user) && PlainName(u.repo) && ':' !in u.user && ':' !in u.repo
    ensures ParseForkUrl(SshUrl(u)) == Ok(u)
    ensures ParseOriginUrl(CloneUrl(u)) == ParseOriginUrl(SshUrl(u))
  {
    SshUrlRoundTrip(u);
    CloneUrlRoundTrip(u);
  }

  /**
    `.git` is deleted wherever it occurs, not only at the end: with `a = "my"`
    and `b = "hub.io"`, the repository `owner/my.github.io` is read as `myhub.io`.
   */
  lemma GitDeletedInside(owner: string, a: string, b: string)
    requires PlainName(owner) && PlainName(b) && '/' !in a && '.' !in a
    ensures ParseOriginUrl(HTTPS_PREFIX + owner + "/" + a + GIT_SUFFIX + b) == Ok(UserRepo(owner, a + b))
  {
    var name := a + GIT_SUFFIX + b;
    assert HTTPS_PREFIX + owner + "/" + a + GIT_SUFFIX + b == HTTPS_PREFIX + owner + "/" + name;
    HttpsSegments(owner, name);
    DeleteInnerGit(owner, a, b);
    assert owner + "/" + name == owner + "/" + a + GIT_SUFFIX + b;
    SplitPair(owner, '/', a + b);
  }

  /** The `.git` deletion of forkpull.py:172 on `owner/a.gitb`. */
  lemma DeleteInnerGit(owner: string, a: string, b: string)
    requires PlainName(owner) && PlainName(b) && '.' !in a
    ensures DeleteAll(owner + "/" + a + GIT_SUFFIX + b, GIT_SUFFIX) == owner + "/" + (a + b)
  {
    var head := owner + "/" + a;
    var x := GIT_SUFFIX + b;
    assert owner + "/" + a + GIT_SUFFIX + b == head + x;
    forall i | 0 <= i < |head| ensures !At(head + x, GIT_SUFFIX, i) {
      NoGitStartsIn(owner, a, x, i);
    }
    DeleteAllAfter(head, x, GIT_SUFFIX);
    assert x[..4] == GIT_SUFFIX && x[4..] == b;
    DeleteAllAbsent(b, GIT_SUFFIX);
    assert head + b == owner + "/" + (a + b);
  }

  /** No `.git` starts inside `owner/a` when `owner` has none and `a` has no dot. */
  lemma NoGitStartsIn(owner: string, a: string, x: string, i: int)
    requires !Contains(owner, GIT_SUFFIX) && '.' !in a
    requires 0 <= i < |owner + "/" + a|
    ensures !At(owner + "/" + a + x, GIT_SUFFIX, i)
  {
    var s := owner + "/" + a + x;
    if At(s, GIT_SUFFIX, i) {
      if i + 4 <= |owner| {
        assert s[i..i + 4] == owner[i..i + 4];
        assert At(owner, GIT_SUFFIX, i);
      } else if i < |owner| {
        AtChar(s, GIT_SUFFIX, i, |owner| - i);
      } else if i == |owner| {
        AtChar(s, GIT_SUFFIX, i, 0);
      } else {
        AtChar(s, GIT_SUFFIX, i, 0);
      }
    }
  }

  /**
    forkpull.py:265 on an HTTPS repository URL: the second-to-last segment is
    the owner, so the clone goes into a directory named after the upstream owner.
   */
  lemma OwnerDirOfHttpsUrl(owner: string, name: string)
    requires '/' !in owner && '/' !in name
    ensures OwnerDir(HTTPS_PREFIX + owner + "/" + name) == Ok(owner)
  {
    var q := "https://github.com";
    assert HTTPS_PREFIX == q + "/";
    var x := q + "/" + owner;
    SplitJoinChar(x, '/', name);
    SplitJoinChar(q, '/', owner);
    ContainsChar(owner, '/');
    SplitAbsent(owner, "/");
    ContainsChar(name, '/');
    SplitAbsent(name, "/");
  }

  /**
    forkpull.py:265 on any argument with two or more slashes: the owner directory
    is the segment between the last two.
   */
  lemma OwnerDirOfPath(a: string, b: string, c: string)
    requires '/' !in b && '/' !in c
    ensures OwnerDir(a + "/" + b + "/" + c) == Ok(b)
  {
    SplitJoinChar(a + "/" + b, '/', c);
    SplitJoinChar(a, '/', b);
    ContainsChar(b, '/');
    SplitAbsent(b, "/");
    ContainsChar(c, '/');
    SplitAbsent(c, "/");
  }

  /** forkpull.py:265 on an argument with exactly one slash: the owner directory is what precedes it. */
  lemma OwnerDirOfPair(b: string, c: string)
    requires '/' !in b && '/' !in c
    ensures OwnerDir(b + "/" + c) == Ok(b)
  {
    SplitPair(b, '/', c);
  }

  /**
    forkpull.py:265 on a `git@` argument: there is one slash, so the "owner"
    directory is everything before it, host and colon included.
   */
  lemma OwnerDirOfSshUrl(owner: string, name: string)
    requires '/' !in owner && '/' !in name
    ensures OwnerDir(SSH_PREFIX + owner + "/" + name) == Ok(SSH_PREFIX + owner)
  {
    SplitPair(SSH_PREFIX + owner, '/', name);
  }
}
