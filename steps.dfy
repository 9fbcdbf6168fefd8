/**
  The orchestration of forkpull.py as pure functions over an oracle that stands
  for the file system, git's configuration, the network and the processes.

  A run is described by its state `St`: every git command handed to `subprocess`
  so far (the trace, including the `check_output` lookups and a command whose
  `call` raised), the two module-level lists that the script appends to in place
  (`ADD_REMOTE_CMD`, `CLONE_REPO`), and the working directory relative to where
  the script was started. A step either finishes or raises an exception; nothing
  already issued is ever taken back.
 */
module Steps {
  import opened Results
  import opened PyStr
  import opened Cleaning
  import opened Urls

  type Cmd = seq<string>

  // forkpull.py:19-27 (CHECK_REMOTES_CMD is never used)
  const CLONE_REPO: Cmd := ["git", "clone"]
  const CURRENT_REPO_ORIGIN: Cmd := ["git", "config", "--get", "remote.origin.url"]
  const CURRENT_REPO_UPSTREAM: Cmd := ["git", "config", "--get", "remote.upstream.url"]
  const ADD_REMOTE_CMD: Cmd := ["git", "remote", "add", "upstream"]
  const FETCH_UPSTREAM_CMD: Cmd := ["git", "fetch", "upstream"]
  const CHECKOUT_MASTER_CMD: Cmd := ["git", "checkout", "master"]
  const MERGE_UPSTREAM_CMD: Cmd := ["git", "merge", "upstream/master"]
  const PUSH_TO_UPSTREAM_CMD: Cmd := ["git", "push", "origin", "master"]

  /** The exceptions that end a step. */
  datatype Exc =
    | AssertionFailed       // an `assert` whose operand is false or empty
    | CalledProcessError    // `check_output` of a git lookup that exits non-zero
    | CallRaised            // `call` itself raises (a non-zero exit does not raise)
    | BadUrl(e: ParseError) // a URL the hand-written splitting cannot handle
    | NoParent              // the metadata request or its `["parent"]["clone_url"]` fails
    | NoArgument            // `argv[1]` missing: `repository_to_be_forked` is unbound

  /**
    What the world answers. `originOut`/`upstreamOut`: the bytes git prints for
    the two lookups, or None when git exits non-zero (no such remote).
    `parents`: the `parent.clone_url` the metadata endpoint gives per request URL.
    `raising`: the trace positions at which a `call` raises.
   */
  datatype Env = Env(
    hasGitDir: bool,
    originOut: Option<seq<Byte>>,
    upstreamOut: Option<seq<Byte>>,
    parents: map<string, string>,
    raising: set<nat>)

  datatype St = St(trace: seq<Cmd>, addRemote: Cmd, cloneRepo: Cmd, cwd: seq<string>)

  datatype Res = Res(st: St, raised: Option<Exc>)

  datatype Lookup = Lookup(st: St, url: Result<string, Exc>)

  /** The state when the module has just been loaded. */
  const INITIAL: St := St([], ADD_REMOTE_CMD, CLONE_REPO, [])

  /** `call(cmd)`: the command is issued, and raises when the oracle says so. */
  function Issue(st: St, cmd: Cmd, env: Env): Res {
    Res(st.(trace := st.trace + [cmd]), if |st.trace| in env.raising then Some(CallRaised) else None)
  }

  /** `getRepoOriginUrl` (forkpull.py:57-71). */
  function OriginLookup(st: St, env: Env): Lookup {
    Lookup(st.(trace := st.trace + [CURRENT_REPO_ORIGIN]),
           match env.originOut
           case None => Err(CalledProcessError)
           case Some(b) => Ok(CleanOrigin(BytesRepr(b))))
  }

  /** `getRepoUpstreamUrl` (forkpull.py:73-88). */
  function UpstreamLookup(st: St, env: Env): Lookup {
    Lookup(st.(trace := st.trace + [CURRENT_REPO_UPSTREAM]),
           match env.upstreamOut
           case None => Err(CalledProcessError)
           case Some(b) => Ok(CleanUpstream(BytesRepr(b))))
  }

  /** `assert getRepo...Url()`: the lookup must succeed and give a non-empty string. */
  function Asserted(l: Lookup): Res {
    Res(l.st, match l.url
              case Err(e) => Some(e)
              case Ok(u) => if u == "" then Some(AssertionFailed) else None)
  }

  /** `addRepoUpstream` (forkpull.py:157-192). */
  function AddUpstreamSpec(st: St, env: Env): Res {
    var l := OriginLookup(st, env);
    match l.url
    case Err(e) => Res(l.st, Some(e))
    case Ok(origin) =>
      match ParseOriginUrl(origin)
      case Err(e) => Res(l.st, Some(BadUrl(e)))
      case Ok(ur) =>
        if ApiUrl(ur) !in env.parents then Res(l.st, Some(NoParent))
        else
          var cmd := l.st.addRemote + [env.parents[ApiUrl(ur)]];
          Issue(l.st.(addRemote := cmd), cmd, env)
  }

  /** The steps `sync` is made of. */
  datatype Step = CheckRepo | AssertOrigin | AssertUpstream | AddUpstream | Fetch | Checkout | Merge | Push

  function StepSpec(step: Step, st: St, env: Env): Res {
    match step
    case CheckRepo => Res(st, if env.hasGitDir then None else Some(AssertionFailed))
    case AssertOrigin => Asserted(OriginLookup(st, env))
    case AssertUpstream => Asserted(UpstreamLookup(st, env))
    case AddUpstream => AddUpstreamSpec(st, env)
    case Fetch => Issue(st, FETCH_UPSTREAM_CMD, env)
    case Checkout => Issue(st, CHECKOUT_MASTER_CMD, env)
    case Merge => Issue(st, MERGE_UPSTREAM_CMD, env)
    case Push => Issue(st, PUSH_TO_UPSTREAM_CMD, env)
  }

  /** Runs `plan[i..]` in order and stops at the first step that raises. */
  function Exec(plan: seq<Step>, i: nat, st: St, env: Env): Res
    decreases |plan| - i
  {
    if i >= |plan| then Res(st, None)
    else
      var r := StepSpec(plan[i], st, env);
      if r.raised.Some? then r else Exec(plan, i + 1, r.st, env)
  }

  /** forkpull.py:203-206. */
  const PRECHECKS: seq<Step> := [CheckRepo, AssertOrigin]
  /** forkpull.py:208-223. */
  const TRY_BLOCK: seq<Step> := [AssertUpstream, Fetch, Checkout, Merge, Push]
  /** forkpull.py:224-242: line 236 names `checkoutMasterBranch` without calling it. */
  const FALLBACK: seq<Step> := [AddUpstream, Fetch, Merge, Push]

  /** `sync` (forkpull.py:194-246): any exception in the try block starts the fallback. */
  function SyncSpec(st: St, env: Env): Res {
    var pre := Exec(PRECHECKS, 0, st, env);
    if pre.raised.Some? then pre
    else
      var t := Exec(TRY_BLOCK, 0, pre.st, env);
      if t.raised.None? then t else Exec(FALLBACK, 0, t.st, env)
  }

  /** forkpull.py:288-293: clone only when the repository is not in the listing. */
  function CloneSpec(st: St, ur: UserRepo, listing: set<string>, env: Env): Res {
    if ur.repo in listing then Res(st, None)
    else
      var cmd := st.cloneRepo + [CloneUrl(ur)];
      Issue(st.(cloneRepo := cmd), cmd, env)
  }

  /**
    `main` (forkpull.py:257-298). `fork` is what `forkRepository` returned and
    `listing` the entries of the owner directory.
   */
  function MainSpec(argv: seq<string>, fork: string, listing: set<string>, st: St, env: Env): Res {
    if |argv| <= 1 then Res(st, Some(NoArgument))
    else
      match OwnerDir(argv[1])
      case Err(e) => Res(st, Some(BadUrl(e)))
      case Ok(owner) =>
        match ParseForkUrl(fork)
        case Err(e) => Res(st, Some(BadUrl(e)))
        case Ok(ur) =>
          var c := CloneSpec(st.(cwd := st.cwd + [owner]), ur, listing, env);
          if c.raised.Some? then c else SyncSpec(c.st.(cwd := c.st.cwd + [ur.repo]), env)
  }

  // ---------------------------------------------------------------------------
  // The in-place growth of ADD_REMOTE_CMD and CLONE_REPO

  predicate IsRemoteAdd(c: Cmd) {
    |c| >= 4 && c[..4] == ADD_REMOTE_CMD
  }

  predicate IsClone(c: Cmd) {
    |c| >= 2 && c[..2] == CLONE_REPO
  }

  /** The `remote add` commands of a trace, in order. */
  function RemoteAdds(trace: seq<Cmd>): seq<Cmd> {
    if trace == [] then []
    else RemoteAdds(trace[..|trace| - 1]) + (if IsRemoteAdd(trace[|trace| - 1]) then [trace[|trace| - 1]] else [])
  }

  /** The `clone` commands of a trace, in order. */
  function Clones(trace: seq<Cmd>): seq<Cmd> {
    if trace == [] then []
    else Clones(trace[..|trace| - 1]) + (if IsClone(trace[|trace| - 1]) then [trace[|trace| - 1]] else [])
  }

  /**
    The lists only grow, each append is issued at once, and so the k-th issued
    `remote add` (or `clone`) is the list as it stood after its k-th append.
   */
  predicate Valid(st: St) {
    ADD_REMOTE_CMD <= st.addRemote && CLONE_REPO <= st.cloneRepo
    && |RemoteAdds(st.trace)| == |st.addRemote| - 4
    && (forall k :: 0 <= k < |RemoteAdds(st.trace)| ==> RemoteAdds(st.trace)[k] == st.addRemote[..5 + k])
    && |Clones(st.trace)| == |st.cloneRepo| - 2
    && (forall k :: 0 <= k < |Clones(st.trace)| ==> Clones(st.trace)[k] == st.cloneRepo[..3 + k])
  }

  lemma InitialValid()
    ensures Valid(INITIAL)
  {
  }

  /**
    The n-th `remote add` passes 4 + n arguments: the four of the template and
    every URL appended so far, the earlier commands' URLs included.
   */
  lemma NthRemoteAdd(st: St, n: nat)
    requires Valid(st) && 1 <= n <= |RemoteAdds(st.trace)|
    ensures |RemoteAdds(st.trace)[n - 1]| == 4 + n
    ensures RemoteAdds(st.trace)[n - 1][..4] == ADD_REMOTE_CMD
    ensures forall m :: 0 <= m < n - 1 ==> RemoteAdds(st.trace)[m] < RemoteAdds(st.trace)[n - 1]
  {
  }

  lemma AppendLast(trace: seq<Cmd>, c: Cmd)
    ensures (trace + [c])[..|trace + [c]| - 1] == trace && (trace + [c])[|trace + [c]| - 1] == c
  {
  }

  /** A command whose subcommand is neither `remote` nor `clone` is of neither kind. */
  lemma OtherKind(cmd: Cmd)
    requires |cmd| >= 2 && cmd[1] != "remote" && cmd[1] != "clone"
    ensures !IsRemoteAdd(cmd) && !IsClone(cmd)
  {
    if |cmd| >= 4 { assert cmd[..4][1] == cmd[1]; }
    assert cmd[..2][1] == cmd[1];
  }

  /** Issuing a command of neither kind keeps the accumulation. */
  lemma IssueOtherValid(st: St, cmd: Cmd, env: Env)
    requires Valid(st) && |cmd| >= 2 && cmd[1] != "remote" && cmd[1] != "clone"
    ensures Valid(Issue(st, cmd, env).st)
  {
    OtherKind(cmd);
    AppendLast(st.trace, cmd);
  }

  /** Appending to `ADD_REMOTE_CMD` and issuing it keeps the accumulation. */
  lemma IssueRemoteAddValid(st: St, url: string, env: Env)
    requires Valid(st)
    ensures Valid(Issue(st.(addRemote := st.addRemote + [url]), st.addRemote + [url], env).st)
  {
    var cmd := st.addRemote + [url];
    AppendLast(st.trace, cmd);
    assert cmd[..4] == st.addRemote[..4];
    assert !IsClone(cmd) by { assert cmd[1] == "remote"; }
    var t := st.trace + [cmd];
    assert RemoteAdds(t) == RemoteAdds(st.trace) + [cmd];
    forall k | 0 <= k < |RemoteAdds(t)| ensures RemoteAdds(t)[k] == cmd[..5 + k] {
      if k < |RemoteAdds(st.trace)| {
        assert cmd[..5 + k] == st.addRemote[..5 + k];
      }
    }
  }

  /** Appending to `CLONE_REPO` and issuing it keeps the accumulation. */
  lemma IssueCloneValid(st: St, url: string, env: Env)
    requires Valid(st)
    ensures Valid(Issue(st.(cloneRepo := st.cloneRepo + [url]), st.cloneRepo + [url], env).st)
  {
    var cmd := st.cloneRepo + [url];
    AppendLast(st.trace, cmd);
    assert cmd[..2] == st.cloneRepo[..2];
    assert !IsRemoteAdd(cmd) by { if |cmd| >= 4 { assert cmd[1] == "clone"; } }
    var t := st.trace + [cmd];
    assert Clones(t) == Clones(st.trace) + [cmd];
    forall k | 0 <= k < |Clones(t)| ensures Clones(t)[k] == cmd[..3 + k] {
      if k < |Clones(st.trace)| {
        assert cmd[..3 + k] == st.cloneRepo[..3 + k];
      }
    }
  }

  /** Every step of `sync` keeps the accumulation. */
  lemma StepValid(step: Step, st: St, env: Env)
    requires Valid(st)
    ensures Valid(StepSpec(step, st, env).st)
  {
    match step
    case CheckRepo =>
    case AssertOrigin => IssueOtherValid(st, CURRENT_REPO_ORIGIN, env);
    case AssertUpstream => IssueOtherValid(st, CURRENT_REPO_UPSTREAM, env);
    case AddUpstream =>
      IssueOtherValid(st, CURRENT_REPO_ORIGIN, env);
      var l := OriginLookup(st, env);
      if l.url.Ok? && ParseOriginUrl(l.url.value).Ok? && ApiUrl(ParseOriginUrl(l.url.value).value) in env.parents {
        IssueRemoteAddValid(l.st, env.parents[ApiUrl(ParseOriginUrl(l.url.value).value)], env);
      }
    case Fetch => IssueOtherValid(st, FETCH_UPSTREAM_CMD, env);
    case Checkout => IssueOtherValid(st, CHECKOUT_MASTER_CMD, env);
    case Merge => IssueOtherValid(st, MERGE_UPSTREAM_CMD, env);
    case Push => IssueOtherValid(st, PUSH_TO_UPSTREAM_CMD, env);
  }

  lemma {:induction false} ExecValid(plan: seq<Step>, i: nat, st: St, env: Env)
    requires Valid(st)
    ensures Valid(Exec(plan, i, st, env).st)
    decreases |plan| - i
  {
    if i < |plan| {
      StepValid(plan[i], st, env);
      ExecValid(plan, i + 1, StepSpec(plan[i], st, env).st, env);
    }
  }

  /** `sync` keeps the accumulation of both lists. */
  lemma SyncValid(st: St, env: Env)
    requires Valid(st)
    ensures Valid(SyncSpec(st, env).st)
  {
    ExecValid(PRECHECKS, 0, st, env);
    var pre := Exec(PRECHECKS, 0, st, env);
    ExecValid(TRY_BLOCK, 0, pre.st, env);
    ExecValid(FALLBACK, 0, Exec(TRY_BLOCK, 0, pre.st, env).st, env);
  }

  /** `main` keeps the accumulation of both lists. */
  lemma MainValid(argv: seq<string>, fork: string, listing: set<string>, st: St, env: Env)
    requires Valid(st)
    ensures Valid(MainSpec(argv, fork, listing, st, env).st)
  {
    if |argv| > 1 && OwnerDir(argv[1]).Ok? && ParseForkUrl(fork).Ok? {
      var ur := ParseForkUrl(fork).value;
      var s1 := st.(cwd := st.cwd + [OwnerDir(argv[1]).value]);
      if ur.repo !in listing {
        IssueCloneValid(s1, CloneUrl(ur), env);
      }
      var c := CloneSpec(s1, ur, listing, env);
      SyncValid(c.st.(cwd := c.st.cwd + [ur.repo]), env);
    }
  }

  // ---------------------------------------------------------------------------
  // What sync does

  /** The part of a run's state that a step may change beyond the trace. */
  predicate Extends(st: St, st': St) {
    st.trace <= st'.trace && st.addRemote <= st'.addRemote && st'.cloneRepo == st.cloneRepo && st'.cwd == st.cwd
  }

  /** A step only appends to the trace and changes no list but, in `addRepoUpstream`, `ADD_REMOTE_CMD`. */
  lemma StepExtends(step: Step, st: St, env: Env)
    ensures Extends(st, StepSpec(step, st, env).st)
    ensures step != AddUpstream ==> StepSpec(step, st, env).st.addRemote == st.addRemote
    ensures |StepSpec(step, st, env).st.addRemote| <= |st.addRemote| + 1
  {
    if step == AddUpstream {
      var l := OriginLookup(st, env);
      if l.url.Ok? && ParseOriginUrl(l.url.value).Ok? {
        var ur := ParseOriginUrl(l.url.value).value;
        if ApiUrl(ur) in env.parents {
          assert StepSpec(step, st, env).st.addRemote == st.addRemote + [env.parents[ApiUrl(ur)]];
        }
      }
    }
  }

  lemma {:induction false} ExecExtends(plan: seq<Step>, i: nat, st: St, env: Env)
    requires i <= |plan|
    ensures Extends(st, Exec(plan, i, st, env).st)
    ensures AddUpstream !in plan[i..] ==> Exec(plan, i, st, env).st.addRemote == st.addRemote
    decreases |plan| - i
  {
    if i < |plan| {
      var r := StepSpec(plan[i], st, env);
      StepExtends(plan[i], st, env);
      if r.raised.None? {
        ExecExtends(plan, i + 1, r.st, env);
      }
      assert plan[i..] == [plan[i]] + plan[i + 1..];
    }
  }

  /**
    Nothing is rolled back: `sync` only appends to the trace, appends at most
    one URL to `ADD_REMOTE_CMD`, and leaves the clone list and directory alone.
   */
  lemma SyncOnlyAppends(st: St, env: Env)
    ensures Extends(st, SyncSpec(st, env).st)
    ensures |SyncSpec(st, env).st.addRemote| <= |st.addRemote| + 1
  {
    var r := SyncSpec(st, env);
    var pre := Exec(PRECHECKS, 0, st, env);
    ExecExtends(PRECHECKS, 0, st, env);
    assert AddUpstream !in PRECHECKS[0..];
    if pre.raised.Some? {
      assert r == pre;
    } else {
      var t := Exec(TRY_BLOCK, 0, pre.st, env);
      ExecExtends(TRY_BLOCK, 0, pre.st, env);
      assert AddUpstream !in TRY_BLOCK[0..];
      if t.raised.None? {
        assert r == t;
      } else {
        FallbackExtends(t.st, env);
        assert r == Exec(FALLBACK, 0, t.st, env);
      }
    }
  }

  lemma FallbackExtends(st: St, env: Env)
    ensures Extends(st, Exec(FALLBACK, 0, st, env).st)
    ensures |Exec(FALLBACK, 0, st, env).st.addRemote| <= |st.addRemote| + 1
  {
    var a := StepSpec(AddUpstream, st, env);
    StepExtends(AddUpstream, st, env);
    ExecExtends(FALLBACK, 1, a.st, env);
    assert AddUpstream !in FALLBACK[1..];
  }

  /** forkpull.py:203: outside a git repository nothing is issued. */
  lemma SyncOutsideRepository(st: St, env: Env)
    requires !env.hasGitDir
    ensures SyncSpec(st, env) == Res(st, Some(AssertionFailed))
  {
  }

  /** forkpull.py:206: without a usable origin only the origin lookup is issued. */
  lemma SyncWithoutOrigin(st: St, env: Env)
    requires env.hasGitDir
    requires env.originOut.None? || CleanOrigin(BytesRepr(env.originOut.value)) == ""
    ensures SyncSpec(st, env).st == st.(trace := st.trace + [CURRENT_REPO_ORIGIN])
    ensures SyncSpec(st, env).raised.Some?
  {
  }

  /**
    forkpull.py:208-223: with an upstream configured and no call raising, the
    run issues fetch, checkout, merge and push, in that order, and no `remote add`.
   */
  lemma SyncWithUpstream(st: St, env: Env, o: seq<Byte>, u: seq<Byte>)
    requires env.hasGitDir && env.originOut == Some(o) && CleanOrigin(BytesRepr(o)) != ""
    requires env.upstreamOut == Some(u) && CleanUpstream(BytesRepr(u)) != ""
    requires |st.trace| + 2 !in env.raising && |st.trace| + 3 !in env.raising
    requires |st.trace| + 4 !in env.raising && |st.trace| + 5 !in env.raising
    ensures SyncSpec(st, env).raised == None
    ensures SyncSpec(st, env).st == st.(trace := st.trace + [CURRENT_REPO_ORIGIN, CURRENT_REPO_UPSTREAM,
              FETCH_UPSTREAM_CMD, CHECKOUT_MASTER_CMD, MERGE_UPSTREAM_CMD, PUSH_TO_UPSTREAM_CMD])
  {
    var s1 := st.(trace := st.trace + [CURRENT_REPO_ORIGIN]);
    PrechecksPass(st, env, o);
    var s2 := s1.(trace := s1.trace + [CURRENT_REPO_UPSTREAM]);
    UpstreamPasses(s1, env, u);
    ExecStep(TRY_BLOCK, 0, s1, env, Res(s2, None));
    TryTailRuns(s2, env);
    var s6 := s2.(trace := s2.trace + [FETCH_UPSTREAM_CMD, CHECKOUT_MASTER_CMD, MERGE_UPSTREAM_CMD, PUSH_TO_UPSTREAM_CMD]);
    var t := Exec(TRY_BLOCK, 0, s1, env);
    assert t == Res(s6, None);
    SyncAfterTry(st, env, Res(s1, None), t);
    assert SyncSpec(st, env) == t;
    Append6(st.trace, CURRENT_REPO_ORIGIN, CURRENT_REPO_UPSTREAM,
      FETCH_UPSTREAM_CMD, CHECKOUT_MASTER_CMD, MERGE_UPSTREAM_CMD, PUSH_TO_UPSTREAM_CMD);
  }

  /*
    Trace bookkeeping: one step appends one command at a time, and the scenario
    lemmas state the whole trace as one display. These identities are kept apart
    so that the sequence reasoning is not done inside the larger proofs.
   */
  lemma Append3(t: seq<Cmd>, a: Cmd, b: Cmd, c: Cmd)
    ensures t + [a] + [b] + [c] == t + [a, b, c]
  {
  }

  lemma Append6(t: seq<Cmd>, a: Cmd, b: Cmd, c: Cmd, d: Cmd, e: Cmd, f: Cmd)
    ensures t + [a] + [b] + [c, d, e, f] == t + [a, b, c, d, e, f]
  {
  }

  lemma Append7(t: seq<Cmd>, a: Cmd, b: Cmd, c: Cmd, d: Cmd, e: Cmd, f: Cmd, g: Cmd)
    ensures t + [a] + [b] + [c, d] + [e, f, g] == t + [a, b, c, d, e, f, g]
  {
  }

  /** Both prechecks pass when there is a `.git` directory and a non-empty origin. */
  lemma PrechecksPass(st: St, env: Env, o: seq<Byte>)
    requires env.hasGitDir && env.originOut == Some(o) && CleanOrigin(BytesRepr(o)) != ""
    ensures Exec(PRECHECKS, 0, st, env) == Res(st.(trace := st.trace + [CURRENT_REPO_ORIGIN]), None)
  {
    var s1 := st.(trace := st.trace + [CURRENT_REPO_ORIGIN]);
    assert StepSpec(AssertOrigin, st, env) == Res(s1, None);
    assert Exec(PRECHECKS, 1, st, env) == Res(s1, None);
  }

  /** The upstream assertion passes on a non-empty upstream. */
  lemma UpstreamPasses(st: St, env: Env, u: seq<Byte>)
    requires env.upstreamOut == Some(u) && CleanUpstream(BytesRepr(u)) != ""
    ensures StepSpec(AssertUpstream, st, env) == Res(st.(trace := st.trace + [CURRENT_REPO_UPSTREAM]), None)
  {
  }

  /** Fetch, checkout, merge and push of the try block, none of them raising. */
  lemma TryTailRuns(st: St, env: Env)
    requires |st.trace| !in env.raising && |st.trace| + 1 !in env.raising
    requires |st.trace| + 2 !in env.raising && |st.trace| + 3 !in env.raising
    ensures Exec(TRY_BLOCK, 1, st, env) == Res(st.(trace := st.trace + [FETCH_UPSTREAM_CMD, CHECKOUT_MASTER_CMD,
              MERGE_UPSTREAM_CMD, PUSH_TO_UPSTREAM_CMD]), None)
  {
    var s3 := st.(trace := st.trace + [FETCH_UPSTREAM_CMD]);
    var s4 := s3.(trace := s3.trace + [CHECKOUT_MASTER_CMD]);
    var s5 := s4.(trace := s4.trace + [MERGE_UPSTREAM_CMD]);
    var s6 := s5.(trace := s5.trace + [PUSH_TO_UPSTREAM_CMD]);
    assert Exec(TRY_BLOCK, 4, s5, env) == Res(s6, None);
    assert Exec(TRY_BLOCK, 3, s4, env) == Res(s6, None);
    assert Exec(TRY_BLOCK, 2, s3, env) == Res(s6, None);
  }

  /**
    forkpull.py:224-242: without an upstream, and with nothing raising, the run
    adds the parent's clone URL as upstream and issues fetch, merge and push,
    with no checkout.
   */
  lemma SyncWithoutUpstream(st: St, env: Env, o: seq<Byte>, ur: UserRepo)
    requires env.hasGitDir && env.originOut == Some(o) && CleanOrigin(BytesRepr(o)) != ""
    requires env.upstreamOut.None?
    requires ParseOriginUrl(CleanOrigin(BytesRepr(o))) == Ok(ur) && ApiUrl(ur) in env.parents
    requires |st.trace| + 3 !in env.raising && |st.trace| + 4 !in env.raising
    requires |st.trace| + 5 !in env.raising && |st.trace| + 6 !in env.raising
    ensures SyncSpec(st, env) == Res(st.(trace := st.trace + [CURRENT_REPO_ORIGIN, CURRENT_REPO_UPSTREAM,
              CURRENT_REPO_ORIGIN, st.addRemote + [env.parents[ApiUrl(ur)]],
              FETCH_UPSTREAM_CMD, MERGE_UPSTREAM_CMD, PUSH_TO_UPSTREAM_CMD],
              addRemote := st.addRemote + [env.parents[ApiUrl(ur)]]), None)
  {
    var add := st.addRemote + [env.parents[ApiUrl(ur)]];
    var s1 := st.(trace := st.trace + [CURRENT_REPO_ORIGIN]);
    PrechecksPass(st, env, o);
    var s2 := s1.(trace := s1.trace + [CURRENT_REPO_UPSTREAM]);
    UpstreamMissing(s1, env);
    SyncAfterTry(st, env, Res(s1, None), Res(s2, Some(CalledProcessError)));
    var s4 := s2.(trace := s2.trace + [CURRENT_REPO_ORIGIN, add], addRemote := add);
    AddUpstreamRuns(s2, env, o, ur);
    ExecStep(FALLBACK, 0, s2, env, Res(s4, None));
    FallbackAfterAdd(s4, env);
    Append7(st.trace, CURRENT_REPO_ORIGIN, CURRENT_REPO_UPSTREAM, CURRENT_REPO_ORIGIN, add,
      FETCH_UPSTREAM_CMD, MERGE_UPSTREAM_CMD, PUSH_TO_UPSTREAM_CMD);
  }

  /** `sync` after its prechecks passed, given what the try block did. */
  lemma SyncAfterTry(st: St, env: Env, pre: Res, t: Res)
    requires Exec(PRECHECKS, 0, st, env) == pre && pre.raised.None? && Exec(TRY_BLOCK, 0, pre.st, env) == t
    ensures SyncSpec(st, env) == if t.raised.None? then t else Exec(FALLBACK, 0, t.st, env)
  {
  }

  /** One step of `Exec`, given what the step does. */
  lemma ExecStep(plan: seq<Step>, i: nat, st: St, env: Env, r: Res)
    requires i < |plan| && StepSpec(plan[i], st, env) == r
    ensures Exec(plan, i, st, env) == if r.raised.Some? then r else Exec(plan, i + 1, r.st, env)
  {
  }

  /** The try block stops at its first step when there is no upstream remote. */
  lemma UpstreamMissing(st: St, env: Env)
    requires env.upstreamOut.None?
    ensures Exec(TRY_BLOCK, 0, st, env) == Res(st.(trace := st.trace + [CURRENT_REPO_UPSTREAM]), Some(CalledProcessError))
  {
    assert StepSpec(AssertUpstream, st, env) == Res(st.(trace := st.trace + [CURRENT_REPO_UPSTREAM]), Some(CalledProcessError));
  }

  /** `addRepoUpstream` on a parseable origin with a known parent issues the grown `remote add`. */
  lemma AddUpstreamRuns(st: St, env: Env, o: seq<Byte>, ur: UserRepo)
    requires env.originOut == Some(o) && ParseOriginUrl(CleanOrigin(BytesRepr(o))) == Ok(ur)
    requires ApiUrl(ur) in env.parents && |st.trace| + 1 !in env.raising
    ensures StepSpec(AddUpstream, st, env) ==
      Res(st.(trace := st.trace + [CURRENT_REPO_ORIGIN, st.addRemote + [env.parents[ApiUrl(ur)]]],
              addRemote := st.addRemote + [env.parents[ApiUrl(ur)]]), None)
  {
    var l := OriginLookup(st, env);
    assert l.url == Ok(CleanOrigin(BytesRepr(o)));
    var add := st.addRemote + [env.parents[ApiUrl(ur)]];
    assert AddUpstreamSpec(st, env) == Issue(l.st.(addRemote := add), add, env);
    assert l.st.trace + [add] == st.trace + [CURRENT_REPO_ORIGIN, add];
  }

  /** Fetch, merge and push after the upstream was added, none of them raising. */
  lemma FallbackAfterAdd(st: St, env: Env)
    requires |st.trace| !in env.raising && |st.trace| + 1 !in env.raising && |st.trace| + 2 !in env.raising
    ensures Exec(FALLBACK, 1, st, env) ==
      Res(st.(trace := st.trace + [FETCH_UPSTREAM_CMD, MERGE_UPSTREAM_CMD, PUSH_TO_UPSTREAM_CMD]), None)
  {
    var s5 := st.(trace := st.trace + [FETCH_UPSTREAM_CMD]);
    var s6 := s5.(trace := s5.trace + [MERGE_UPSTREAM_CMD]);
    var s7 := s6.(trace := s6.trace + [PUSH_TO_UPSTREAM_CMD]);
    assert Exec(FALLBACK, 3, s6, env) == Res(s7, None);
    assert Exec(FALLBACK, 2, s5, env) == Res(s7, None);
  }

  /** No step but `Checkout` issues a checkout, once `ADD_REMOTE_CMD` starts as the template. */
  lemma StepNoCheckout(step: Step, st: St, env: Env)
    requires step != Checkout && ADD_REMOTE_CMD <= st.addRemote
    ensures forall k :: |st.trace| <= k < |StepSpec(step, st, env).st.trace| ==>
      StepSpec(step, st, env).st.trace[k] != CHECKOUT_MASTER_CMD
  {
    if step == AddUpstream {
      AddUpstreamNoCheckout(st, env);
    }
  }

  /** `addRepoUpstream` issues an origin lookup and at most a `remote add`. */
  lemma AddUpstreamNoCheckout(st: St, env: Env)
    requires ADD_REMOTE_CMD <= st.addRemote
    ensures var t := AddUpstreamSpec(st, env).st.trace;
      t == st.trace + [CURRENT_REPO_ORIGIN] || t == st.trace + [CURRENT_REPO_ORIGIN, AddUpstreamSpec(st, env).st.addRemote]
    ensures AddUpstreamSpec(st, env).st.addRemote[1] == "remote"
  {
    var r := AddUpstreamSpec(st, env);
    var l := OriginLookup(st, env);
    if r.raised.None? {
      assert r.st.trace == l.st.trace + [r.st.addRemote];
    }
  }

  /** A plan without `Checkout` never issues a checkout. */
  lemma {:induction false} ExecNoCheckout(plan: seq<Step>, i: nat, st: St, env: Env)
    requires i <= |plan| && Checkout !in plan[i..] && ADD_REMOTE_CMD <= st.addRemote
    ensures forall k :: |st.trace| <= k < |Exec(plan, i, st, env).st.trace| ==>
      Exec(plan, i, st, env).st.trace[k] != CHECKOUT_MASTER_CMD
    decreases |plan| - i
  {
    if i < |plan| {
      assert plan[i..] == [plan[i]] + plan[i + 1..];
      var r := StepSpec(plan[i], st, env);
      StepNoCheckout(plan[i], st, env);
      StepExtends(plan[i], st, env);
      if r.raised.None? {
        ExecNoCheckout(plan, i + 1, r.st, env);
        ExecExtends(plan, i + 1, r.st, env);
        var f := Exec(plan, i + 1, r.st, env).st.trace;
        assert forall k :: |st.trace| <= k < |r.st.trace| ==> f[k] == r.st.trace[k];
      }
    }
  }

  /**
    forkpull.py:236: once the try block has raised, the fallback never checks out
    the primary branch: no checkout follows the try block's own commands.
   */
  lemma FallbackSkipsCheckout(st: St, env: Env)
    requires ADD_REMOTE_CMD <= st.addRemote
    ensures forall k :: |st.trace| <= k < |Exec(FALLBACK, 0, st, env).st.trace| ==>
      Exec(FALLBACK, 0, st, env).st.trace[k] != CHECKOUT_MASTER_CMD
  {
    ExecNoCheckout(FALLBACK, 0, st, env);
  }

  /** Without an upstream remote, `sync` never issues a checkout at all. */
  lemma NoUpstreamNoCheckout(st: St, env: Env)
    requires ADD_REMOTE_CMD <= st.addRemote && env.upstreamOut.None?
    ensures forall k :: |st.trace| <= k < |SyncSpec(st, env).st.trace| ==>
      SyncSpec(st, env).st.trace[k] != CHECKOUT_MASTER_CMD
  {
    var pre := Exec(PRECHECKS, 0, st, env);
    if pre.raised.Some? {
      assert SyncSpec(st, env) == pre;
      assert pre.st.trace == st.trace || pre.st.trace == st.trace + [CURRENT_REPO_ORIGIN];
    } else {
      var s1 := st.(trace := st.trace + [CURRENT_REPO_ORIGIN]);
      assert pre.st == s1;
      var s2 := s1.(trace := s1.trace + [CURRENT_REPO_UPSTREAM]);
      assert Exec(TRY_BLOCK, 0, s1, env) == Res(s2, Some(CalledProcessError));
      assert SyncSpec(st, env) == Exec(FALLBACK, 0, s2, env);
      FallbackSkipsCheckout(s2, env);
      FallbackExtends(s2, env);
    }
  }

  /**
    forkpull.py:208-242: commands the try block issued stay in the trace; the
    fetch issued after a good upstream lookup is still there at the end,
    whatever raises later.
   */
  lemma SyncKeepsIssuedFetch(st: St, env: Env, o: seq<Byte>, u: seq<Byte>)
    requires env.hasGitDir && env.originOut == Some(o) && CleanOrigin(BytesRepr(o)) != ""
    requires env.upstreamOut == Some(u) && CleanUpstream(BytesRepr(u)) != ""
    ensures st.trace + [CURRENT_REPO_ORIGIN, CURRENT_REPO_UPSTREAM, FETCH_UPSTREAM_CMD] <= SyncSpec(st, env).st.trace
  {
    var s1 := st.(trace := st.trace + [CURRENT_REPO_ORIGIN]);
    PrechecksPass(st, env, o);
    var t := Exec(TRY_BLOCK, 0, s1, env);
    var p := s1.trace + [CURRENT_REPO_UPSTREAM, FETCH_UPSTREAM_CMD];
    assert p <= t.st.trace by {
      TryKeepsIssuedFetch(s1, env, u);
    }
    assert p == st.trace + [CURRENT_REPO_ORIGIN, CURRENT_REPO_UPSTREAM, FETCH_UPSTREAM_CMD] by {
      Append3(st.trace, CURRENT_REPO_ORIGIN, CURRENT_REPO_UPSTREAM, FETCH_UPSTREAM_CMD);
    }
    var r := SyncSpec(st, env);
    assert t.st.trace <= r.st.trace by {
      SyncAfterTry(st, env, Res(s1, None), t);
      if t.raised.Some? {
        FallbackExtends(t.st, env);
      }
    }
    PrefixTrans(p, t.st.trace, r.st.trace);
  }

  /** The try block, after a good upstream lookup, keeps the lookup and the fetch in its trace. */
  lemma TryKeepsIssuedFetch(st: St, env: Env, u: seq<Byte>)
    requires env.upstreamOut == Some(u) && CleanUpstream(BytesRepr(u)) != ""
    ensures st.trace + [CURRENT_REPO_UPSTREAM, FETCH_UPSTREAM_CMD] <= Exec(TRY_BLOCK, 0, st, env).st.trace
  {
    var s2 := st.(trace := st.trace + [CURRENT_REPO_UPSTREAM]);
    UpstreamPasses(st, env, u);
    ExecStep(TRY_BLOCK, 0, st, env, Res(s2, None));
    var f := Issue(s2, FETCH_UPSTREAM_CMD, env);
    ExecStep(TRY_BLOCK, 1, s2, env, f);
    assert f.st.trace == st.trace + [CURRENT_REPO_UPSTREAM, FETCH_UPSTREAM_CMD];
    if f.raised.None? {
      ExecExtends(TRY_BLOCK, 2, f.st, env);
    }
  }

  lemma PrefixTrans(a: seq<Cmd>, b: seq<Cmd>, c: seq<Cmd>)
    requires a <= b && b <= c
    ensures a <= c
  {
    assert c[..|a|] == b[..|a|];
  }

  /**
    On git's own output the origin cleaner's `\n'` ends up in the repository
    name: `addRepoUpstream` asks the metadata endpoint about `repo\n'`, not `repo`.
   */
  lemma OriginNameKeepsEscape(b: seq<Byte>, ur: UserRepo)
    requires Plain(b) && Text(b) == CloneUrl(ur) && PlainName(ur.user) && PlainName(ur.repo)
    ensures ParseOriginUrl(CleanOrigin(BytesRepr(b + [NEWLINE]))) == Ok(UserRepo(ur.user, ur.repo + ESCAPED_END))
    ensures ApiUrl(UserRepo(ur.user, ur.repo + ESCAPED_END)) == ApiUrl(ur) + ESCAPED_END
  {
    OriginKeepsEscapedNewline(b);
    var name := ur.repo + ESCAPED_END;
    assert CloneUrl(ur) + ESCAPED_END == CloneUrl(UserRepo(ur.user, name));
    EscapedNamePlain(ur.repo);
    CloneUrlRoundTrip(UserRepo(ur.user, name));
  }

  /** Appending the two characters `\n'` keeps a name free of slashes and of `.git`. */
  lemma EscapedNamePlain(name: string)
    requires PlainName(name)
    ensures PlainName(name + ESCAPED_END)
  {
    assert '/' !in name + ESCAPED_END;
    if Contains(name + ESCAPED_END, GIT_SUFFIX) {
      ContainsAppendForeign(name, ESCAPED_END, GIT_SUFFIX);
    }
  }

  /**
    The consequence for `sync` as written: with no upstream configured and git printing
    the origin `https://github.com/<owner>/<repo>`, the fallback asks about `<repo>\n'`;
    unless the metadata endpoint knows that name, `sync` ends with `NoParent` after
    the second origin lookup and never adds a remote.
   */
  lemma FallbackEndsWithoutParent(st: St, env: Env, b: seq<Byte>, ur: UserRepo)
    requires env.hasGitDir && env.originOut == Some(b + [NEWLINE]) && env.upstreamOut.None?
    requires Plain(b) && Text(b) == CloneUrl(ur) && PlainName(ur.user) && PlainName(ur.repo)
    requires ApiUrl(ur) + ESCAPED_END !in env.parents
    ensures SyncSpec(st, env) ==
      Res(st.(trace := st.trace + [CURRENT_REPO_ORIGIN, CURRENT_REPO_UPSTREAM, CURRENT_REPO_ORIGIN]), Some(NoParent))
  {
    var o := b + [NEWLINE];
    var s1 := st.(trace := st.trace + [CURRENT_REPO_ORIGIN]);
    var s2 := s1.(trace := s1.trace + [CURRENT_REPO_UPSTREAM]);
    var s3 := s2.(trace := s2.trace + [CURRENT_REPO_ORIGIN]);
    assert SyncSpec(st, env) == Exec(FALLBACK, 0, s2, env) by {
      OriginKeepsEscapedNewline(b);
      PrechecksPass(st, env, o);
      UpstreamMissing(s1, env);
      SyncAfterTry(st, env, Res(s1, None), Res(s2, Some(CalledProcessError)));
    }
    assert AddUpstreamSpec(s2, env) == Res(s3, Some(NoParent)) by {
      OriginNameKeepsEscape(b, ur);
    }
    ExecStep(FALLBACK, 0, s2, env, Res(s3, Some(NoParent)));
    Append3(st.trace, CURRENT_REPO_ORIGIN, CURRENT_REPO_UPSTREAM, CURRENT_REPO_ORIGIN);
  }

  /**
    With the intended origin cleaner, `addRepoUpstream` reads the owner and the
    repository of git's origin back unchanged, so it asks about the right repository.
   */
  lemma IntendedOriginParses(b: seq<Byte>, ur: UserRepo)
    requires Plain(b) && Text(b) == CloneUrl(ur) && PlainName(ur.user) && PlainName(ur.repo)
    requires RStrip(Text(b)) == Text(b)
    ensures ParseOriginUrl(CleanOriginIntended(BytesRepr(b + [NEWLINE]))) == Ok(ur)
  {
    IntendedOriginRecoversUrl(b);
    CloneUrlRoundTrip(ur);
  }

  /** forkpull.py:261-265: without an argument nothing happens but the exception. */
  lemma MainNeedsArgument(argv: seq<string>, fork: string, listing: set<string>, st: St, env: Env)
    requires |argv| <= 1
    ensures MainSpec(argv, fork, listing, st, env) == Res(st, Some(NoArgument))
  {
  }

  /** forkpull.py:272-275: a fork URL not of the `git@` form stops `main` before any command. */
  lemma MainNeedsSshFork(argv: seq<string>, fork: string, listing: set<string>, st: St, env: Env)
    requires |argv| > 1 && '/' in argv[1]
    requires fork != [] && fork[0] != 'g'
    ensures MainSpec(argv, fork, listing, st, env) == Res(st, Some(BadUrl(SegmentsUnbound)))
  {
  }

  /**
    forkpull.py:288-293: `main` appends to `CLONE_REPO` and issues a clone
    exactly when the repository is not in the owner directory's listing.
   */
  lemma MainClonesOnlyWhenAbsent(argv: seq<string>, fork: string, listing: set<string>, st: St, env: Env)
    requires Valid(st) && |argv| > 1 && '/' in argv[1] && ParseForkUrl(fork).Ok?
    ensures MainSpec(argv, fork, listing, st, env).st.cloneRepo ==
      if ParseForkUrl(fork).value.repo in listing then st.cloneRepo
      else st.cloneRepo + [CloneUrl(ParseForkUrl(fork).value)]
    ensures |Clones(MainSpec(argv, fork, listing, st, env).st.trace)| ==
      |Clones(st.trace)| + if ParseForkUrl(fork).value.repo in listing then 0 else 1
  {
    var ur := ParseForkUrl(fork).value;
    var owner := OwnerDir(argv[1]).value;
    var c := CloneSpec(st.(cwd := st.cwd + [owner]), ur, listing, env);
    if c.raised.None? {
      SyncOnlyAppends(c.st.(cwd := c.st.cwd + [ur.repo]), env);
    }
    MainValid(argv, fork, listing, st, env);
  }

  /**
    The end-to-end case: forking `https://github.com/alice/widgets` gives
    `git@github.com:bob/widgets.git`; `main` works in `alice`, clones
    `https://github.com/bob/widgets` unless `widgets` is listed there, and runs
    `sync` in `alice/widgets`.
   */
  lemma MainScenario(argv0: string, upOwner: string, forkOwner: string, name: string,
                     listing: set<string>, st: St, env: Env)
    requires '/' !in upOwner && PlainName(forkOwner) && PlainName(name) && ':' !in forkOwner && ':' !in name
    ensures name in listing ==>
      MainSpec([argv0, HTTPS_PREFIX + upOwner + "/" + name], SshUrl(UserRepo(forkOwner, name)), listing, st, env)
      == SyncSpec(st.(cwd := st.cwd + [upOwner, name]), env)
    ensures name !in listing && |st.trace| !in env.raising ==>
      MainSpec([argv0, HTTPS_PREFIX + upOwner + "/" + name], SshUrl(UserRepo(forkOwner, name)), listing, st, env)
      == SyncSpec(st.(trace := st.trace + [st.cloneRepo + [HTTPS_PREFIX + forkOwner + "/" + name]],
                      cloneRepo := st.cloneRepo + [HTTPS_PREFIX + forkOwner + "/" + name],
                      cwd := st.cwd + [upOwner, name]), env)
  {
    OwnerDirOfHttpsUrl(upOwner, name);
    SshUrlRoundTrip(UserRepo(forkOwner, name));
    assert st.cwd + [upOwner] + [name] == st.cwd + [upOwner, name];
  }
}
