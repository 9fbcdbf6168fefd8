/**
  forkpull.py as the script runs it: one loaded module whose two command lists
  are appended to in place, a working directory that `main` changes, and a
  sequence of git commands handed to `subprocess`. Each function of the script
  is a method of `Session` proved equal to its counterpart in `Steps`.
 */
module ForkPull {
  import opened Results
  import opened Cleaning
  import opened Urls
  import opened Steps

  class Session {
    /** Every command handed to `call` or `check_output`, in order. */
    var trace: seq<Cmd>
    /** The module-level list `ADD_REMOTE_CMD`. */
    var addRemoteCmd: Cmd
    /** The module-level list `CLONE_REPO`. */
    var cloneRepo: Cmd
    /** The working directory, relative to where the script started. */
    var cwd: seq<string>

    function State(): St
      reads this
    {
      St(trace, addRemoteCmd, cloneRepo, cwd)
    }

    /** Loading the module (forkpull.py:19-27). */
    constructor ()
      ensures State() == INITIAL
      ensures Valid(State())
    {
      trace := [];
      addRemoteCmd := ADD_REMOTE_CMD;
      cloneRepo := CLONE_REPO;
      cwd := [];
      new;
      InitialValid();
    }

    /** `subprocess.call(cmd)`: the command is issued; the call raises when the world says so. */
    method Call(cmd: Cmd, env: Env) returns (raised: Option<Exc>)
      modifies this
      ensures Res(State(), raised) == Issue(old(State()), cmd, env)
    {
      raised := if |trace| in env.raising then Some(CallRaised) else None;
      trace := trace + [cmd];
    }

    /** `checkGitRepository` (forkpull.py:51-55). */
    method CheckGitRepository(env: Env) returns (isRepo: bool)
      ensures isRepo == env.hasGitDir
    {
      isRepo := env.hasGitDir;
    }

    /** `getRepoOriginUrl` (forkpull.py:57-71). */
    method GetRepoOriginUrl(env: Env) returns (url: Result<string, Exc>)
      modifies this
      ensures Lookup(State(), url) == OriginLookup(old(State()), env)
    {
      trace := trace + [CURRENT_REPO_ORIGIN];
      match env.originOut
      case None => url := Err(CalledProcessError);
      case Some(out) =>
        var shown := BytesRepr(out);
        shown := PyStr.DeleteAll(shown, OPENING);
        shown := PyStr.RStrip(shown);
        url := Ok(shown);
    }

    /** `getRepoUpstreamUrl` (forkpull.py:73-88). */
    method GetRepoUpstreamUrl(env: Env) returns (url: Result<string, Exc>)
      modifies this
      ensures Lookup(State(), url) == UpstreamLookup(old(State()), env)
    {
      trace := trace + [CURRENT_REPO_UPSTREAM];
      match env.upstreamOut
      case None => url := Err(CalledProcessError);
      case Some(out) =>
        var shown := BytesRepr(out);
        shown := PyStr.DeleteAll(shown, OPENING);
        shown := PyStr.DeleteAll(shown, ESCAPED_END);
        url := Ok(PyStr.Strip(shown));
    }

    /** `fetchUpstream` (forkpull.py:90-106). */
    method FetchUpstream(env: Env) returns (raised: Option<Exc>)
      modifies this
      ensures Res(State(), raised) == StepSpec(Fetch, old(State()), env)
    {
      raised := Call(FETCH_UPSTREAM_CMD, env);
    }

    /** `checkoutMasterBranch` (forkpull.py:108-123). */
    method CheckoutMasterBranch(env: Env) returns (raised: Option<Exc>)
      modifies this
      ensures Res(State(), raised) == StepSpec(Checkout, old(State()), env)
    {
      raised := Call(CHECKOUT_MASTER_CMD, env);
    }

    /** `mergeUpstream` (forkpull.py:125-139). */
    method MergeUpstream(env: Env) returns (raised: Option<Exc>)
      modifies this
      ensures Res(State(), raised) == StepSpec(Merge, old(State()), env)
    {
      raised := Call(MERGE_UPSTREAM_CMD, env);
    }

    /** `pushToOrigin` (forkpull.py:141-155). */
    method PushToOrigin(env: Env) returns (raised: Option<Exc>)
      modifies this
      ensures Res(State(), raised) == StepSpec(Push, old(State()), env)
    {
      raised := Call(PUSH_TO_UPSTREAM_CMD, env);
    }

    /**
      `addRepoUpstream` (forkpull.py:157-192): the parent's clone URL is appended
      to `ADD_REMOTE_CMD` in place before the whole list is issued.
     */
    method AddRepoUpstream(env: Env) returns (raised: Option<Exc>)
      modifies this
      ensures Res(State(), raised) == AddUpstreamSpec(old(State()), env)
    {
      var origin := GetRepoOriginUrl(env);
      if origin.Err? {
        return Some(origin.error);
      }
      var parsed := ParseOriginUrl(origin.value);
      if parsed.Err? {
        return Some(BadUrl(parsed.error));
      }
      var url := ApiUrl(parsed.value);
      if url !in env.parents {
        return Some(NoParent);
      }
      addRemoteCmd := addRemoteCmd + [env.parents[url]];
      raised := Call(addRemoteCmd, env);
    }

    /**
      `sync` (forkpull.py:194-246). The fallback names `checkoutMasterBranch`
      without calling it, so it issues no checkout.
     */
    method Sync(env: Env) returns (raised: Option<Exc>)
      modifies this
      ensures Res(State(), raised) == SyncSpec(old(State()), env)
      ensures old(Valid(State())) ==> Valid(State())
    {
      ghost var st0 := State();
      SyncValidIfValid(st0, env);
      var isRepo := CheckGitRepository(env);
      if !isRepo {
        return Some(AssertionFailed);
      }
      var origin := GetRepoOriginUrl(env);
      if origin.Err? || origin.value == "" {
        return if origin.Err? then Some(origin.error) else Some(AssertionFailed);
      }
      assert Exec(PRECHECKS, 0, st0, env) == Res(State(), None);
      raised := TryUpstream(env);
      if raised.None? {
        return;
      }
      raised := AddUpstreamAndSync(env);
    }

    /** forkpull.py:208-223, the try block of `sync`. */
    method TryUpstream(env: Env) returns (raised: Option<Exc>)
      modifies this
      ensures Res(State(), raised) == Exec(TRY_BLOCK, 0, old(State()), env)
    {
      ghost var s0 := State();
      var upstream := GetRepoUpstreamUrl(env);
      ghost var s1 := State();
      ghost var a := StepSpec(AssertUpstream, s0, env);
      assert a == Asserted(Lookup(s1, upstream));
      assert Exec(TRY_BLOCK, 0, s0, env) == if a.raised.Some? then a else Exec(TRY_BLOCK, 1, s1, env);
      if upstream.Err? || upstream.value == "" {
        return if upstream.Err? then Some(upstream.error) else Some(AssertionFailed);
      }
      raised := FetchUpstream(env);
      if raised.Some? {
        return;
      }
      ghost var s2 := State();
      assert Exec(TRY_BLOCK, 1, s1, env) == Exec(TRY_BLOCK, 2, s2, env);
      raised := CheckoutMasterBranch(env);
      if raised.Some? {
        return;
      }
      ghost var s3 := State();
      assert Exec(TRY_BLOCK, 2, s2, env) == Exec(TRY_BLOCK, 3, s3, env);
      raised := MergeUpstream(env);
      if raised.Some? {
        return;
      }
      ghost var s4 := State();
      assert Exec(TRY_BLOCK, 3, s3, env) == Exec(TRY_BLOCK, 4, s4, env);
      raised := PushToOrigin(env);
    }

    /** forkpull.py:224-242, the except block of `sync`. */
    method AddUpstreamAndSync(env: Env) returns (raised: Option<Exc>)
      modifies this
      ensures Res(State(), raised) == Exec(FALLBACK, 0, old(State()), env)
    {
      ghost var s0 := State();
      raised := AddRepoUpstream(env);
      if raised.Some? {
        return;
      }
      ghost var s1 := State();
      assert Exec(FALLBACK, 0, s0, env) == Exec(FALLBACK, 1, s1, env);
      raised := FetchUpstream(env);
      if raised.Some? {
        return;
      }
      ghost var s2 := State();
      assert Exec(FALLBACK, 1, s1, env) == Exec(FALLBACK, 2, s2, env);
      raised := MergeUpstream(env);
      if raised.Some? {
        return;
      }
      ghost var s3 := State();
      assert Exec(FALLBACK, 2, s2, env) == Exec(FALLBACK, 3, s3, env);
      raised := PushToOrigin(env);
    }

    /**
      `main` (forkpull.py:257-298). `fork` stands for what `forkRepository`
      returned and `listing` for the entries of the owner directory.
     */
    method Run(argv: seq<string>, fork: string, listing: set<string>, env: Env) returns (raised: Option<Exc>)
      modifies this
      ensures Res(State(), raised) == MainSpec(argv, fork, listing, old(State()), env)
      ensures old(Valid(State())) ==> Valid(State())
    {
      ghost var st0 := State();
      MainValidIfValid(argv, fork, listing, st0, env);
      if |argv| <= 1 {
        return Some(NoArgument);
      }
      var owner := OwnerDir(argv[1]);
      if owner.Err? {
        return Some(BadUrl(owner.error));
      }
      var parsed := ParseForkUrl(fork);
      if parsed.Err? {
        return Some(BadUrl(parsed.error));
      }
      var ur := parsed.value;
      cwd := cwd + [owner.value];
      if ur.repo !in listing {
        cloneRepo := cloneRepo + [CloneUrl(ur)];
        raised := Call(cloneRepo, env);
        if raised.Some? {
          return;
        }
      }
      cwd := cwd + [ur.repo];
      raised := Sync(env);
    }
  }

  lemma SyncValidIfValid(st: St, env: Env)
    ensures Valid(st) ==> Valid(SyncSpec(st, env).st)
  {
    if Valid(st) {
      SyncValid(st, env);
    }
  }

  lemma MainValidIfValid(argv: seq<string>, fork: string, listing: set<string>, st: St, env: Env)
    ensures Valid(st) ==> Valid(MainSpec(argv, fork, listing, st, env).st)
  {
    if Valid(st) {
      MainValid(argv, fork, listing, st, env);
    }
  }
}
