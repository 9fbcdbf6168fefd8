# forkpull, modelled in Dafny

`forkpull.py` keeps a local clone of a GitHub fork up to date with its parent
repository. It reads the clone's `origin` and `upstream` remotes with `git config`.
With an upstream configured it fetches it, checks out `master`, merges
`upstream/master` and pushes to `origin`. If any of that raises (most often
because there is no upstream), it asks the GitHub metadata endpoint for the
parent, adds it as `upstream`, and fetches, merges and pushes again. The script
names the checkout on that path without calling it, so there is no checkout. Its `main` takes a repository URL, forks
it and clones the fork into a directory named after the upstream owner (for an HTTPS
argument; for a `git@` argument the directory name includes the host), unless
the clone is already there. Then it runs `sync` inside the clone.

The project models the parts of the script that are not just input and output:

- `PyStr`: the Python string operations the script uses. These are `str.split`,
  `str.replace(pat, "")`, `rstrip` and `strip`, with Python's whitespace set.
  `sep.join` is defined only to specify `replace` (through
  `DeleteAllIsJoinOfSplit`), and `lstrip` only to build `strip`.
- `Cleaning`: what the two remote lookups do with `git config`'s output.
  `str(bytes)` yields Python's printed form of a bytes value (`b'...'`, with
  escapes and its choice of quotes), not the decoded text. The two lookups then
  clean that printed form differently.
- `Urls`: how the script splits a GitHub URL into owner and repository by hand,
  in `addRepoUpstream` and in `main`. This includes every exception the
  splitting can raise. It also covers the URLs the script builds from the pair,
  and the owner directory `main` derives from its argument.
- `Steps`: the run as pure functions over an oracle `Env`. The oracle says:
  - whether `.git` exists;
  - what git prints for each lookup, or that it exits non-zero;
  - what the metadata endpoint answers;
  - at which positions of the command trace `subprocess.call` raises.

  A state `St` holds:
  - the trace of commands handed to `subprocess`;
  - the two module-level lists `ADD_REMOTE_CMD` and `CLONE_REPO`, which the
    script appends to in place;
  - the working directory.

  `sync` is a plan of steps that stops at the first exception. Any exception in
  its try block starts the fallback plan.
- `ForkPull`: class `Session`, with the trace, the two lists and the working
  directory as fields. Each script function is a method that updates them in
  place. Each method is proved equal to its `Steps` counterpart, and `Sync` and
  `Run` (the script's `main`) keep the lists' invariant.

Nothing here is executed. The statements below are what the verifier proves
about the model.

## Model

| member | source | states |
|---|---|---|
| PyStr.Split | forkpull.py:166 | `str.split` with a non-empty separator gives at least one segment |
| PyStr.JoinSplit | forkpull.py:166 | joining the segments of a split with the separator gives the string back |
| PyStr.SplitLength | forkpull.py:166-171 | a split has a segment 1 exactly when the separator occurs, so `url_segments[1]` fails exactly when the prefix is absent |
| PyStr.SplitCharCount | forkpull.py:173 | splitting on `/` gives one segment more than there are slashes |
| PyStr.SplitCharParts | forkpull.py:173 | no segment of a split on `/` contains `/` |
| PyStr.SplitJoinChar | forkpull.py:265 | splitting on `c` at an occurrence of `c` gives the splits of both sides, concatenated |
| PyStr.SplitOfJoin | forkpull.py:265 | splitting on `c` the join of a non-empty list of `c`-free parts gives that list back, so a split on one character is the only such list |
| PyStr.JoinAppend | forkpull.py:172 | joining two non-empty lists puts the separator between their joins |
| PyStr.DeleteAll | forkpull.py:172 | `replace(pat, "")` never lengthens its input |
| PyStr.DeleteAllIsJoinOfSplit | forkpull.py:172 | `s.replace(pat, "")` equals `"".join(s.split(pat))` |
| PyStr.DeleteAllAbsent | forkpull.py:172 | deleting a pattern that does not occur changes nothing |
| PyStr.DeleteAllAfter | forkpull.py:172 | when no occurrence starts inside `a`, deletion leaves `a` unchanged and works on the rest |
| PyStr.RStrip | forkpull.py:64 | `rstrip` gives a prefix without trailing whitespace; everything it removes is whitespace |
| PyStr.LStrip | forkpull.py:84 | `lstrip` gives a suffix without leading whitespace; everything it removes is whitespace |
| PyStr.Strip | forkpull.py:84 | `strip` never lengthens its input and leaves no whitespace at either end |
| PyStr.StripTrims | forkpull.py:84 | `strip` returns a slice of its input: only whitespace is cut, and only at the two ends |
| PyStr.Join | forkpull.py:172 | definition of `sep.join(parts)`; its meaning is fixed by `JoinSplit` and `DeleteAllIsJoinOfSplit` |
| PyStr.StripUnpadded | forkpull.py:84 | `strip` leaves a string without surrounding whitespace unchanged |
| Cleaning.EscapeByte | forkpull.py:62 | how Python prints one byte inside quotes `q`: the quote and the backslash escaped, `\t` `\n` `\r`, other control and non-ASCII bytes as `\xhh`, every other byte as itself; at least one character |
| Cleaning.BytesRepr | forkpull.py:62 | `str(b)` starts with `b` and is enclosed in a matching pair of quotes around at least one character per byte |
| Cleaning.EscapePlain | forkpull.py:62 | printable bytes other than a quote or backslash print as their own text |
| Cleaning.ReprOfLine | forkpull.py:62 | git's output `url` + newline prints as `b'` + url + `\n'` |
| Cleaning.CleanOrigin | forkpull.py:62-64 | the origin cleaner never lengthens and leaves no trailing whitespace |
| Cleaning.CleanUpstream | forkpull.py:79-84 | the upstream cleaner never lengthens and leaves no surrounding whitespace |
| Cleaning.OriginKeepsEscapedNewline | forkpull.py:62-64 | on git's output the origin cleaner returns the URL followed by a literal `\n'` |
| Cleaning.UpstreamRecoversUrl | forkpull.py:79-84 | on git's output the upstream cleaner returns the stripped URL |
| Cleaning.DeleteBothOnLine | forkpull.py:79-81 | deleting `b'` and then `\n'` from git's printed line leaves exactly the URL |
| Cleaning.CleanOriginIntended | forkpull.py:62-64 | the corrected origin cleaner, which also deletes `\n'`; never lengthens and leaves no trailing whitespace |
| Cleaning.IntendedOriginRecoversUrl | forkpull.py:62-64 | on git's output the corrected origin cleaner returns the URL, stripped on the right |
| Cleaning.CleanersDisagree | forkpull.py:62-64 | the origin result is at least three characters longer than the upstream result; without surrounding whitespace it is the upstream result plus `\n'` |
| Urls.UserAndRepo | forkpull.py:171-173 | succeeds exactly when there is a segment 1 whose `.git`-free remainder has exactly one `/`; then owner + `/` + name is that remainder and neither contains `/`; otherwise the error is the missing segment or the unpacking count |
| Urls.ParseOriginUrl | forkpull.py:165-173 | an owner and name it gives contain no `/` |
| Urls.ParseOriginUrlOutcome | forkpull.py:165-173 | empty URL, first character neither `h` nor `g`, absent prefix: each error occurs exactly in its case; success exactly when the prefix occurs and its segment 1, without `.git`, has one `/` |
| Urls.ParseForkUrl | forkpull.py:272-277 | `main` parses a `g` URL as `addRepoUpstream` does, rejects every other first character as unbound segments, and an empty fork URL as an index error |
| Urls.OwnerDir | forkpull.py:265 | the owner directory exists exactly when the argument contains `/`, and contains no `/`; its value is fixed by `OwnerDirOfPath` and `OwnerDirOfPair` |
| Urls.OwnerDirOfPath | forkpull.py:265 | for every argument `a/b/c` with no `/` in `b` or `c`, the owner directory is `b`, the second-to-last segment |
| Urls.OwnerDirOfPair | forkpull.py:265 | for every argument `b/c` with exactly that one `/`, the owner directory is `b` |
| Urls.CloneUrl | forkpull.py:279 | definition of `https://github.com/<user>/<repo>`; parsed back by `CloneUrlRoundTrip` |
| Urls.ApiUrl | forkpull.py:176 | definition of the metadata URL `https://api.github.com/repos/<user>/<repo>`; see `OriginNameKeepsEscape` |
| Urls.CloneUrlRoundTrip | forkpull.py:165-173 | the HTTPS URL built from an owner and name without `/` or `.git` parses back to them |
| Urls.SshUrlRoundTrip | forkpull.py:272-277 | the `git@` URL of such a pair, with no colon, parses back to it in both `main` and `addRepoUpstream` |
| Urls.ForkAndCloneUrlsAgree | forkpull.py:279 | the clone URL `main` builds from the fork's pair parses to the same pair as the fork URL |
| Urls.GitDeletedInside | forkpull.py:172 | `.git` is deleted inside a name too: `owner/a.gitb` reads as the repository `ab` |
| Urls.OwnerDirOfHttpsUrl | forkpull.py:265 | the owner directory of `https://github.com/owner/name` is `owner` |
| Urls.OwnerDirOfSshUrl | forkpull.py:265 | the owner directory of a `git@` argument is everything before its one slash, host included |
| Steps.Issue | forkpull.py:99 | definition of `call(cmd)`: the command is appended to the trace; it raises where the oracle says so; used by `Fetch`, `Checkout`, `Merge`, `Push`, `AddUpstreamSpec` and `CloneSpec` (the `git config` lookups go through `check_output`, modelled by `OriginLookup` and `UpstreamLookup`) |
| Steps.OriginLookup | forkpull.py:57-71 | definition of `getRepoOriginUrl`: the lookup is issued and the origin cleaner is applied to the printed output; properties in `OriginKeepsEscapedNewline` and `OriginNameKeepsEscape` |
| Steps.UpstreamLookup | forkpull.py:73-88 | definition of `getRepoUpstreamUrl`; properties in `UpstreamRecoversUrl` |
| Steps.Asserted | forkpull.py:206-210 | definition of `assert getRepo...Url()`: a failed lookup raises its error, an empty cleaned string raises `AssertionError`, anything else passes; properties in `PrechecksPass`, `UpstreamPasses`, `UpstreamMissing`, `SyncWithoutOrigin` |
| Steps.StepSpec | forkpull.py:90-155 | definition of one step of `sync`: the `.git` assertion (line 203), the asserted lookups (lines 206, 210), `addRepoUpstream`, and fetch, checkout, merge and push; properties in `StepExtends`, `StepValid`, `StepNoCheckout` |
| Steps.Exec | forkpull.py:203-242 | definition of a statement list that stops at the first exception; properties in `ExecExtends`, `ExecValid`, `ExecStep`, `SyncAfterTry`, `SyncOnlyAppends` |
| Steps.AddUpstreamSpec | forkpull.py:157-192 | definition of `addRepoUpstream`; properties in `StepExtends`, `IssueRemoteAddValid`, `FallbackEndsWithoutParent` |
| Steps.SyncSpec | forkpull.py:194-242 | definition of `sync` as prechecks, try block and fallback; properties in `SyncValid`, `SyncOnlyAppends`, `SyncWithUpstream`, `SyncWithoutUpstream`, `NoUpstreamNoCheckout` |
| Steps.CloneSpec | forkpull.py:288-293 | definition of the clone-if-absent step; properties in `MainClonesOnlyWhenAbsent` |
| Steps.MainSpec | forkpull.py:257-298 | definition of `main`; properties in `MainValid`, `MainNeedsArgument`, `MainNeedsSshFork`, `MainClonesOnlyWhenAbsent`, `MainScenario` |
| Steps.InitialValid | forkpull.py:19-27 | the freshly loaded lists and the empty trace satisfy the growth invariant |
| Steps.NthRemoteAdd | forkpull.py:184-188 | the n-th issued `remote add` has 4 + n arguments, starts with the template and extends every earlier one |
| Steps.IssueRemoteAddValid | forkpull.py:184-188 | appending a URL to `ADD_REMOTE_CMD` and issuing the whole list keeps the invariant |
| Steps.IssueCloneValid | forkpull.py:292-293 | appending the clone URL to `CLONE_REPO` and issuing the whole list keeps the invariant |
| Steps.IssueOtherValid | forkpull.py:90-155 | issuing any other git command keeps the invariant |
| Steps.StepValid | forkpull.py:157-192 | every step of `sync` keeps the invariant |
| Steps.ExecValid | forkpull.py:203-242 | every run of a plan keeps the invariant |
| Steps.SyncValid | forkpull.py:194-242 | `sync` keeps the invariant |
| Steps.MainValid | forkpull.py:257-298 | `main` keeps the invariant |
| Steps.StepExtends | forkpull.py:90-192 | a step only appends to the trace, grows `ADD_REMOTE_CMD` by at most one URL, only when it is `addRepoUpstream`, and leaves `CLONE_REPO` and the directory alone |
| Steps.ExecExtends | forkpull.py:203-242 | a plan only appends to the trace; without `addRepoUpstream` it leaves `ADD_REMOTE_CMD` alone |
| Steps.SyncOnlyAppends | forkpull.py:208-242 | nothing `sync` issued is taken back, even when an exception ends the try block; `ADD_REMOTE_CMD` grows by at most one URL |
| Steps.SyncKeepsIssuedFetch | forkpull.py:208-242 | once the upstream check passes, the fetch it leads to stays in the trace whatever raises later |
| Steps.SyncOutsideRepository | forkpull.py:203 | without `.git`, `sync` issues nothing and raises |
| Steps.SyncWithoutOrigin | forkpull.py:205-206 | without a usable origin, `sync` issues only the origin lookup and raises |
| Steps.SyncWithUpstream | forkpull.py:203-223 | with both remotes and nothing raising, the run is origin lookup, upstream lookup, fetch, checkout, merge, push, with no `remote add` |
| Steps.SyncWithoutUpstream | forkpull.py:224-242 | without an upstream and nothing raising, the run adds the parent's clone URL, then fetches, merges and pushes, with no checkout. It requires the metadata endpoint to answer for the API URL of the origin as the origin cleaner returns it. On git's real output that URL ends in `\n'` (see Findings) |
| Steps.FallbackEndsWithoutParent | forkpull.py:157-242 | as written: with no upstream and git printing `https://github.com/<owner>/<repo>`, unless the endpoint knows `<repo>\n'`, `sync` ends with `NoParent` after lookups origin, upstream, origin, and adds no remote |
| Steps.IntendedOriginParses | forkpull.py:163-176 | with the corrected origin cleaner, the owner and repository of git's origin are read back unchanged |
| Steps.FallbackSkipsCheckout | forkpull.py:236 | the fallback never issues a checkout |
| Steps.NoUpstreamNoCheckout | forkpull.py:236 | without an upstream remote, `sync` never issues a checkout at all |
| Steps.OriginNameKeepsEscape | forkpull.py:163-176 | for an origin `https://github.com/owner/name`, `addRepoUpstream` reads the name as name + `\n'` and queries that name's metadata URL |
| Steps.MainNeedsArgument | forkpull.py:261-265 | without an argument `main` issues nothing and raises |
| Steps.MainNeedsSshFork | forkpull.py:272-275 | a fork URL not starting with `g` stops `main` before any command |
| Steps.MainClonesOnlyWhenAbsent | forkpull.py:288-293 | `CLONE_REPO` grows by the clone URL, and one clone is issued, exactly when the repository is not in the listing |
| Steps.MainScenario | forkpull.py:257-298 | for the argument `https://github.com/<owner>/<name>` and the fork `git@github.com:<forkOwner>/<name>.git`, `main` is `sync` run in `<owner>/<name>`; when `<name>` is not listed, the clone of `https://github.com/<forkOwner>/<name>` is first appended to `CLONE_REPO` and issued, when that call does not raise |
| ForkPull.Session.constructor | forkpull.py:19-27 | a loaded module has the original lists, no trace and the starting directory, and satisfies the invariant |
| ForkPull.Session.Call | forkpull.py:99 | `call` appends the command to the trace and raises only where the oracle says so |
| ForkPull.Session.CheckGitRepository | forkpull.py:51-55 | reports whether `.git` exists |
| ForkPull.Session.GetRepoOriginUrl | forkpull.py:57-71 | issues the origin lookup and returns the cleaned printed output, or git's error |
| ForkPull.Session.GetRepoUpstreamUrl | forkpull.py:73-88 | issues the upstream lookup and returns the cleaned printed output, or git's error |
| ForkPull.Session.FetchUpstream | forkpull.py:90-106 | issues `git fetch upstream` |
| ForkPull.Session.CheckoutMasterBranch | forkpull.py:108-123 | issues `git checkout master` |
| ForkPull.Session.MergeUpstream | forkpull.py:125-139 | issues `git merge upstream/master` |
| ForkPull.Session.PushToOrigin | forkpull.py:141-155 | issues `git push origin master` |
| ForkPull.Session.AddRepoUpstream | forkpull.py:157-192 | looks up and parses the origin, appends the parent's clone URL to `ADD_REMOTE_CMD` in place and issues the whole list; raises at each failure |
| ForkPull.Session.Sync | forkpull.py:194-246 | runs the prechecks, the try block and on any exception the fallback, equal to `Steps.SyncSpec`, keeping the invariant |
| ForkPull.Session.TryUpstream | forkpull.py:208-223 | the try block: upstream check, fetch, checkout, merge, push, stopping at the first exception |
| ForkPull.Session.AddUpstreamAndSync | forkpull.py:224-242 | the fallback: add upstream, fetch, merge, push, with no checkout, stopping at the first exception |
| ForkPull.Session.Run | forkpull.py:257-298 | derives the owner directory, parses the fork, clones only when absent, and syncs inside the clone, equal to `Steps.MainSpec`, keeping the invariant |

## Findings

| source | as written | input that shows it | evidently intended | confidence | as-written member | corrected member |
|---|---|---|---|---|---|---|
| forkpull.py:62-64 | `getRepoOriginUrl` deletes `b'` from `str(check_output(...))` but not the escaped newline and closing quote `\n'`; `addRepoUpstream` then splits that value, and its repository name ends in `\n'` | git prints `https://github.com/alice/widgets` and a newline; the request goes to `https://api.github.com/repos/alice/widgets\n'`, so with no upstream configured `sync` stops with `NoParent` | delete `\n'` as `getRepoUpstreamUrl` does at forkpull.py:81, so the request names `alice/widgets` | supported by the upstream cleaner's extra deletion; not executed | Steps.FallbackEndsWithoutParent | Steps.IntendedOriginParses |

`Steps.FallbackEndsWithoutParent` uses `Steps.OriginNameKeepsEscape`. `Steps.IntendedOriginParses` uses `Cleaning.CleanOriginIntended` and `Cleaning.IntendedOriginRecoversUrl`.

## Left out

- `forkRepository` (forkpull.py:29-49) and `checkUserExists` (forkpull.py:248-255) are calls into the GitHub API client. The fork URL `forkRepository` returns is an input to `Session.Run`.
- `giturlparse.parse` is a third-party library and is not part of this model.
- `requests.get` and the `["parent"]["clone_url"]` lookup (forkpull.py:179-180) are network I/O. `Env.parents` maps each request URL to the clone URL it answers with. A failed request, a missing key or bad JSON all become the one exception `NoParent`.
- Execution of `subprocess.call` and `check_output`. `git config` is represented by the bytes it prints, or by a non-zero exit. Whether `call` raises is an oracle keyed by trace position. A non-zero exit status from `call` is not an exception, as in the script.
- `os.path.isdir`, `os.makedirs`, `os.chdir` and `os.listdir` (forkpull.py:55, 281-296). These become the `.git` flag, a directory path and a listing given as inputs. A failing `chdir` (for example into an empty owner name, or into a repository directory the clone did not create) is not modelled: the model always enters the directory.
- The listing is taken once, as an input. It is not tied to what an earlier clone created.
- All `print` output and the banners. The unused `retrying` and `git.Repo` imports. `CHECK_REMOTES_CMD`, which is never used. The `__main__` block.
- Python run with `-O`, which would drop the `assert` statements, is not modelled: the asserts are assumed to run.
- Concurrency and the real file system: each run starts from the state it is given.
- PyStr.Strip: the function's own contract does not say that the result is a slice of the input, so that each use of `Strip` stays cheap to verify; the lemma `PyStr.StripTrims` states it for every input.
- Cleaning.BytesRepr: printed forms are modelled for every byte value, but the lemmas about git's output assume `Plain` bytes. `Plain` allows only bytes 0x20 to 0x7e other than the single quote and the backslash. It allows the double quote. It excludes control characters and every byte from 0x7f up, so any non-ASCII URL.
- Steps.FallbackEndsWithoutParent, Steps.SyncWithoutUpstream: the model of the script keeps the origin cleaner as written. The corrected cleaner of the finding above is defined and proved beside it but not substituted into `sync`, so `sync` models the script's behaviour.
- Urls.ParseOriginUrl: its own contract only states that the names contain no `/`. The full outcome, error by error, is `Urls.ParseOriginUrlOutcome`.
