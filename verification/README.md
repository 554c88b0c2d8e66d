# git-service, modelled in Dafny

git-service is a small HTTP service that keeps one git repository checked out and
answers requests about it:
- liveness (`/`);
- configured remotes (`/remotes`);
- local and remote-tracking branches (`/branches/local`, `/branches/remote`);
- the last commit of a branch (`/branch/<name>`);
- three operations on a branch (`/branch/<name>/checkout`, `/branch/<name>/fetch`, `/branch/<name>/pull`).

At start-up it opens the repository at its clone path, or clones it there.

This project models the service's own layer of decisions. The version-control engine, the
HTTP server and the JSON encoder are abstract: what they report is given as parameters.

- `results.dfy` (module `Results`): `Option`, `Result` and `Outcome`, which stand for Rust's
  `Option<T>`, `Result<T, E>` and `Result<(), E>`.
- `format.dfy` (module `Formatting`): what Rust's `write!` produces from a format string's
  literal pieces and its arguments, and where each piece and argument sits in the text.
- `repository.dfy` (module `Repository`): the repository facade. It covers:
  - the descriptor records and their text renderings, including the decimal rendering of the
    timestamp and its round trip;
  - the translation of engine commits and remotes;
  - the listing pipelines, which keep the entries that translate and drop the rest, in order;
  - the mutating operations `checkout`, `fetch` and `pull`.

  The engine's observable state is a value, `RepoState`:
  - references, mapping names to object ids;
  - commit objects, stored under their own id;
  - the configured remotes;
  - the reference HEAD follows;
  - the tree ids held by the index and by the working tree.

  The class `GitRepository` holds that state in fields. Its methods change it, and each is
  proved to agree with a pure step function (`CheckoutStep`, `FetchStep`, `PullStep`) whose
  own contract states the operation's meaning.
- `controller.dfy` (module `Controller`): each handler's mapping from an operation's outcome to
  a response (status and body).
- `router.dfy` (module `Router`): `handle_request`, which goes from a request method and path to
  one of nine routes and then to the controller.
  - The two fixed `/branch/...` patterns are matched by hand with the source engine's semantics:
    the search is unanchored, leftmost-first and greedy, and a capture runs until the next `/` or `\`.
  - `OperationDispatch` states the dispatch rule for every path: the route is an operation
    exactly when the first pattern matches, its branch capture at the leftmost match is not
    empty and its operation capture names an operation.
  - `BranchPathRoute` gives the route of `pre/branch/<b>/<op>[/...]` when no `/branch/` starts
    inside `pre`, and `OperationPathRoute` gives it for an operation path when only the first
    pattern fails to match inside `pre`. An earlier `/branch/` can decide the route:
    `/branch/a/foo/branch/main/pull` is the last commit of `a`, while
    `/branch/x\/branch/main/pull` pulls `main`.
- `bootstrap.dfy` (module `Bootstrap`): the open-else-clone decision made at start-up.

## Model

| member | source | states |
|---|---|---|
| Repository.SomeOrEmpty | src/repository.rs:12-17 | a present value is rendered as itself; the result is empty exactly when the value is absent or empty |
| Repository.RemoteDebug | src/repository.rs:19-26 | the rendering is `{ name=`, the name's text, `, url=`, the URL's text, `, push_url=`, the push URL's text and ` }`, each at the offset the earlier parts leave it (an absent field's text is empty) |
| Repository.RemoteDebugAbsentIsEmpty | src/repository.rs:19-26 | an absent field renders exactly as an empty one |
| Repository.ContributorDisplay | src/repository.rs:34-40 | the rendering is `{ name=`, the name's text, `, email=`, the email's text and ` }`, each at the offset the earlier parts leave it (an absent field's text is empty) |
| Repository.ContributorDisplayAbsentIsEmpty | src/repository.rs:34-40 | an absent name or email renders exactly as an empty one |
| Repository.CommitDebug | src/repository.rs:78-93 | the rendering is laid out as `CommitLayout` says: `{ id=` and the id, then `, tree_id=`, `, timestamp=`, `, header=`, `, message=`, `, summary=`, `, author=` and `, committer=`, each at the offset the earlier fields leave it and followed by its field, then ` }`; the timestamp's text is its decimal rendering, absent header, message and summary are empty, and author and committer appear in their `Display` rendering |
| Repository.CommitFormatLayout | src/repository.rs:86-91 | writing any eight fields with the commit's format string lays them out as `CommitLayout` says |
| Formatting.FormatTail | src/repository.rs:86-91 | from the start of its `k`-th literal piece, the formatted text is the formatting of the pieces and arguments from `k` on |
| Formatting.Field | src/repository.rs:86-91 | the `k`-th literal piece and then the `k`-th argument sit at the piece's start, where the earlier pieces and arguments end |
| Formatting.FormatLast | src/repository.rs:86-91 | the formatted text ends with the last literal piece |
| Repository.NatToString | src/repository.rs:88-89 | the decimal form of a natural number is non-empty, all digits, and has a leading zero only for zero |
| Repository.NatToStringRoundTrip | src/repository.rs:88-89 | reading the decimal digits back gives the number |
| Repository.IntToString | src/repository.rs:88-89 | the timestamp's decimal form starts with `-` exactly when the timestamp is negative |
| Repository.IntToStringRoundTrip | src/repository.rs:88-89 | the timestamp's rendering is a well-formed decimal (an optional minus sign, then digits) that parses back to the timestamp, so it loses nothing |
| Repository.FromCommit | src/repository.rs:54-76 | every field of the snapshot is the engine's value unchanged; an absent header, message, summary, name or email stays absent |
| Repository.FromCommitInjective | src/repository.rs:54-76 | two commits with the same snapshot are the same commit: nothing is lost or defaulted |
| Repository.Describe | src/repository.rs:133-137 | a remote's descriptor carries its name, URL and push URL unchanged |
| Repository.PresentNames | src/repository.rs:113-119 | the kept names are exactly the present ones, and there are no more of them than entries |
| Repository.PresentNamesAppend | src/repository.rs:113-119 | filtering distributes over concatenation, so the kept names keep their order |
| Repository.GetRemoteNames | src/repository.rs:112-121 | fails exactly when enumerating the remotes fails, with that error; otherwise it holds exactly the present names |
| Repository.ResolveRemotes | src/repository.rs:127-139 | one descriptor for each name whose lookup succeeds and none otherwise; a failed lookup is dropped; when every lookup succeeds there is one descriptor per name |
| Repository.ResolveRemotesAppend | src/repository.rs:127-139 | resolving distributes over concatenation, so the descriptors follow name order |
| Repository.GitRepository.FindRemote | src/repository.rs:122-124 | succeeds exactly for a configured remote, and then returns that remote |
| Repository.GitRepository.GetRemotes | src/repository.rs:125-141 | fails exactly when enumerating names fails, with that error; otherwise it holds the descriptor of every present, configured name and nothing else |
| Repository.OkOfKind | src/repository.rs:144-151 | keeps exactly the entries read without error whose kind is the requested one |
| Repository.DecodedNames | src/repository.rs:152-159 | keeps exactly the names that read without error and are present |
| Repository.BranchNames | src/repository.rs:143-161 | a name is listed exactly when the enumeration has an error-free entry of the requested kind with that decoded name |
| Repository.BranchNamesAppend | src/repository.rs:143-161 | both filtering stages distribute over concatenation, so names keep enumeration order |
| Repository.OkOfKindAppend | src/repository.rs:144-151 | the kind filter keeps enumeration order |
| Repository.DecodedNamesAppend | src/repository.rs:152-159 | the name filter keeps enumeration order |
| Repository.GetBranches | src/repository.rs:143-161 | fails exactly when the enumeration fails, with that error; otherwise it lists exactly the decodable names of branches of the requested kind |
| Repository.GetLocalBranches | src/repository.rs:163-165 | lists exactly the decodable names of the local branches; fails exactly when the enumeration fails, with its error |
| Repository.GetRemoteBranches | src/repository.rs:166-168 | lists exactly the decodable names of the remote-tracking branches; fails exactly when the enumeration fails, with its error |
| Repository.HeadsRef | src/repository.rs:183-184 | a branch's full name is `refs/heads/` followed by the branch |
| Repository.HeadsRefInjective | src/repository.rs:183-184 | distinct branches have distinct full names |
| Repository.TrackingRef | src/repository.rs:196-197 | a remote-tracking name is `refs/remotes/`, the remote, `/` and the branch |
| Repository.TrackingRefIsNotHeadsRef | src/repository.rs:181-197 | no remote-tracking name is a local branch's name, so moving one never moves a local branch |
| Repository.LastCommitOf | src/repository.rs:170-179 | succeeds exactly when `refs/heads/<branch>` names a present object, and is then the snapshot of that commit; a missing branch is an error; the snapshot's id is the branch's target |
| Repository.GitRepository.GetLastCommit | src/repository.rs:176-179 | succeeds exactly when the local branch resolves, and is then the snapshot of the commit it points at; a missing branch is an error |
| Repository.CheckoutStep | src/repository.rs:181-186 | succeeds exactly when `refs/heads/<branch>` resolves and writing the tree succeeds; a failed resolution or write is returned and changes nothing; success sets the index and the working tree to the target's tree and moves no reference |
| Repository.GitRepository.Checkout | src/repository.rs:181-186 | the outcome and the new repository state are those of `CheckoutStep` on the old state |
| Repository.FetchedRefs | src/repository.rs:190 | after a transfer only the remote-tracking reference `refs/remotes/<remote>/<branch>` may move; every other reference keeps its target |
| Repository.FetchStep | src/repository.rs:188-191 | succeeds exactly when the remote is configured and the transfer succeeds; an unknown remote or a failed transfer is returned and changes nothing; success never touches the index, the working tree or HEAD; commits stay stored under their own ids |
| Repository.GitRepository.Fetch | src/repository.rs:188-191 | the outcome and the new state are those of `FetchStep` on the old state; commits stay stored under their own ids |
| Repository.PullStep | src/repository.rs:193-200 | a failed fetch is returned with no reset and no change; otherwise it succeeds exactly when `refs/remotes/<remote>/<branch>` resolves after the fetch and the reset succeeds; a missing reference is reported before any reset; a failed pull leaves the index, the working tree and every other reference alone, and one that fails after a successful fetch keeps exactly what the fetch brought; success points HEAD's reference at the tracking target and sets the index and the working tree to its tree |
| Repository.PullDiscardsLocalEdits | src/repository.rs:193-200 | the hard reset discards local edits: states differing only in their index and working tree end up in the same state after the same successful pull |
| Repository.GitRepository.Pull | src/repository.rs:193-200 | the outcome and the new state are those of `PullStep` on the old state, with the fetch performed by `Fetch` first |
| Repository.GitRepository.Open | src/repository.rs:100-104 | the opened repository holds the state found on disk |
| Controller.SendEmpty | src/controller.rs:8-10 | status 200 and an empty body |
| Controller.SendError | src/controller.rs:12-16 | status 500, with the message as the `error` member of the body |
| Controller.SendJsonResponse | src/controller.rs:18-26 | status 200 with the value's serialized text exactly when serializing the value succeeds; otherwise status 500 with the serializer's message |
| Controller.Index | src/controller.rs:28-31 | status 200 with body `alive` |
| Controller.NotFound | src/controller.rs:33-38 | status 404 with an empty body |
| Controller.RespondJson | src/controller.rs:40-70 | the status is only ever 200 or 500; it is 200, with the serialized result as body, exactly when the operation succeeds and its result serializes; an operation error becomes an error response with that error's text |
| Controller.RespondEmpty | src/controller.rs:72-94 | the status is only ever 200 or 500; it is 200 with an empty body exactly when the operation succeeds; an error becomes an error response with its text |
| Controller.Remotes | src/controller.rs:40-46 | 200 exactly when enumerating remotes and serializing the descriptors succeed, with the serialized descriptors as body; a failed enumeration is an error response with its text |
| Controller.LocalBranches | src/controller.rs:48-54 | 200 exactly when enumerating branches and serializing the local names succeed, with the serialized names as body; a failed enumeration is an error response with its text |
| Controller.RemoteBranches | src/controller.rs:56-62 | 200 exactly when enumerating branches and serializing the remote-tracking names succeed, with the serialized names as body; a failed enumeration is an error response with its text |
| Controller.LastCommit | src/controller.rs:64-70 | 200 exactly when the local branch resolves and the snapshot of its commit serializes, with that serialized snapshot as body; a missing branch is an error response |
| Controller.Checkout | src/controller.rs:72-78 | responds with `checkout`'s outcome (empty 200, or 500 with the error) and leaves the state `checkout` leaves |
| Controller.Fetch | src/controller.rs:80-86 | fetches from the remote named `origin`; responds with the outcome and leaves the state `fetch` leaves |
| Controller.Pull | src/controller.rs:88-94 | pulls from the remote named `origin`; responds with the outcome and leaves the state `pull` leaves |
| Router.RunEnd | src/router.rs:11 | the greedy capture stops at the first `/` or `\` or at the end of the path |
| Router.Segment | src/router.rs:11 | a captured segment holds no `/` and no `\` |
| Router.FindMarker | src/router.rs:26-27 | finds the leftmost `/branch/` at or after the start position, and there is none before it |
| Router.FindOperation | src/router.rs:11-12 | finds the leftmost position where `/branch/`, a segment and a `/` occur, and there is none before it |
| Router.StaticRoute | src/router.rs:33-38 | each static route is chosen exactly for GET on its exact path; every other request is not found |
| Router.OperationRoute | src/router.rs:16-20 | exactly `checkout`, `fetch` and `pull` name an operation, on the given branch |
| Router.RouteOf | src/router.rs:9-40 | operation routes carry a non-empty branch; captures hold no separator; a route is branch-scoped exactly when the path contains `/branch/`; a branch-scoped path that does not dispatch an operation is the last commit of the segment after the leftmost `/branch/` |
| Router.RunEndOfSegment | src/router.rs:11 | a run of segment characters that ends at a separator or at the end of the path is exactly the greedy capture |
| Router.CaptureOf | src/router.rs:11 | a segment placed after any prefix and followed by nothing or a separator is exactly the capture taken there |
| Router.MarkerAfter | src/router.rs:11 | `/branch/` placed after any prefix is an occurrence of the marker there |
| Router.LeftmostMarker | src/router.rs:26-27 | an occurrence of `/branch/` with none before it is the one the second pattern matches at |
| Router.LeftmostOperation | src/router.rs:11-12 | a match of the first pattern with no match of it before is the match found |
| Router.NoMarkerEndsInSegment | src/router.rs:11 | no `/branch/` can end inside a run of segment characters, since the marker ends with `/` |
| Router.BranchPathCaptures | src/router.rs:11-15 | in `pre/branch/<b>/<op>` followed by nothing or a separator, the first pattern matches after `pre` with captures `b` and `op` |
| Router.BranchPathMatch | src/router.rs:11-15 | with no earlier `/branch/`, that match is the leftmost match of both patterns |
| Router.RouteAtOperation | src/router.rs:11-29 | once the first pattern matches leftmost, the route depends only on its two captures: an operation on a non-empty branch, else the last commit of the branch |
| Router.OperationDispatch | src/router.rs:11-24 | for every method and path: the route is an operation exactly when the first pattern matches, the branch captured at its leftmost match is not empty and the operation captured there is checkout, fetch or pull; the route is then that operation on that branch |
| Router.OperationPathRoute | src/router.rs:11-24 | for any path `pre/branch/<b>/<op>` followed by nothing or a separator, with no match of the first pattern inside `pre` (an earlier `/branch/` whose capture ends at `\` or at the end is allowed), a non-empty `b` and an operation `op` dispatch that operation on `b` |
| Router.BranchOnlyMatch | src/router.rs:11-28 | in `pre/branch/<b>` with no earlier `/branch/`, the first pattern matches nowhere and the second matches after `pre` with capture `b` |
| Router.RouteWithoutOperation | src/router.rs:26-29 | when the first pattern matches nowhere and `/branch/` occurs, the route is the last commit of the capture after the leftmost `/branch/` |
| Router.BranchPathRoute | src/router.rs:11-29 | for any method and any path `pre/branch/<b>/<op>` followed by nothing or a separator, with no earlier `/branch/`: a non-empty `b` with `op` one of checkout, fetch or pull dispatches that operation on `b`; anything else, including an empty `b`, is the last commit of `b` |
| Router.BranchOnlyRoute | src/router.rs:26-29 | a path ending in `/branch/<b>`, with no earlier `/branch/`, is the last commit of `b`, even when `b` is empty |
| Router.NoMarkerWithoutSlashPair | src/router.rs:26 | a path with no `/` followed seven characters later by another `/` contains no `/branch/` |
| Router.StaticPathsHaveNoMarker | src/router.rs:33-38 | the static paths, `/branches/...` included, contain no `/branch/` |
| Router.StaticRoutes | src/router.rs:33-38 | each static route is chosen exactly for GET on its exact path; not-found is chosen exactly when the path has no `/branch/` and is not a GET of a static path |
| Router.PullExamples | src/router.rs:11-19 | `/branch/main/pull` and `/branch/main/pull/x` both pull `main` |
| Router.UnanchoredExample | src/router.rs:12 | `/api/branch/main/checkout` checks out `main` |
| Router.UnknownOperationExample | src/router.rs:20-29 | `/branch/main/foo` is the last commit of `main` |
| Router.EmptyBranchExamples | src/router.rs:14-29 | `/branch//pull` and `/branch/` are both the last commit of the empty branch name |
| Router.EarlierMarkerExample | src/router.rs:11-29 | `/branch/a/foo/branch/main/pull` is the last commit of `a`: the earlier `/branch/` decides |
| Router.SkippedMarkerExample | src/router.rs:11-24 | `/branch/x\/branch/main/pull` pulls `main`: the earlier `/branch/` does not match the first pattern, so the search goes on |
| Router.LastCommitExample | src/router.rs:26-29 | `/branch/main` is the last commit of `main` |
| Router.HandleRequest | src/router.rs:9-40 | responds with the controller of the chosen route; only checkout, fetch and pull change the repository, each exactly as its step function says; fetch and pull use `origin`; commits stay stored under their own ids |
| Bootstrap.OpenOrClone | src/main.rs:33-42 | opening is always tried first; a successful open is used and no clone is attempted; otherwise the URL is cloned into the same path and that result is used; the server starts exactly when one of the two succeeded; when both fail, the clone's error is returned |

## Left out

- The version-control engine is not modelled. Its results are parameters standing for what each call reports:
  - the remote and branch enumerations;
  - writing a tree (`checkout_tree`);
  - the network transfer of `fetch`;
  - the hard reset.
  The model states only what this layer does with those results.
- Opening and cloning are outcomes given to `Bootstrap.OpenOrClone`. The repository found on disk is the state passed to `GitRepository.Open`. `GitRepository::clone` (src/repository.rs:106-110) has no member of its own, because all it does is call the engine.
- Repository.CheckoutStep: revision syntax (`~`, `^`, `@{...}`) in a branch name is not interpreted. The name `refs/heads/<branch>` is looked up as a plain reference.
- Repository.CheckoutStep: the engine's safe checkout, which keeps local edits that do not conflict, is not modelled. On success the index and the working tree both become the target's tree.
- Repository.CheckoutStep: the model leaves a failed tree write with no effect. The engine may leave it partly applied.
- Repository.PullStep: the model leaves a failed reset with no effect. The engine may leave it partly applied.
- The texts of errors raised by lookups that find nothing (`Missing`) stand in for the engine's own wording. An engine error is modelled as its message text (`GitError.text`).
- Only commit objects are modelled. Annotated tags and other objects are absent, so peeling a reference to a commit (src/repository.rs:173) is a lookup of the referenced commit.
- A remote's descriptor is built from the remote the engine resolves by name. The model takes that remote's own name field as the engine reports it.
- The transfer's effect on other references (`FETCH_HEAD`, tags, other tracking references) is not modelled. Only `refs/remotes/<remote>/<branch>` moves.
- JSON encoding is not modelled. The serializer is a function parameter from the value sent to what serializing it reports, and an error body stands for the JSON object with its `error` member.
- Repository.PullStep: the hard reset makes the working tree the target's tree (`workTree := tree`). A real hard reset leaves untracked files in place, so `PullDiscardsLocalEdits` is about tracked content only.
- The commit timestamp is Rust's `i64`; the model uses an unbounded integer. No arithmetic is done on it, so the width never matters.
- These are transport, configuration and concurrency, not decisions of this layer:
  - the HTTP server and its setup (src/main.rs:44-57);
  - the `Arc<Mutex<...>>` shared repository and its locking;
  - logging;
  - environment configuration and port parsing.
- Repository.GitRepository.Fetch, Repository.GitRepository.Pull and Router.HandleRequest require that commits are stored under their own ids (`Valid()`). The engine guarantees this; it is an invariant of the model, not a demand the source makes of its callers.
- The general regular-expression engine is not modelled. Only the two fixed patterns of src/router.rs:11 and src/router.rs:26 are, by hand.
