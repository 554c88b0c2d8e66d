/** Request dispatch (src/router.rs): from a method and a path to one of nine
    routes, then to the controller.

    The source searches the path, unanchored, for two regular expressions,
    `/branch/([^\\/]*)/([^\\/]*)` and then `/branch/([^\\/]*)`, and falls back to
    exact static routes. No regular-expression engine is modelled; the two
    fixed patterns are matched by hand, with the leftmost-first, greedy
    semantics of the source's engine:
    - a capture is the longest run of characters other than `/` and `\` that
      starts where the capture starts;
    - the second pattern matches at the leftmost occurrence of `/branch/`;
    - the first pattern matches at the leftmost occurrence of `/branch/` whose
      branch run is followed by `/`. That need not be the leftmost occurrence
      of `/branch/`: when the run after an earlier occurrence ends at `\` or at
      the end of the path, the search goes on to later occurrences. */
module Router {
  import opened Results
  import opened Repository
  import Controller

  /** The request method. */
  datatype Method = Get | Post | Put | Delete | Head | Options | Connect | Patch | Trace | Extension(name: string)

  /** The nine routes. */
  datatype Route =
    | Index
    | Remotes
    | LocalBranches
    | RemoteBranches
    | LastCommit(branch: string)
    | Checkout(branch: string)
    | Fetch(branch: string)
    | Pull(branch: string)
    | NotFound
  {
    /** The routes that change the repository. */
    predicate IsOperation()
    {
      Checkout? || Fetch? || Pull?
    }
  }

  const Marker: string := "/branch/"

  /** A character a captured segment may hold. */
  predicate IsSegmentChar(c: char)
  {
    c != '/' && c != '\\'
  }

  predicate IsSegment(s: string)
  {
    forall i :: 0 <= i < |s| ==> IsSegmentChar(s[i])
  }

  /** `/branch/` occurs in `path` at `p`. */
  predicate MarkerAt(path: string, p: nat)
  {
    p + |Marker| <= |path| && path[p..p + |Marker|] == Marker
  }

  /** The end of the longest segment run of `path` that starts at `i`. */
  function RunEnd(path: string, i: nat): (j: nat)
    requires i <= |path|
    ensures i <= j <= |path|
    ensures forall k :: i <= k < j ==> IsSegmentChar(path[k])
    ensures j < |path| ==> !IsSegmentChar(path[j])
    decreases |path| - i
  {
    if i < |path| && IsSegmentChar(path[i]) then RunEnd(path, i + 1) else i
  }

  /** The greedy capture `([^\\/]*)` starting at `i`. */
  function Segment(path: string, i: nat): (s: string)
    requires i <= |path|
    ensures IsSegment(s)
  {
    path[i..RunEnd(path, i)]
  }

  /** The leftmost occurrence of `/branch/` at or after `from`. */
  function FindMarker(path: string, from: nat): (r: Option<nat>)
    requires from <= |path|
    ensures r.Some? ==> from <= r.value && MarkerAt(path, r.value)
    ensures forall q :: from <= q && (r.None? || q < r.value) ==> !MarkerAt(path, q)
    decreases |path| - from
  {
    if from + |Marker| > |path| then None
    else if MarkerAt(path, from) then Some(from)
    else FindMarker(path, from + 1)
  }

  /** The first pattern matches at `p`: `/branch/` there, and its branch run
      followed by `/`. */
  predicate OperationAt(path: string, p: nat)
  {
    && MarkerAt(path, p)
    && RunEnd(path, p + |Marker|) < |path|
    && path[RunEnd(path, p + |Marker|)] == '/'
  }

  /** The leftmost position at or after `from` where the first pattern matches. */
  function FindOperation(path: string, from: nat): (r: Option<nat>)
    requires from <= |path|
    ensures r.Some? ==> from <= r.value && OperationAt(path, r.value)
    ensures forall q :: from <= q && (r.None? || q < r.value) ==> !OperationAt(path, q)
    decreases |path| - from
  {
    match FindMarker(path, from)
    case None => None
    case Some(p) => if OperationAt(path, p) then Some(p) else FindOperation(path, p + 1)
  }

  /** The first capture of the first pattern matched at `p`. */
  function BranchCapture(path: string, p: nat): string
    requires MarkerAt(path, p)
  {
    Segment(path, p + |Marker|)
  }

  /** The second capture of the first pattern matched at `p`. */
  function OperationCapture(path: string, p: nat): string
    requires OperationAt(path, p)
  {
    Segment(path, RunEnd(path, p + |Marker|) + 1)
  }

  /** The operation a segment names, if any. */
  function OperationRoute(operation: string, branch: string): (r: Option<Route>)
    ensures r.Some? <==> operation == "checkout" || operation == "fetch" || operation == "pull"
    ensures r.Some? ==> r.value.IsOperation() && r.value.branch == branch
  {
    if operation == "checkout" then Some(Checkout(branch))
    else if operation == "fetch" then Some(Fetch(branch))
    else if operation == "pull" then Some(Pull(branch))
    else None
  }

  /** The exact-match routes, reached only when no `/branch/` occurs. */
  function StaticRoute(m: Method, path: string): (r: Route)
    ensures r == Index <==> m == Get && path == "/"
    ensures r == Remotes <==> m == Get && path == "/remotes"
    ensures r == LocalBranches <==> m == Get && path == "/branches/local"
    ensures r == RemoteBranches <==> m == Get && path == "/branches/remote"
    ensures r.Index? || r.Remotes? || r.LocalBranches? || r.RemoteBranches? || r.NotFound?
  {
    if m == Get && path == "/" then Index
    else if m == Get && path == "/remotes" then Remotes
    else if m == Get && path == "/branches/local" then LocalBranches
    else if m == Get && path == "/branches/remote" then RemoteBranches
    else NotFound
  }

  /** `handle_request`'s choice of route. */
  function RouteOf(m: Method, path: string): (r: Route)
    // an operation route names a non-empty branch, and captures hold no separator
    ensures r.IsOperation() ==> r.branch != "" && IsSegment(r.branch)
    ensures r.LastCommit? ==> IsSegment(r.branch)
    // the branch-scoped routes are exactly those of paths containing `/branch/`
    ensures (r.IsOperation() || r.LastCommit?) <==> exists q :: MarkerAt(path, q)
    ensures (exists q :: MarkerAt(path, q)) && !r.IsOperation() ==>
      r == LastCommit(Segment(path, FindMarker(path, 0).value + |Marker|))
  {
    var op := FindOperation(path, 0);
    var dispatched :=
      if op.Some? && BranchCapture(path, op.value) != ""
      then OperationRoute(OperationCapture(path, op.value), BranchCapture(path, op.value))
      else None;
    if dispatched.Some? then
      assert MarkerAt(path, op.value);
      dispatched.value
    else
      match FindMarker(path, 0)
      case Some(p) => LastCommit(Segment(path, p + |Marker|))
      case None => StaticRoute(m, path)
  }

  // ---------------------------------------------------------------------------
  // Lemmas about dispatch
  // ---------------------------------------------------------------------------

  /** A run of segment characters ended by a separator or the end of the path
      is exactly what the greedy capture takes. */
  lemma {:induction false} RunEndOfSegment(path: string, i: nat, j: nat)
    requires i <= j <= |path|
    requires forall k :: i <= k < j ==> IsSegmentChar(path[k])
    requires j == |path| || !IsSegmentChar(path[j])
    ensures RunEnd(path, i) == j
    decreases j - i
  {
    if i < j {
      RunEndOfSegment(path, i + 1, j);
    }
  }

  /** A segment `s` placed after `pre` and followed by nothing or a separator
      is exactly the capture that starts after `pre`. */
  lemma CaptureOf(path: string, pre: string, s: string, post: string)
    requires path == pre + s + post
    requires IsSegment(s)
    requires post == [] || !IsSegmentChar(post[0])
    ensures RunEnd(path, |pre|) == |pre| + |s|
    ensures Segment(path, |pre|) == s
  {
    forall k | |pre| <= k < |pre| + |s| ensures IsSegmentChar(path[k]) {
      assert path[k] == s[k - |pre|];
    }
    assert |pre| + |s| == |path| || path[|pre| + |s|] == post[0];
    RunEndOfSegment(path, |pre|, |pre| + |s|);
    assert path[|pre|..|pre| + |s|] == s;
  }

  /** `/branch/` occurs right after `pre`. */
  lemma MarkerAfter(pre: string, tail: string)
    ensures MarkerAt(pre + Marker + tail, |pre|)
  {
    assert (pre + Marker + tail)[|pre|..|pre| + |Marker|] == Marker;
  }

  /** An occurrence of `/branch/` with none before it is the one found. */
  lemma LeftmostMarker(path: string, p: nat)
    requires MarkerAt(path, p)
    requires forall q: nat :: q < p ==> !MarkerAt(path, q)
    ensures FindMarker(path, 0) == Some(p)
  {
  }

  /** A match of the first pattern with no match before it is the match found. */
  lemma LeftmostOperation(path: string, p: nat)
    requires OperationAt(path, p)
    requires forall q: nat :: q < p ==> !OperationAt(path, q)
    ensures FindOperation(path, 0) == Some(p)
  {
  }

  /** No `/branch/` ends inside a run of segment characters that reaches the
      end of the path. */
  lemma NoMarkerEndsInSegment(path: string, start: nat)
    requires forall k :: start <= k < |path| ==> IsSegmentChar(path[k])
    ensures forall q: nat :: start <= q + 7 ==> !MarkerAt(path, q)
  {
    forall q: nat | start <= q + 7 ensures !MarkerAt(path, q) {
      if q + |Marker| <= |path| {
        assert path[q..q + |Marker|][7] == path[q + 7];
      }
    }
  }

  /** Once the first pattern is known to match at `p`, leftmost, and no
      `/branch/` comes earlier, the route depends only on the two captures. */
  lemma RouteAtOperation(m: Method, path: string, p: nat, b: string, op: string)
    requires OperationAt(path, p)
    requires FindOperation(path, 0) == Some(p) && FindMarker(path, 0) == Some(p)
    requires BranchCapture(path, p) == b && OperationCapture(path, p) == op
    ensures RouteOf(m, path) == if b != "" && OperationRoute(op, b).Some? then OperationRoute(op, b).value else LastCommit(b)
  {
  }

  /** When the first pattern matches nowhere, the route is the last commit of
      the capture after the leftmost `/branch/`. */
  lemma RouteWithoutOperation(m: Method, path: string, p: nat, b: string)
    requires FindOperation(path, 0).None? && FindMarker(path, 0) == Some(p)
    requires MarkerAt(path, p) && BranchCapture(path, p) == b
    ensures RouteOf(m, path) == LastCommit(b)
  {
  }

  /** The general dispatch rule: a request is an operation exactly when the
      first pattern matches somewhere, the branch it captures at its leftmost
      match is not empty and the operation it captures there is `checkout`,
      `fetch` or `pull`; the route is then that operation on that branch,
      whatever the method. */
  lemma OperationDispatch(m: Method, path: string)
    ensures var p := FindOperation(path, 0);
      RouteOf(m, path).IsOperation() <==>
        && p.Some?
        && BranchCapture(path, p.value) != ""
        && OperationRoute(OperationCapture(path, p.value), BranchCapture(path, p.value)).Some?
    ensures var p := FindOperation(path, 0);
      RouteOf(m, path).IsOperation() ==>
        RouteOf(m, path) == OperationRoute(OperationCapture(path, p.value), BranchCapture(path, p.value)).value
  {
  }

  /** The captures of the first pattern at the end of `pre`, in
      `pre + "/branch/" + b + "/" + op + rest`, are `b` and `op`. */
  lemma BranchPathCaptures(pre: string, b: string, op: string, rest: string)
    requires IsSegment(b) && IsSegment(op)
    requires rest == [] || !IsSegmentChar(rest[0])
    ensures var path := pre + Marker + b + "/" + op + rest;
      && OperationAt(path, |pre|)
      && BranchCapture(path, |pre|) == b && OperationCapture(path, |pre|) == op
  {
    var path := pre + Marker + b + "/" + op + rest;
    var head := pre + Marker;
    var mid := head + b + "/";
    assert path == pre + Marker + (b + "/" + op + rest);
    MarkerAfter(pre, b + "/" + op + rest);
    assert path == head + b + ("/" + op + rest);
    CaptureOf(path, head, b, "/" + op + rest);
    assert path == mid + op + rest;
    CaptureOf(path, mid, op, rest);
    assert |head| == |pre| + |Marker| && |mid| == |head| + |b| + 1;
    assert path[|head| + |b|] == '/';
  }


  /** How the two patterns match `pre + "/branch/" + b + "/" + op + rest` when
      no `/branch/` starts inside `pre`: the first pattern matches at the end of
      `pre`, leftmost, with captures `b` and `op`, and that is also the
      leftmost `/branch/`. */
  lemma BranchPathMatch(pre: string, b: string, op: string, rest: string)
    requires IsSegment(b) && IsSegment(op)
    requires rest == [] || !IsSegmentChar(rest[0])
    requires forall q: nat :: q < |pre| ==> !MarkerAt(pre + Marker + b + "/" + op + rest, q)
    ensures var path := pre + Marker + b + "/" + op + rest;
      && OperationAt(path, |pre|)
      && FindOperation(path, 0) == Some(|pre|) && FindMarker(path, 0) == Some(|pre|)
      && BranchCapture(path, |pre|) == b && OperationCapture(path, |pre|) == op
  {
    var path := pre + Marker + b + "/" + op + rest;
    BranchPathCaptures(pre, b, op, rest);
    LeftmostOperation(path, |pre|);
    LeftmostMarker(path, |pre|);
  }

  /** The main dispatch property. For a path
      `pre + "/branch/" + b + "/" + op + rest`, where `b` and `op` hold no
      separator, `rest` is empty or starts with one, and no `/branch/` starts
      inside `pre`: whatever the method, a non-empty `b` and an operation name
      dispatch that operation on `b`, and anything else is the last commit of
      `b`. Text before the marker (the search is unanchored) and segments after
      the operation do not matter. */
  lemma BranchPathRoute(m: Method, pre: string, b: string, op: string, rest: string)
    requires IsSegment(b) && IsSegment(op)
    requires rest == [] || !IsSegmentChar(rest[0])
    requires forall q: nat :: q < |pre| ==> !MarkerAt(pre + Marker + b + "/" + op + rest, q)
    ensures var path := pre + Marker + b + "/" + op + rest;
      RouteOf(m, path)
        == if b != "" && OperationRoute(op, b).Some? then OperationRoute(op, b).value else LastCommit(b)
  {
    BranchPathMatch(pre, b, op, rest);
    RouteAtOperation(m, pre + Marker + b + "/" + op + rest, |pre|, b, op);
  }

  /** An operation path needs no condition on earlier `/branch/`: for a path
      `pre + "/branch/" + b + "/" + op + rest` as in `BranchPathRoute`, where
      the first pattern matches nowhere inside `pre`, a non-empty `b` and an
      operation name dispatch that operation on `b`. */
  lemma OperationPathRoute(m: Method, pre: string, b: string, op: string, rest: string)
    requires IsSegment(b) && IsSegment(op)
    requires rest == [] || !IsSegmentChar(rest[0])
    requires b != "" && OperationRoute(op, b).Some?
    requires forall q: nat :: q < |pre| ==> !OperationAt(pre + Marker + b + "/" + op + rest, q)
    ensures RouteOf(m, pre + Marker + b + "/" + op + rest) == OperationRoute(op, b).value
  {
    var path := pre + Marker + b + "/" + op + rest;
    BranchPathCaptures(pre, b, op, rest);
    LeftmostOperation(path, |pre|);
    OperationDispatch(m, path);
  }

  /** How the patterns match `pre + "/branch/" + b`: the first pattern matches
      nowhere, and the leftmost `/branch/` is the one after `pre`, with capture `b`. */
  lemma BranchOnlyMatch(pre: string, b: string)
    requires IsSegment(b)
    requires forall q: nat :: q < |pre| ==> !MarkerAt(pre + Marker + b, q)
    ensures var path := pre + Marker + b;
      && MarkerAt(path, |pre|) && BranchCapture(path, |pre|) == b
      && FindOperation(path, 0).None? && FindMarker(path, 0) == Some(|pre|)
  {
    var path := pre + Marker + b;
    var p := |pre|;
    MarkerAfter(pre, b);
    CaptureOf(path, pre + Marker, b, []);
    LeftmostMarker(path, p);
    forall k | p + |Marker| <= k < |path| ensures IsSegmentChar(path[k]) {
      assert path[k] == b[k - p - |Marker|];
    }
    NoMarkerEndsInSegment(path, p + |Marker|);
    assert !OperationAt(path, p);
    assert forall q: nat :: !OperationAt(path, q);
  }

  /** A path that ends with `/branch/` and a segment, with no earlier
      `/branch/`, is the last commit of that segment (e.g. `/branch/` is the
      last commit of the empty branch name). */
  lemma BranchOnlyRoute(m: Method, pre: string, b: string)
    requires IsSegment(b)
    requires forall q: nat :: q < |pre| ==> !MarkerAt(pre + Marker + b, q)
    ensures RouteOf(m, pre + Marker + b) == LastCommit(b)
  {
    BranchOnlyMatch(pre, b);
    RouteWithoutOperation(m, pre + Marker + b, |pre|, b);
  }

  /** A path in which no `/` is followed, seven characters later, by another
      `/` holds no `/branch/`. */
  lemma NoMarkerWithoutSlashPair(path: string)
    requires forall q :: 0 <= q && q + 7 < |path| && path[q] == '/' ==> path[q + 7] != '/'
    ensures forall q: nat :: !MarkerAt(path, q)
  {
    forall q: nat ensures !MarkerAt(path, q) {
      if q + |Marker| <= |path| {
        assert path[q..q + |Marker|][0] == path[q];
        assert path[q..q + |Marker|][7] == path[q + 7];
      }
    }
  }

  /** No `/branch/` occurs in the paths of the static routes. */
  lemma StaticPathsHaveNoMarker(path: string)
    requires path == "/" || path == "/remotes" || path == "/branches/local" || path == "/branches/remote"
    ensures forall q: nat :: !MarkerAt(path, q)
  {
    forall q | 0 <= q && q + 7 < |path| && path[q] == '/' ensures path[q + 7] != '/' {
      if path == "/branches/local" || path == "/branches/remote" {
        assert q == 0 || q == 9;
      }
    }
    NoMarkerWithoutSlashPair(path);
  }

  /** The static routes require GET and the exact path; every other path
      without `/branch/` is not found. */
  lemma StaticRoutes(m: Method, path: string)
    ensures RouteOf(m, path) == Index <==> m == Get && path == "/"
    ensures RouteOf(m, path) == Remotes <==> m == Get && path == "/remotes"
    ensures RouteOf(m, path) == LocalBranches <==> m == Get && path == "/branches/local"
    ensures RouteOf(m, path) == RemoteBranches <==> m == Get && path == "/branches/remote"
    ensures RouteOf(m, path) == NotFound <==>
      && (forall q :: !MarkerAt(path, q))
      && !(m == Get && (path == "/" || path == "/remotes" || path == "/branches/local" || path == "/branches/remote"))
  {
    if path == "/" || path == "/remotes" || path == "/branches/local" || path == "/branches/remote" {
      StaticPathsHaveNoMarker(path);
    }
  }

  /** `/branch/main/pull` and `/branch/main/pull/x` pull `main`. */
  lemma PullExamples(m: Method)
    ensures RouteOf(m, "/branch/main/pull") == Pull("main")
    ensures RouteOf(m, "/branch/main/pull/x") == Pull("main")
  {
    assert "/branch/main/pull" == "" + Marker + "main" + "/" + "pull" + "";
    assert "/branch/main/pull/x" == "" + Marker + "main" + "/" + "pull" + "/x";
    assert IsSegment("main") by { assert "main" == ['m', 'a', 'i', 'n']; }
    assert IsSegment("pull") by { assert "pull" == ['p', 'u', 'l', 'l']; }
    BranchPathRoute(m, "", "main", "pull", "");
    BranchPathRoute(m, "", "main", "pull", "/x");
  }

  /** Text before `/branch/` does not prevent a match. */
  lemma UnanchoredExample(m: Method)
    ensures RouteOf(m, "/api/branch/main/checkout") == Checkout("main")
  {
    var path := "/api/branch/main/checkout";
    assert path == "/api" + Marker + "main" + "/" + "checkout" + "";
    forall q: nat | q < 4 ensures !MarkerAt(path, q) {
      assert path[q + 7] != '/';
    }
    assert IsSegment("main") by { assert "main" == ['m', 'a', 'i', 'n']; }
    assert IsSegment("checkout") by { assert "checkout" == ['c', 'h', 'e', 'c', 'k', 'o', 'u', 't']; }
    BranchPathRoute(m, "/api", "main", "checkout", "");
  }

  /** An unknown operation is the last commit of the branch. */
  lemma UnknownOperationExample(m: Method)
    ensures RouteOf(m, "/branch/main/foo") == LastCommit("main")
  {
    assert "/branch/main/foo" == "" + Marker + "main" + "/" + "foo" + "";
    assert IsSegment("main") by { assert "main" == ['m', 'a', 'i', 'n']; }
    assert IsSegment("foo") by { assert "foo" == ['f', 'o', 'o']; }
    BranchPathRoute(m, "", "main", "foo", "");
  }

  /** An empty branch name is the last commit of the empty name, even before an operation. */
  lemma EmptyBranchExamples(m: Method)
    ensures RouteOf(m, "/branch//pull") == LastCommit("")
    ensures RouteOf(m, "/branch/") == LastCommit("")
  {
    assert "/branch//pull" == "" + Marker + "" + "/" + "pull" + "";
    assert "/branch/" == "" + Marker + "";
    assert IsSegment("pull") by { assert "pull" == ['p', 'u', 'l', 'l']; }
    BranchPathRoute(m, "", "", "pull", "");
    BranchOnlyRoute(m, "", "");
  }

  /** An earlier `/branch/` whose branch run is followed by `/` decides the
      route, even when a later `/branch/` names an operation. */
  lemma EarlierMarkerExample(m: Method)
    ensures RouteOf(m, "/branch/a/foo/branch/main/pull") == LastCommit("a")
  {
    assert "/branch/a/foo/branch/main/pull" == "" + Marker + "a" + "/" + "foo" + "/branch/main/pull";
    assert IsSegment("a") by { assert "a" == ['a']; }
    assert IsSegment("foo") by { assert "foo" == ['f', 'o', 'o']; }
    BranchPathRoute(m, "", "a", "foo", "/branch/main/pull");
  }

  /** An earlier `/branch/` whose branch run ends at `\` does not match the
      first pattern, so a later operation path is dispatched. */
  lemma SkippedMarkerExample(m: Method)
    ensures RouteOf(m, "/branch/x\\/branch/main/pull") == Pull("main")
  {
    var path := "/branch/x\\/branch/main/pull";
    var pre := "/branch/x\\";
    assert path == pre + Marker + "main" + "/" + "pull" + "";
    RunEndOfSegment(path, 8, 9);
    assert !OperationAt(path, 0);
    forall q: nat | 0 < q < |pre| ensures !MarkerAt(path, q) {
      assert path[q..q + |Marker|][0] == path[q] && path[q..q + |Marker|][7] == path[q + 7];
      assert path[q] != '/' || path[q + 7] != '/';
    }
    assert IsSegment("main") by { assert "main" == ['m', 'a', 'i', 'n']; }
    assert IsSegment("pull") by { assert "pull" == ['p', 'u', 'l', 'l']; }
    OperationPathRoute(m, pre, "main", "pull", "");
  }

  /** `/branch/main` is the last commit of `main`. */
  lemma LastCommitExample(m: Method)
    ensures RouteOf(m, "/branch/main") == LastCommit("main")
  {
    assert "/branch/main" == "" + Marker + "main";
    assert IsSegment("main") by { assert "main" == ['m', 'a', 'i', 'n']; }
    BranchOnlyRoute(m, "", "main");
  }

  // ---------------------------------------------------------------------------
  // handle_request
  // ---------------------------------------------------------------------------

  /** What the engine and the serializer report during one request. Which of
      them a request consults depends on its route. */
  datatype EngineAnswers = EngineAnswers(
    remoteNames: Result<seq<Option<string>>, GitError>,
    branches: Result<seq<Result<EngineBranch, GitError>>, GitError>,
    encodeRemotes: seq<GitRemote> -> Controller.Encoded,
    encodeNames: seq<string> -> Controller.Encoded,
    encodeCommit: GitCommit -> Controller.Encoded,
    treeCheckout: Outcome<GitError>,
    transfer: Result<Transfer, GitError>,
    reset: Outcome<GitError>)

  /** `handle_request`: route, then call the route's controller. Only the
      operation routes change the repository. */
  method HandleRequest(m: Method, path: string, repo: GitRepository, engine: EngineAnswers)
    returns (resp: Controller.Response)
    requires repo.Valid()
    requires engine.transfer.Success? ==> ContentAddressed(engine.transfer.value.objects)
    modifies repo
    ensures repo.Valid()
    ensures !RouteOf(m, path).IsOperation() ==> repo.State() == old(repo.State())
    ensures match RouteOf(m, path)
      case Index => resp == Controller.Index()
      case NotFound => resp == Controller.NotFound()
      case Remotes => resp == Controller.Remotes(repo, engine.remoteNames, engine.encodeRemotes)
      case LocalBranches => resp == Controller.LocalBranches(engine.branches, engine.encodeNames)
      case RemoteBranches => resp == Controller.RemoteBranches(engine.branches, engine.encodeNames)
      case LastCommit(b) => resp == Controller.LastCommit(repo, b, engine.encodeCommit)
      case Checkout(b) =>
        var step := CheckoutStep(old(repo.State()), b, engine.treeCheckout);
        resp == Controller.RespondEmpty(step.outcome) && repo.State() == step.state
      case Fetch(b) =>
        var step := FetchStep(old(repo.State()), "origin", b, engine.transfer);
        resp == Controller.RespondEmpty(step.outcome) && repo.State() == step.state
      case Pull(b) =>
        var step := PullStep(old(repo.State()), "origin", b, engine.transfer, engine.reset);
        resp == Controller.RespondEmpty(step.outcome) && repo.State() == step.state
  {
    var route := RouteOf(m, path);
    match route
    case Checkout(b) => resp := Controller.Checkout(repo, b, engine.treeCheckout);
    case Fetch(b) => resp := Controller.Fetch(repo, b, engine.transfer);
    case Pull(b) => resp := Controller.Pull(repo, b, engine.transfer, engine.reset);
    case LastCommit(b) => resp := Controller.LastCommit(repo, b, engine.encodeCommit);
    case Index => resp := Controller.Index();
    case Remotes => resp := Controller.Remotes(repo, engine.remoteNames, engine.encodeRemotes);
    case LocalBranches => resp := Controller.LocalBranches(engine.branches, engine.encodeNames);
    case RemoteBranches => resp := Controller.RemoteBranches(engine.branches, engine.encodeNames);
    case NotFound => resp := Controller.NotFound();
  }
}
