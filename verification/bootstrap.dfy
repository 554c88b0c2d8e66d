/** Start-up (src/main.rs:33-42): open the repository at the clone path, and
    clone the configured URL into that path only when opening fails. The
    server is started only with a repository; when the clone fails too, start-up
    fails with the clone's error.

    Opening and cloning are engine calls: their outcomes are parameters, and
    the calls actually made are returned in order. `R` is the repository
    handle the engine hands back. */
module Bootstrap {
  import opened Results
  import opened Repository

  /** An engine call made during start-up. */
  datatype EngineCall = Open(path: string) | Clone(url: string, path: string)

  /** `openResult` and `cloneResult` are what opening the path and cloning the URL into
      it report. Returns the repository start-up goes on with (or the error
      `main` returns), whether the server is started, and the calls made. */
  method OpenOrClone<R>(url: string, clonePath: string, openResult: Result<R, GitError>, cloneResult: Result<R, GitError>)
    returns (repo: Result<R, GitError>, serving: bool, calls: seq<EngineCall>)
    // opening is always attempted first
    ensures |calls| >= 1 && calls[0] == Open(clonePath)
    // an opened repository is used as it is, and nothing is cloned
    ensures openResult.Success? ==> calls == [Open(clonePath)] && repo == openResult
    // otherwise the URL is cloned into the same path, and that is the result
    ensures openResult.Failure? ==> calls == [Open(clonePath), Clone(url, clonePath)] && repo == cloneResult
    // the server starts exactly when one of the two succeeded; if both failed, the clone's error is returned
    ensures serving <==> repo.Success?
    ensures serving <==> openResult.Success? || cloneResult.Success?
    ensures !serving ==> repo == Failure(cloneResult.error)
  {
    calls := [Open(clonePath)];
    repo := openResult;
    if repo.Failure? {
      calls := calls + [Clone(url, clonePath)];
      repo := cloneResult;
    }
    serving := repo.Success?;
  }
}
