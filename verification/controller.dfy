/** The controller of the service (src/controller.rs): each handler calls one
    repository operation and turns its outcome into a response. Success is
    status 200 with an empty body or the value's JSON text; any error is
    status 500 with the JSON object `{"error": <message>}`; an unknown route
    is status 404 with an empty body (sections 15.5.5 and 15.6.1 of RFC 9110).

    JSON encoding is not modelled: `serde_json::to_string` is a function
    parameter `encode` from the value sent to what serializing it reports
    (`Encoded`), and the error object is a body of its own kind. */
module Controller {
  import opened Results
  import opened Repository

  const OK: int := 200
  const NOT_FOUND: int := 404
  const INTERNAL_SERVER_ERROR: int := 500

  /** A response body. `ErrorObject(m)` stands for the JSON text of `{"error": m}`. */
  datatype Body = Empty | Text(text: string) | ErrorObject(error: string)

  datatype Response = Response(status: int, body: Body)

  /** What serializing the value to send reports: its JSON text, or the
      serializer's error message. */
  type Encoded = Result<string, string>

  /** `send_empty`: the default status and no body. */
  function SendEmpty(): (r: Response)
    ensures r.status == OK && r.body == Empty
  {
    Response(OK, Empty)
  }

  /** `send_error`: a server error carrying the message as `{"error": m}`. */
  function SendError(error: string): (r: Response)
    ensures r.status == INTERNAL_SERVER_ERROR && r.body == ErrorObject(error)
  {
    Response(INTERNAL_SERVER_ERROR, ErrorObject(error))
  }

  /** `send_json_response`: the serialized value, or an error response with
      the serializer's message when serializing fails. */
  function SendJsonResponse<T>(value: T, encode: T -> Encoded): (r: Response)
    ensures r.status == OK <==> encode(value).Success?
    ensures encode(value).Success? ==> r.body == Text(encode(value).value)
    ensures encode(value).Failure? ==> r.status == INTERNAL_SERVER_ERROR && r.body == ErrorObject(encode(value).error)
  {
    match encode(value)
    case Success(serialized) => Response(OK, Text(serialized))
    case Failure(e) => SendError(e)
  }

  /** `index`: the liveness answer. */
  function Index(): (r: Response)
    ensures r.status == OK && r.body == Text("alive")
  {
    Response(OK, Text("alive"))
  }

  /** `not_found`. */
  function NotFound(): (r: Response)
    ensures r.status == NOT_FOUND && r.body == Empty
  {
    Response(NOT_FOUND, Empty)
  }

  /** The shape shared by the handlers that send a value: `Ok` becomes the
      value's JSON, `Err(e)` an error response with `e`'s text; nothing else. */
  function RespondJson<T>(outcome: Result<T, GitError>, encode: T -> Encoded): (r: Response)
    ensures r.status == OK || r.status == INTERNAL_SERVER_ERROR
    ensures r.status == OK <==> outcome.Success? && encode(outcome.value).Success?
    ensures r.status == OK ==> r.body == Text(encode(outcome.value).value)
    ensures outcome.Failure? ==> r.body == ErrorObject(outcome.error.text)
    ensures outcome.Success? && encode(outcome.value).Failure? ==> r.body == ErrorObject(encode(outcome.value).error)
  {
    match outcome
    case Success(value) => SendJsonResponse(value, encode)
    case Failure(e) => SendError(e.text)
  }

  /** The shape shared by the mutating handlers: `Ok(())` becomes an empty
      success, `Err(e)` an error response with `e`'s text. */
  function RespondEmpty(outcome: Outcome<GitError>): (r: Response)
    ensures r.status == OK || r.status == INTERNAL_SERVER_ERROR
    ensures r.status == OK <==> outcome.Pass?
    ensures r.status == OK ==> r.body == Empty
    ensures outcome.Fail? ==> r.body == ErrorObject(outcome.error.text)
  {
    match outcome
    case Pass => SendEmpty()
    case Fail(e) => SendError(e.text)
  }

  /** `remotes`. */
  function Remotes(repo: GitRepository, listing: Result<seq<Option<string>>, GitError>, encode: seq<GitRemote> -> Encoded): (r: Response)
    reads repo
    ensures r.status == OK <==> listing.Success? && encode(repo.GetRemotes(listing).value).Success?
    ensures r.status == OK ==> r.body == Text(encode(repo.GetRemotes(listing).value).value)
    ensures listing.Failure? ==> r == SendError(listing.error.text)
  {
    RespondJson(repo.GetRemotes(listing), encode)
  }

  /** `local_branches`. */
  function LocalBranches(listing: Result<seq<Result<EngineBranch, GitError>>, GitError>, encode: seq<string> -> Encoded): (r: Response)
    ensures r.status == OK <==> listing.Success? && encode(GetLocalBranches(listing).value).Success?
    ensures r.status == OK ==> r.body == Text(encode(GetLocalBranches(listing).value).value)
    ensures listing.Failure? ==> r == SendError(listing.error.text)
  {
    RespondJson(GetLocalBranches(listing), encode)
  }

  /** `remote_branches`. */
  function RemoteBranches(listing: Result<seq<Result<EngineBranch, GitError>>, GitError>, encode: seq<string> -> Encoded): (r: Response)
    ensures r.status == OK <==> listing.Success? && encode(GetRemoteBranches(listing).value).Success?
    ensures r.status == OK ==> r.body == Text(encode(GetRemoteBranches(listing).value).value)
    ensures listing.Failure? ==> r == SendError(listing.error.text)
  {
    RespondJson(GetRemoteBranches(listing), encode)
  }

  /** `last_commit`. */
  function LastCommit(repo: GitRepository, branch: string, encode: GitCommit -> Encoded): (r: Response)
    reads repo
    ensures r.status == OK <==>
      Resolves(repo.State(), HeadsRef(branch)) && encode(FromCommit(repo.objects[repo.refs[HeadsRef(branch)]])).Success?
    // the body is the JSON of the snapshot of the commit the branch points at
    ensures r.status == OK ==> r.body == Text(encode(FromCommit(repo.objects[repo.refs[HeadsRef(branch)]])).value)
    ensures HeadsRef(branch) !in repo.refs ==> r == SendError(Missing("branch", branch).text)
  {
    RespondJson(repo.GetLastCommit(branch), encode)
  }

  /** `checkout`. */
  method Checkout(repo: GitRepository, branch: string, treeCheckout: Outcome<GitError>) returns (resp: Response)
    modifies repo
    ensures var step := CheckoutStep(old(repo.State()), branch, treeCheckout);
      resp == RespondEmpty(step.outcome) && repo.State() == step.state
  {
    var outcome := repo.Checkout(branch, treeCheckout);
    resp := RespondEmpty(outcome);
  }

  /** `fetch`: always from the remote named "origin". */
  method Fetch(repo: GitRepository, branch: string, transfer: Result<Transfer, GitError>) returns (resp: Response)
    requires repo.Valid()
    requires transfer.Success? ==> ContentAddressed(transfer.value.objects)
    modifies repo
    ensures repo.Valid()
    ensures var step := FetchStep(old(repo.State()), "origin", branch, transfer);
      resp == RespondEmpty(step.outcome) && repo.State() == step.state
  {
    var outcome := repo.Fetch("origin", branch, transfer);
    resp := RespondEmpty(outcome);
  }

  /** `pull`: always from the remote named "origin". */
  method Pull(repo: GitRepository, branch: string, transfer: Result<Transfer, GitError>, reset: Outcome<GitError>)
    returns (resp: Response)
    requires repo.Valid()
    requires transfer.Success? ==> ContentAddressed(transfer.value.objects)
    modifies repo
    ensures repo.Valid()
    ensures var step := PullStep(old(repo.State()), "origin", branch, transfer, reset);
      resp == RespondEmpty(step.outcome) && repo.State() == step.state
  {
    var outcome := repo.Pull("origin", branch, transfer, reset);
    resp := RespondEmpty(outcome);
  }
}
