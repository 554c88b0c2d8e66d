/** The repository facade of the service (src/repository.rs): the descriptor
    records handed to the transport, their text renderings, the listing
    pipelines that keep the entries that translate and drop the rest, and the
    three mutating operations (checkout, fetch, pull) over an abstract engine.

    The version-control engine itself is not modelled. Its state is a value
    (`RepoState`: references, commit objects, configured remotes, the reference
    HEAD follows, the index and the working tree, each tree given by its id),
    and every engine call whose result this layer cannot compute from that
    state (enumerations, the network transfer, writing the tree) is a
    parameter holding the call's outcome. */
module Repository {
  import opened Results
  import opened Formatting

  /** An error reported by the engine; `text` is what its `Display` prints. */
  datatype GitError = GitError(text: string)

  /** An object id as the engine renders it: a hexadecimal content hash. */
  type Oid = string

  /** The error of a lookup that finds nothing. The engine's own wording is not
      part of this model: this text stands in for it. */
  function Missing(kind: string, name: string): GitError
  {
    GitError(kind + " '" + name + "' not found")
  }

  // ---------------------------------------------------------------------------
  // Descriptor records
  // ---------------------------------------------------------------------------

  /** One configured remote. A field is `None` when the engine has no value for
      it or the value is not valid UTF-8. */
  datatype GitRemote = GitRemote(name: Option<string>, url: Option<string>, pushUrl: Option<string>)

  /** The author or committer identity of a commit. */
  datatype Contributor = Contributor(name: Option<string>, email: Option<string>)

  /** A snapshot of one commit. */
  datatype GitCommit = GitCommit(
    id: string,
    treeId: string,
    message: Option<string>,
    header: Option<string>,
    summary: Option<string>,
    timestamp: int,
    author: Contributor,
    committer: Contributor)

  /** An identity as the engine reports it on a commit. */
  datatype Signature = Signature(name: Option<string>, email: Option<string>)

  /** A commit object as the engine holds it; the optional parts are `None`
      where the engine reports nothing (absent or not valid UTF-8). */
  datatype EngineCommit = EngineCommit(
    id: Oid,
    treeId: Oid,
    seconds: int,
    rawHeader: Option<string>,
    message: Option<string>,
    summary: Option<string>,
    author: Signature,
    committer: Signature)

  /** A remote object as the engine resolves it by name. */
  datatype EngineRemote = EngineRemote(name: Option<string>, url: Option<string>, pushUrl: Option<string>)

  // ---------------------------------------------------------------------------
  // Text renderings
  // ---------------------------------------------------------------------------

  /** The text of an optional field: its value, or the empty string. */
  function SomeOrEmpty(val: Option<string>): (r: string)
    ensures val.Some? ==> r == val.value
    ensures r == "" <==> val == None || val == Some("")
  {
    match val
    case Some(v) => v
    case None => ""
  }

  /** The `Debug` rendering of a remote: `{ name=N, url=U, push_url=P }`. */
  function RemoteDebug(remote: GitRemote): (s: string)
    ensures
      var name, url, pushUrl := SomeOrEmpty(remote.name), SomeOrEmpty(remote.url), SomeOrEmpty(remote.pushUrl);
      var n, u := |name|, |url|;
      && |s| == 26 + n + u + |pushUrl|
      && s[..7] == "{ name=" && s[7..7 + n] == name
      && s[7 + n..13 + n] == ", url=" && s[13 + n..13 + n + u] == url
      && s[13 + n + u..24 + n + u] == ", push_url=" && s[24 + n + u..|s| - 2] == pushUrl
      && s[|s| - 2..] == " }"
  {
    var name := SomeOrEmpty(remote.name);
    var url := SomeOrEmpty(remote.url);
    var pushUrl := SomeOrEmpty(remote.pushUrl);
    "{ name=" + name + ", url=" + url + ", push_url=" + pushUrl + " }"
  }

  /** The rendering of a remote cannot tell an absent field from an empty one. */
  lemma RemoteDebugAbsentIsEmpty(remote: GitRemote)
    ensures RemoteDebug(remote)
         == RemoteDebug(GitRemote(Some(SomeOrEmpty(remote.name)), Some(SomeOrEmpty(remote.url)), Some(SomeOrEmpty(remote.pushUrl))))
  {
  }

  /** The `Display` rendering of a contributor: `{ name=N, email=E }`. */
  function ContributorDisplay(who: Contributor): (s: string)
    ensures
      var name, email := SomeOrEmpty(who.name), SomeOrEmpty(who.email);
      var n := |name|;
      && |s| == 17 + n + |email|
      && s[..7] == "{ name=" && s[7..7 + n] == name
      && s[7 + n..15 + n] == ", email=" && s[15 + n..|s| - 2] == email
      && s[|s| - 2..] == " }"
  {
    var name := SomeOrEmpty(who.name);
    var email := SomeOrEmpty(who.email);
    "{ name=" + name + ", email=" + email + " }"
  }

  /** The rendering of a contributor cannot tell an absent field from an empty one. */
  lemma ContributorDisplayAbsentIsEmpty(who: Contributor)
    ensures ContributorDisplay(who) == ContributorDisplay(Contributor(Some(SomeOrEmpty(who.name)), Some(SomeOrEmpty(who.email))))
  {
  }

  /** `s` lays out a commit's fields in the order `Debug` prints them: each
      `, <field>=` separator at the offset the earlier fields leave it, then
      the field's text, and a closing ` }`. */
  predicate CommitLayout(s: string, id: string, treeId: string, timestamp: string, header: string,
                         message: string, summary: string, author: string, committer: string)
  {
    var i := CommitOffsets([id, treeId, timestamp, header, message, summary, author]);
    && CommitFront(s, id, treeId, timestamp, i.0, i.1, i.2)
    && CommitMiddle(s, header, message, summary, i.2, i.3, i.4, i.5)
    && CommitBack(s, author, committer, i.5, i.6)
  }

  /** Where each `, <field>=` separator of the commit rendering starts, after
      the fields before it. */
  function CommitOffsets(fields: seq<string>): (i: (nat, nat, nat, nat, nat, nat, nat))
    requires |fields| >= 7
    ensures i.0 == 5 + |fields[0]|
    ensures i.1 == i.0 + 10 + |fields[1]| && i.2 == i.1 + 12 + |fields[2]| && i.3 == i.2 + 9 + |fields[3]|
    ensures i.4 == i.3 + 10 + |fields[4]| && i.5 == i.4 + 10 + |fields[5]| && i.6 == i.5 + 9 + |fields[6]|
  {
    var i1 := 5 + |fields[0]|;
    var i2 := i1 + 10 + |fields[1]|;
    var i3 := i2 + 12 + |fields[2]|;
    var i4 := i3 + 9 + |fields[3]|;
    var i5 := i4 + 10 + |fields[4]|;
    var i6 := i5 + 10 + |fields[5]|;
    (i1, i2, i3, i4, i5, i6, i6 + 9 + |fields[6]|)
  }

  /** The id, tree id and timestamp, with their separators starting at `0`, `i1` and `i2`. */
  predicate CommitFront(s: string, id: string, treeId: string, timestamp: string, i1: nat, i2: nat, i3: nat)
  {
    && i3 <= |s|
    && 5 <= i1 && i1 + 10 <= i2 && i2 + 12 <= i3
    && s[..5] == "{ id=" && s[5..i1] == id
    && s[i1..i1 + 10] == ", tree_id=" && s[i1 + 10..i2] == treeId
    && s[i2..i2 + 12] == ", timestamp=" && s[i2 + 12..i3] == timestamp
  }

  /** The header, message and summary, with their separators starting at `i3`, `i4` and `i5`. */
  predicate CommitMiddle(s: string, header: string, message: string, summary: string, i3: nat, i4: nat, i5: nat, i6: nat)
  {
    && i6 <= |s|
    && i3 + 9 <= i4 && i4 + 10 <= i5 && i5 + 10 <= i6
    && s[i3..i3 + 9] == ", header=" && s[i3 + 9..i4] == header
    && s[i4..i4 + 10] == ", message=" && s[i4 + 10..i5] == message
    && s[i5..i5 + 10] == ", summary=" && s[i5 + 10..i6] == summary
  }

  /** The author and committer, with their separators starting at `i6` and
      `i7`, and the closing brace that ends the text. */
  predicate CommitBack(s: string, author: string, committer: string, i6: nat, i7: nat)
  {
    && |s| == i7 + 14 + |committer|
    && i6 + 9 <= i7
    && s[i6..i6 + 9] == ", author=" && s[i6 + 9..i7] == author
    && s[i7..i7 + 12] == ", committer=" && s[i7 + 12..i7 + 12 + |committer|] == committer
    && s[i7 + 12 + |committer|..] == " }"
  }

  /** The `Debug` rendering of a commit: id and tree id as they are, the
      timestamp in decimal, the optional texts as text or empty, and both
      contributors in their `Display` rendering, laid out by `CommitLayout`. */
  function CommitDebug(c: GitCommit): (s: string)
    ensures CommitLayout(s, c.id, c.treeId, IntToString(c.timestamp), SomeOrEmpty(c.header), SomeOrEmpty(c.message),
                         SomeOrEmpty(c.summary), ContributorDisplay(c.author), ContributorDisplay(c.committer))
  {
    var fields := [c.id, c.treeId, IntToString(c.timestamp), SomeOrEmpty(c.header), SomeOrEmpty(c.message),
                   SomeOrEmpty(c.summary), ContributorDisplay(c.author), ContributorDisplay(c.committer)];
    CommitFormatLayout(fields);
    Format(CommitPieces, fields)
  }

  /** The literal pieces of the commit's format string. */
  const CommitPieces: seq<string> :=
    ["{ id=", ", tree_id=", ", timestamp=", ", header=", ", message=", ", summary=", ", author=", ", committer=", " }"]

  /** Formatting eight fields with the commit's pieces lays them out as `CommitLayout` says. */
  lemma CommitFormatLayout(fields: seq<string>)
    requires |fields| == 8
    ensures CommitLayout(Format(CommitPieces, fields), fields[0], fields[1], fields[2], fields[3],
                         fields[4], fields[5], fields[6], fields[7])
  {
    var i := CommitOffsets([fields[0], fields[1], fields[2], fields[3], fields[4], fields[5], fields[6]]);
    CommitStarts(fields, i.0, i.1, i.2, i.3, i.4, i.5, i.6);
    CommitFrontFields(fields, i.0, i.1, i.2);
    CommitMiddleFields(fields, i.2, i.3, i.4, i.5);
    CommitBackFields(fields, i.5, i.6);
  }

  /** Where the pieces of the commit rendering start. */
  lemma CommitStarts(fields: seq<string>, i1: nat, i2: nat, i3: nat, i4: nat, i5: nat, i6: nat, i7: nat)
    requires |fields| == 8
    requires i1 == 5 + |fields[0]| && i2 == i1 + 10 + |fields[1]| && i3 == i2 + 12 + |fields[2]| && i4 == i3 + 9 + |fields[3]|
    requires i5 == i4 + 10 + |fields[4]| && i6 == i5 + 10 + |fields[5]| && i7 == i6 + 9 + |fields[6]|
    ensures Start(CommitPieces, fields, 1) == i1 && Start(CommitPieces, fields, 2) == i2
    ensures Start(CommitPieces, fields, 3) == i3 && Start(CommitPieces, fields, 4) == i4
    ensures Start(CommitPieces, fields, 5) == i5 && Start(CommitPieces, fields, 6) == i6
    ensures Start(CommitPieces, fields, 7) == i7 && Start(CommitPieces, fields, 8) == i7 + 12 + |fields[7]|
  {
    assert Start(CommitPieces, fields, 1) == i1;
    assert Start(CommitPieces, fields, 2) == i2;
    assert Start(CommitPieces, fields, 3) == i3;
    assert Start(CommitPieces, fields, 4) == i4;
    assert Start(CommitPieces, fields, 5) == i5;
    assert Start(CommitPieces, fields, 6) == i6;
    assert Start(CommitPieces, fields, 7) == i7;
  }

  // The three parts of the layout, each from the fields' starts.

  lemma CommitFrontFields(fields: seq<string>, i1: nat, i2: nat, i3: nat)
    requires |fields| == 8
    requires Start(CommitPieces, fields, 1) == i1 && Start(CommitPieces, fields, 2) == i2
    requires Start(CommitPieces, fields, 3) == i3
    requires i1 == 5 + |fields[0]| && i2 == i1 + 10 + |fields[1]| && i3 == i2 + 12 + |fields[2]|
    ensures CommitFront(Format(CommitPieces, fields), fields[0], fields[1], fields[2], i1, i2, i3)
  {
    Field(CommitPieces, fields, 0, 0, "{ id=", 5, fields[0]);
    Field(CommitPieces, fields, 1, i1, ", tree_id=", 10, fields[1]);
    Field(CommitPieces, fields, 2, i2, ", timestamp=", 12, fields[2]);
  }

  lemma CommitMiddleFields(fields: seq<string>, i3: nat, i4: nat, i5: nat, i6: nat)
    requires |fields| == 8
    requires Start(CommitPieces, fields, 3) == i3 && Start(CommitPieces, fields, 4) == i4
    requires Start(CommitPieces, fields, 5) == i5 && Start(CommitPieces, fields, 6) == i6
    requires i4 == i3 + 9 + |fields[3]| && i5 == i4 + 10 + |fields[4]| && i6 == i5 + 10 + |fields[5]|
    ensures CommitMiddle(Format(CommitPieces, fields), fields[3], fields[4], fields[5], i3, i4, i5, i6)
  {
    Field(CommitPieces, fields, 3, i3, ", header=", 9, fields[3]);
    Field(CommitPieces, fields, 4, i4, ", message=", 10, fields[4]);
    Field(CommitPieces, fields, 5, i5, ", summary=", 10, fields[5]);
  }

  lemma CommitBackFields(fields: seq<string>, i6: nat, i7: nat)
    requires |fields| == 8
    requires Start(CommitPieces, fields, 6) == i6 && Start(CommitPieces, fields, 7) == i7
    requires Start(CommitPieces, fields, 8) == i7 + 12 + |fields[7]|
    requires i7 == i6 + 9 + |fields[6]|
    ensures CommitBack(Format(CommitPieces, fields), fields[6], fields[7], i6, i7)
  {
    Field(CommitPieces, fields, 6, i6, ", author=", 9, fields[6]);
    Field(CommitPieces, fields, 7, i7, ", committer=", 12, fields[7]);
    FormatLast(CommitPieces, fields, i7 + 12 + |fields[7]|, " }");
  }

  // Decimal rendering of the timestamp (an i64 printed with `{}`).

  predicate IsDigit(c: char)
  {
    '0' <= c <= '9'
  }

  function DigitChar(d: nat): (c: char)
    requires d < 10
    ensures IsDigit(c) && (c as int - '0' as int) == d
  {
    ('0' as int + d) as char
  }

  /** The decimal digits of `n`, without leading zeros. */
  function NatToString(n: nat): (s: string)
    ensures |s| >= 1
    ensures forall i :: 0 <= i < |s| ==> IsDigit(s[i])
    ensures s[0] == '0' <==> n == 0
    decreases n
  {
    if n < 10 then [DigitChar(n)] else NatToString(n / 10) + [DigitChar(n % 10)]
  }

  /** The number a string of decimal digits denotes. */
  function DigitsValue(s: string): nat
    requires forall i :: 0 <= i < |s| ==> IsDigit(s[i])
  {
    if s == [] then 0
    else
      assert IsDigit(s[|s| - 1]);
      DigitsValue(s[..|s| - 1]) * 10 + (s[|s| - 1] as int - '0' as int)
  }

  /** Reading the digits back gives the number. */
  lemma {:induction false} NatToStringRoundTrip(n: nat)
    ensures DigitsValue(NatToString(n)) == n
    decreases n
  {
    if n >= 10 {
      var s := NatToString(n);
      assert s[..|s| - 1] == NatToString(n / 10);
      NatToStringRoundTrip(n / 10);
    }
  }

  /** The decimal rendering of an integer: a minus sign for a negative one. */
  function IntToString(i: int): (s: string)
    ensures |s| >= 1
    ensures s[0] == '-' <==> i < 0
  {
    if i < 0 then "-" + NatToString(-i) else NatToString(i)
  }

  /** An optional minus sign followed by decimal digits (at least one character). */
  predicate IsDecimal(s: string)
  {
    && |s| >= 1
    && (s[0] == '-' || IsDigit(s[0]))
    && forall i :: 0 < i < |s| ==> IsDigit(s[i])
  }

  /** The integer a decimal rendering denotes. */
  function ParseInt(s: string): int
    requires IsDecimal(s)
  {
    if s[0] == '-' then -(DigitsValue(s[1..]) as int) else DigitsValue(s)
  }

  /** The rendering of the timestamp loses nothing. */
  lemma {:induction false} IntToStringRoundTrip(i: int)
    ensures IsDecimal(IntToString(i)) && ParseInt(IntToString(i)) == i
  {
    if i < 0 {
      var digits := NatToString(-i);
      var s := "-" + digits;
      assert s[1..] == digits;
      assert forall k :: 0 < k < |s| ==> s[k] == digits[k - 1];
      NatToStringRoundTrip(-i);
    } else {
      NatToStringRoundTrip(i);
    }
  }

  // ---------------------------------------------------------------------------
  // Translation of engine objects
  // ---------------------------------------------------------------------------

  /** `GitCommit::from`: every field is copied as the engine reports it. */
  function FromCommit(item: EngineCommit): (c: GitCommit)
    ensures c.id == item.id && c.treeId == item.treeId && c.timestamp == item.seconds
    ensures c.header == item.rawHeader && c.message == item.message && c.summary == item.summary
    ensures c.author == Contributor(item.author.name, item.author.email)
    ensures c.committer == Contributor(item.committer.name, item.committer.email)
  {
    GitCommit(
      id := item.id,
      treeId := item.treeId,
      timestamp := item.seconds,
      header := item.rawHeader,
      message := item.message,
      summary := item.summary,
      author := Contributor(item.author.name, item.author.email),
      committer := Contributor(item.committer.name, item.committer.email))
  }

  /** Nothing is lost or defaulted: two commits with the same snapshot are the same commit. */
  lemma FromCommitInjective(a: EngineCommit, b: EngineCommit)
    requires FromCommit(a) == FromCommit(b)
    ensures a == b
  {
  }

  /** The descriptor of a resolved remote. */
  function Describe(remote: EngineRemote): (d: GitRemote)
    ensures d.name == remote.name && d.url == remote.url && d.pushUrl == remote.pushUrl
  {
    GitRemote(remote.name, remote.url, remote.pushUrl)
  }

  // ---------------------------------------------------------------------------
  // Listings: partial results, order preserved
  // ---------------------------------------------------------------------------

  /** One entry of the list of remote names, if present: none or one name. */
  function PresentName(name: Option<string>): seq<string>
  {
    if name.Some? then [name.value] else []
  }

  /** The names among the engine's list of remote names that decode, in order. */
  function PresentNames(names: seq<Option<string>>): (r: seq<string>)
    ensures |r| <= |names|
    ensures forall x :: x in r <==> Some(x) in names
  {
    if names == [] then []
    else
      assert names == [names[0]] + names[1..];
      PresentName(names[0]) + PresentNames(names[1..])
  }

  /** Filtering distributes over concatenation: the kept names keep their order. */
  lemma {:induction false} PresentNamesAppend(a: seq<Option<string>>, b: seq<Option<string>>)
    ensures PresentNames(a + b) == PresentNames(a) + PresentNames(b)
  {
    if a == [] {
      assert a + b == b;
    } else {
      assert (a + b)[0] == a[0];
      assert (a + b)[1..] == a[1..] + b;
      PresentNamesAppend(a[1..], b);
      var head, rest, restB := PresentName(a[0]), PresentNames(a[1..]), PresentNames(b);
      assert PresentNames(a + b) == head + PresentNames(a[1..] + b);
      assert head + (rest + restB) == (head + rest) + restB;
    }
  }

  /** `get_remote_names`: fails only when the enumeration fails; otherwise the
      names that decode. */
  function GetRemoteNames(listing: Result<seq<Option<string>>, GitError>): (r: Result<seq<string>, GitError>)
    ensures r.Success? <==> listing.Success?
    ensures listing.Failure? ==> r.error == listing.error
    ensures r.Success? ==> forall x :: x in r.value <==> Some(x) in listing.value
  {
    match listing
    case Failure(e) => Failure(e)
    case Success(names) => Success(PresentNames(names))
  }

  /** The descriptor of one name if its lookup in `config` succeeds: none or one. */
  function Resolved(config: map<string, EngineRemote>, name: string): seq<GitRemote>
  {
    if name in config then [Describe(config[name])] else []
  }

  /** The descriptors of the names whose lookup in `config` succeeds, in name
      order; a failed lookup drops that name. */
  function ResolveRemotes(config: map<string, EngineRemote>, names: seq<string>): (r: seq<GitRemote>)
    ensures |r| <= |names|
    ensures (forall i :: 0 <= i < |names| ==> names[i] in config) ==> |r| == |names|
    ensures forall i :: 0 <= i < |names| && names[i] in config ==> Describe(config[names[i]]) in r
    ensures forall d :: d in r ==> exists i :: 0 <= i < |names| && names[i] in config && d == Describe(config[names[i]])
  {
    if names == [] then []
    else
      var rest := ResolveRemotes(config, names[1..]);
      var r := Resolved(config, names[0]) + rest;
      assert forall i :: 1 <= i < |names| ==> names[i] == names[1..][i - 1];
      assert forall d :: d in rest ==> exists i :: 1 <= i < |names| && names[i] in config && d == Describe(config[names[i]]) by {
        forall d | d in rest
          ensures exists i :: 1 <= i < |names| && names[i] in config && d == Describe(config[names[i]])
        {
          var j :| 0 <= j < |names[1..]| && names[1..][j] in config && d == Describe(config[names[1..][j]]);
          assert names[j + 1] == names[1..][j];
        }
      }
      r
  }

  /** Resolving distributes over concatenation: descriptors keep name order. */
  lemma {:induction false} ResolveRemotesAppend(config: map<string, EngineRemote>, a: seq<string>, b: seq<string>)
    ensures ResolveRemotes(config, a + b) == ResolveRemotes(config, a) + ResolveRemotes(config, b)
  {
    if a == [] {
      assert a + b == b;
    } else {
      assert (a + b)[0] == a[0];
      assert (a + b)[1..] == a[1..] + b;
      ResolveRemotesAppend(config, a[1..], b);
      var head, rest, restB := Resolved(config, a[0]), ResolveRemotes(config, a[1..]), ResolveRemotes(config, b);
      assert ResolveRemotes(config, a + b) == head + ResolveRemotes(config, a[1..] + b);
      assert head + (rest + restB) == (head + rest) + restB;
    }
  }

  /** The kind of a branch: local, or remote-tracking. */
  datatype BranchType = Local | Remote

  /** One entry of the engine's branch enumeration; decoding its name may fail,
      and a name that is not valid UTF-8 is `None`. */
  datatype EngineBranch = EngineBranch(name: Result<Option<string>, GitError>, kind: BranchType)

  /** One enumerated entry if it was read without error and is of `kind`: none or one branch. */
  function OkEntry(entry: Result<EngineBranch, GitError>, kind: BranchType): seq<EngineBranch>
  {
    if entry.Success? && entry.value.kind == kind then [entry.value] else []
  }

  /** The enumerated branches that were read without error and are of `kind`, in order. */
  function OkOfKind(entries: seq<Result<EngineBranch, GitError>>, kind: BranchType): (r: seq<EngineBranch>)
    ensures |r| <= |entries|
    ensures forall b :: b in r <==> Success(b) in entries && b.kind == kind
  {
    if entries == [] then []
    else
      assert entries == [entries[0]] + entries[1..];
      OkEntry(entries[0], kind) + OkOfKind(entries[1..], kind)
  }

  /** The name of one branch if it decodes: none or one name. */
  function DecodedName(branch: EngineBranch): seq<string>
  {
    if branch.name.Success? && branch.name.value.Some? then [branch.name.value.value] else []
  }

  /** The names of `branches` that decode, in order. */
  function DecodedNames(branches: seq<EngineBranch>): (r: seq<string>)
    ensures |r| <= |branches|
    ensures forall x :: x in r <==> exists b :: b in branches && b.name == Success(Some(x))
  {
    if branches == [] then []
    else
      assert branches == [branches[0]] + branches[1..];
      DecodedName(branches[0]) + DecodedNames(branches[1..])
  }

  /** The two stages of `get_branches` composed. */
  function BranchNames(entries: seq<Result<EngineBranch, GitError>>, kind: BranchType): (r: seq<string>)
    ensures |r| <= |entries|
    ensures forall x :: x in r <==> Success(EngineBranch(Success(Some(x)), kind)) in entries
  {
    var names := DecodedNames(OkOfKind(entries, kind));
    assert forall x :: x in names ==> Success(EngineBranch(Success(Some(x)), kind)) in entries by {
      forall x | x in names ensures Success(EngineBranch(Success(Some(x)), kind)) in entries {
        var b :| b in OkOfKind(entries, kind) && b.name == Success(Some(x));
      }
    }
    assert forall x :: Success(EngineBranch(Success(Some(x)), kind)) in entries ==> x in names by {
      forall x | Success(EngineBranch(Success(Some(x)), kind)) in entries ensures x in names {
        assert EngineBranch(Success(Some(x)), kind) in OkOfKind(entries, kind);
      }
    }
    names
  }

  /** Both stages distribute over concatenation: names keep enumeration order. */
  lemma {:induction false} BranchNamesAppend(a: seq<Result<EngineBranch, GitError>>, b: seq<Result<EngineBranch, GitError>>, kind: BranchType)
    ensures BranchNames(a + b, kind) == BranchNames(a, kind) + BranchNames(b, kind)
  {
    OkOfKindAppend(a, b, kind);
    DecodedNamesAppend(OkOfKind(a, kind), OkOfKind(b, kind));
  }

  lemma {:induction false} OkOfKindAppend(a: seq<Result<EngineBranch, GitError>>, b: seq<Result<EngineBranch, GitError>>, kind: BranchType)
    ensures OkOfKind(a + b, kind) == OkOfKind(a, kind) + OkOfKind(b, kind)
  {
    if a == [] {
      assert a + b == b;
    } else {
      assert (a + b)[0] == a[0];
      assert (a + b)[1..] == a[1..] + b;
      OkOfKindAppend(a[1..], b, kind);
      var head, rest, restB := OkEntry(a[0], kind), OkOfKind(a[1..], kind), OkOfKind(b, kind);
      assert OkOfKind(a + b, kind) == head + OkOfKind(a[1..] + b, kind);
      assert head + (rest + restB) == (head + rest) + restB;
    }
  }

  lemma {:induction false} DecodedNamesAppend(a: seq<EngineBranch>, b: seq<EngineBranch>)
    ensures DecodedNames(a + b) == DecodedNames(a) + DecodedNames(b)
  {
    if a == [] {
      assert a + b == b;
    } else {
      assert (a + b)[0] == a[0];
      assert (a + b)[1..] == a[1..] + b;
      DecodedNamesAppend(a[1..], b);
      var head, rest, restB := DecodedName(a[0]), DecodedNames(a[1..]), DecodedNames(b);
      assert DecodedNames(a + b) == head + DecodedNames(a[1..] + b);
      assert head + (rest + restB) == (head + rest) + restB;
    }
  }

  /** `get_branches`: fails only when the enumeration fails; otherwise the
      decodable names of the branches of `kind`. */
  function GetBranches(listing: Result<seq<Result<EngineBranch, GitError>>, GitError>, kind: BranchType): (r: Result<seq<string>, GitError>)
    ensures r.Success? <==> listing.Success?
    ensures listing.Failure? ==> r.error == listing.error
    ensures r.Success? ==> forall x :: x in r.value <==> Success(EngineBranch(Success(Some(x)), kind)) in listing.value
  {
    match listing
    case Failure(e) => Failure(e)
    case Success(entries) => Success(BranchNames(entries, kind))
  }

  /** `get_local_branches`. */
  function GetLocalBranches(listing: Result<seq<Result<EngineBranch, GitError>>, GitError>): (r: Result<seq<string>, GitError>)
    ensures r.Success? <==> listing.Success?
    ensures listing.Failure? ==> r.error == listing.error
    ensures r.Success? ==> forall x :: x in r.value <==> Success(EngineBranch(Success(Some(x)), Local)) in listing.value
  {
    GetBranches(listing, Local)
  }

  /** `get_remote_branches`. */
  function GetRemoteBranches(listing: Result<seq<Result<EngineBranch, GitError>>, GitError>): (r: Result<seq<string>, GitError>)
    ensures r.Success? <==> listing.Success?
    ensures listing.Failure? ==> r.error == listing.error
    ensures r.Success? ==> forall x :: x in r.value <==> Success(EngineBranch(Success(Some(x)), Remote)) in listing.value
  {
    GetBranches(listing, Remote)
  }

  // ---------------------------------------------------------------------------
  // Engine state and the mutating operations
  // ---------------------------------------------------------------------------

  /** The engine's state as far as this layer can observe it. `headRef` is the
      reference HEAD follows (`HEAD` itself when detached); `index` and
      `workTree` are the ids of the trees they hold. */
  datatype RepoState = RepoState(
    refs: map<string, Oid>,
    objects: map<Oid, EngineCommit>,
    remotes: map<string, EngineRemote>,
    headRef: string,
    index: Oid,
    workTree: Oid)

  /** The outcome of an operation and the state it leaves. */
  datatype Step = Step(outcome: Outcome<GitError>, state: RepoState)

  /** What a successful network transfer brought: the commits it wrote and,
      when the engine moved it, the new target of the remote-tracking reference. */
  datatype Transfer = Transfer(objects: map<Oid, EngineCommit>, tip: Option<Oid>)

  /** Every commit is stored under its own id. */
  ghost predicate ContentAddressed(objects: map<Oid, EngineCommit>)
  {
    forall k :: k in objects ==> objects[k].id == k
  }

  /** The full name of a local branch. */
  function HeadsRef(branch: string): (name: string)
    ensures |name| == 11 + |branch| && name[..11] == "refs/heads/" && name[11..] == branch
  {
    "refs/heads/" + branch
  }

  /** The full name of the remote-tracking reference of `branch` on `remote`. */
  function TrackingRef(remote: string, branch: string): (name: string)
    ensures |name| == 14 + |remote| + |branch|
    ensures name[..13] == "refs/remotes/" && name[13..13 + |remote|] == remote
    ensures name[13 + |remote|] == '/' && name[14 + |remote|..] == branch
  {
    "refs/remotes/" + remote + "/" + branch
  }

  /** Distinct branches have distinct local names. */
  lemma HeadsRefInjective(a: string, b: string)
    requires HeadsRef(a) == HeadsRef(b)
    ensures a == b
  {
    assert a == HeadsRef(a)[11..];
  }

  /** A remote-tracking reference is never a local branch, so fetching never
      moves a local branch. */
  lemma TrackingRefIsNotHeadsRef(remote: string, branch: string, local: string)
    ensures TrackingRef(remote, branch) != HeadsRef(local)
  {
    assert TrackingRef(remote, branch)[5] == 'r' && HeadsRef(local)[5] == 'h';
  }

  /** `name` is a reference whose target object is present. */
  predicate Resolves(s: RepoState, name: string)
  {
    name in s.refs && s.refs[name] in s.objects
  }

  /** `get_last_commit`: the snapshot of the commit the local branch points at. */
  function LastCommitOf(s: RepoState, branch: string): (r: Result<GitCommit, GitError>)
    ensures r.Success? <==> Resolves(s, HeadsRef(branch))
    ensures HeadsRef(branch) !in s.refs ==> r == Failure(Missing("branch", branch))
    ensures r.Success? ==> r.value == FromCommit(s.objects[s.refs[HeadsRef(branch)]])
    ensures r.Success? && ContentAddressed(s.objects) ==> r.value.id == s.refs[HeadsRef(branch)]
  {
    var name := HeadsRef(branch);
    if name !in s.refs then Failure(Missing("branch", branch))
    else if s.refs[name] !in s.objects then Failure(Missing("object", s.refs[name]))
    else Success(FromCommit(s.objects[s.refs[name]]))
  }

  /** `checkout`: resolve exactly `refs/heads/<branch>`, then write its tree
      into the index and working tree (`treeCheckout` is what writing reports).
      References and HEAD never move. */
  function CheckoutStep(s: RepoState, branch: string, treeCheckout: Outcome<GitError>): (r: Step)
    ensures r.outcome.Pass? <==> Resolves(s, HeadsRef(branch)) && treeCheckout.Pass?
    ensures HeadsRef(branch) !in s.refs ==> r.outcome == Fail(Missing("revspec", HeadsRef(branch)))
    ensures Resolves(s, HeadsRef(branch)) && treeCheckout.Fail? ==> r.outcome == treeCheckout
    ensures r.outcome.Fail? ==> r.state == s
    ensures r.outcome.Pass? ==>
      var tree := s.objects[s.refs[HeadsRef(branch)]].treeId;
      r.state == s.(index := tree, workTree := tree)
  {
    var name := HeadsRef(branch);
    if name !in s.refs then Step(Fail(Missing("revspec", name)), s)
    else if s.refs[name] !in s.objects then Step(Fail(Missing("object", s.refs[name])), s)
    else if treeCheckout.Fail? then Step(treeCheckout, s)
    else
      var tree := s.objects[s.refs[name]].treeId;
      Step(Pass, s.(index := tree, workTree := tree))
  }

  /** The references after a successful transfer: only the remote-tracking
      reference of `remote`/`branch` may move. */
  function FetchedRefs(refs: map<string, Oid>, remote: string, branch: string, t: Transfer): (r: map<string, Oid>)
    ensures r.Keys == refs.Keys + (if t.tip.Some? then {TrackingRef(remote, branch)} else {})
    ensures forall name :: name in refs && name != TrackingRef(remote, branch) ==> r[name] == refs[name]
    ensures t.tip.Some? ==> r[TrackingRef(remote, branch)] == t.tip.value
  {
    if t.tip.Some? then refs[TrackingRef(remote, branch) := t.tip.value] else refs
  }

  /** `fetch`: look the remote up, then transfer (`transfer` is what the network
      transfer reports). A failure changes nothing; fetching never touches the
      index, the working tree or HEAD. */
  function FetchStep(s: RepoState, remote: string, branch: string, transfer: Result<Transfer, GitError>): (r: Step)
    ensures r.outcome.Pass? <==> remote in s.remotes && transfer.Success?
    ensures remote !in s.remotes ==> r.outcome == Fail(Missing("remote", remote))
    ensures remote in s.remotes && transfer.Failure? ==> r.outcome == Fail(transfer.error)
    ensures r.outcome.Fail? ==> r.state == s
    ensures r.outcome.Pass? ==>
      r.state == s.(refs := FetchedRefs(s.refs, remote, branch, transfer.value), objects := s.objects + transfer.value.objects)
    ensures ContentAddressed(s.objects) && (transfer.Success? ==> ContentAddressed(transfer.value.objects))
      ==> ContentAddressed(r.state.objects)
  {
    if remote !in s.remotes then Step(Fail(Missing("remote", remote)), s)
    else match transfer
      case Failure(e) => Step(Fail(e), s)
      case Success(t) => Step(Pass, s.(refs := FetchedRefs(s.refs, remote, branch, t), objects := s.objects + t.objects))
  }

  /** `pull`: fetch; if that fails, return its error and do nothing more.
      Otherwise resolve `refs/remotes/<remote>/<branch>` and hard-reset to it
      (`reset` is what the reset reports): HEAD's reference moves to the
      target and the index and working tree become its tree, whatever they
      held before. */
  function PullStep(s: RepoState, remote: string, branch: string, transfer: Result<Transfer, GitError>, reset: Outcome<GitError>): (r: Step)
    ensures FetchStep(s, remote, branch, transfer).outcome.Fail? ==> r == Step(FetchStep(s, remote, branch, transfer).outcome, s)
    ensures r.outcome.Pass? <==>
      && FetchStep(s, remote, branch, transfer).outcome.Pass?
      && Resolves(FetchStep(s, remote, branch, transfer).state, TrackingRef(remote, branch))
      && reset.Pass?
    // after a successful fetch: a missing remote-tracking reference is reported
    // before any reset, and a failed reset reports its own error
    ensures
      var fetch := FetchStep(s, remote, branch, transfer);
      fetch.outcome.Pass? && TrackingRef(remote, branch) !in fetch.state.refs ==>
        r.outcome == Fail(Missing("reference", TrackingRef(remote, branch)))
    ensures
      var fetch := FetchStep(s, remote, branch, transfer);
      fetch.outcome.Pass? && Resolves(fetch.state, TrackingRef(remote, branch)) && reset.Fail? ==>
        r.outcome == reset
    // a failed pull never touches the index or the working tree, and moves no
    // reference other than the one a successful fetch updated
    ensures r.outcome.Fail? ==> r.state.index == s.index && r.state.workTree == s.workTree
    // a pull that fails after a successful fetch keeps what the fetch brought
    ensures FetchStep(s, remote, branch, transfer).outcome.Pass? && r.outcome.Fail? ==>
      r.state == FetchStep(s, remote, branch, transfer).state
    ensures r.outcome.Fail? ==>
      forall name :: name in s.refs && name != TrackingRef(remote, branch) ==> name in r.state.refs && r.state.refs[name] == s.refs[name]
    ensures r.state.remotes == s.remotes && r.state.headRef == s.headRef
    ensures r.outcome.Pass? ==>
      var fetched := FetchStep(s, remote, branch, transfer).state;
      var target := fetched.refs[TrackingRef(remote, branch)];
      && r.state.refs == fetched.refs[s.headRef := target]
      && r.state.objects == fetched.objects
      && r.state.index == fetched.objects[target].treeId
      && r.state.workTree == fetched.objects[target].treeId
  {
    var fetch := FetchStep(s, remote, branch, transfer);
    if fetch.outcome.Fail? then fetch
    else
      var fetched := fetch.state;
      var name := TrackingRef(remote, branch);
      if name !in fetched.refs then Step(Fail(Missing("reference", name)), fetched)
      else if fetched.refs[name] !in fetched.objects then Step(Fail(Missing("object", fetched.refs[name])), fetched)
      else if reset.Fail? then Step(reset, fetched)
      else
        var target := fetched.refs[name];
        var tree := fetched.objects[target].treeId;
        Step(Pass, fetched.(refs := fetched.refs[fetched.headRef := target], index := tree, workTree := tree))
  }

  /** A pull converges on upstream: from two states that differ only in their
      index and working tree (local edits), the same successful pull leaves the
      same state. */
  lemma PullDiscardsLocalEdits(s: RepoState, index: Oid, workTree: Oid, remote: string, branch: string,
                               transfer: Result<Transfer, GitError>, reset: Outcome<GitError>)
    requires PullStep(s, remote, branch, transfer, reset).outcome.Pass?
    ensures PullStep(s.(index := index, workTree := workTree), remote, branch, transfer, reset)
         == PullStep(s, remote, branch, transfer, reset)
  {
  }

  // ---------------------------------------------------------------------------
  // The repository object
  // ---------------------------------------------------------------------------

  /** The one repository the service owns. Its fields are the engine state the
      operations read and change. */
  class GitRepository {
    var refs: map<string, Oid>
    var objects: map<Oid, EngineCommit>
    var remoteConfig: map<string, EngineRemote>
    var headRef: string
    var index: Oid
    var workTree: Oid

    /** The engine state the fields hold. */
    function State(): RepoState
      reads this
    {
      RepoState(refs, objects, remoteConfig, headRef, index, workTree)
    }

    ghost predicate Valid()
      reads this
    {
      ContentAddressed(objects)
    }

    /** Opening an existing repository: the engine state found on disk. */
    constructor Open(s: RepoState)
      requires ContentAddressed(s.objects)
      ensures Valid() && State() == s
    {
      refs, objects, remoteConfig := s.refs, s.objects, s.remotes;
      headRef, index, workTree := s.headRef, s.index, s.workTree;
    }

    /** `find_remote`. */
    function FindRemote(name: string): (r: Result<EngineRemote, GitError>)
      reads this
      ensures r.Success? <==> name in remoteConfig
      ensures r.Success? ==> r.value == remoteConfig[name]
    {
      if name in remoteConfig then Success(remoteConfig[name]) else Failure(Missing("remote", name))
    }

    /** `get_remotes`: fails only when enumerating the names fails; otherwise
        one descriptor per decodable name whose lookup succeeds, in name order. */
    function GetRemotes(listing: Result<seq<Option<string>>, GitError>): (r: Result<seq<GitRemote>, GitError>)
      reads this
      ensures r.Success? <==> listing.Success?
      ensures listing.Failure? ==> r.error == listing.error
      ensures r.Success? ==>
        && |r.value| <= |listing.value|
        && (forall x :: Some(x) in listing.value && x in remoteConfig ==> Describe(remoteConfig[x]) in r.value)
        && (forall d :: d in r.value ==> exists x :: Some(x) in listing.value && x in remoteConfig && d == Describe(remoteConfig[x]))
    {
      var names := GetRemoteNames(listing);
      if names.Failure? then Failure(names.error)
      else
        var found := ResolveRemotes(remoteConfig, names.value);
        assert forall x :: Some(x) in listing.value && x in remoteConfig ==> Describe(remoteConfig[x]) in found by {
          forall x | Some(x) in listing.value && x in remoteConfig ensures Describe(remoteConfig[x]) in found {
            var i :| 0 <= i < |names.value| && names.value[i] == x;
          }
        }
        assert forall d :: d in found ==> exists x :: Some(x) in listing.value && x in remoteConfig && d == Describe(remoteConfig[x]) by {
          forall d | d in found ensures exists x :: Some(x) in listing.value && x in remoteConfig && d == Describe(remoteConfig[x]) {
            var i :| 0 <= i < |names.value| && names.value[i] in remoteConfig && d == Describe(remoteConfig[names.value[i]]);
            assert names.value[i] in names.value;
          }
        }
        Success(found)
    }

    /** `get_last_commit`. */
    function GetLastCommit(branch: string): (r: Result<GitCommit, GitError>)
      reads this
      ensures r.Success? <==> HeadsRef(branch) in refs && refs[HeadsRef(branch)] in objects
      ensures HeadsRef(branch) !in refs ==> r == Failure(Missing("branch", branch))
      ensures r.Success? ==> r.value == FromCommit(objects[refs[HeadsRef(branch)]])
      ensures r.Success? && Valid() ==> r.value.id == refs[HeadsRef(branch)]
    {
      LastCommitOf(State(), branch)
    }

    /** `checkout`. */
    method Checkout(branch: string, treeCheckout: Outcome<GitError>) returns (r: Outcome<GitError>)
      modifies this
      ensures Step(r, State()) == CheckoutStep(old(State()), branch, treeCheckout)
    {
      var name := HeadsRef(branch);
      if name !in refs {
        return Fail(Missing("revspec", name));
      }
      var id := refs[name];
      if id !in objects {
        return Fail(Missing("object", id));
      }
      var commit := objects[id];
      if treeCheckout.Fail? {
        return treeCheckout;
      }
      index := commit.treeId;
      workTree := commit.treeId;
      r := Pass;
    }

    /** `fetch`. */
    method Fetch(remote: string, branch: string, transfer: Result<Transfer, GitError>) returns (r: Outcome<GitError>)
      requires Valid()
      requires transfer.Success? ==> ContentAddressed(transfer.value.objects)
      modifies this
      ensures Valid()
      ensures Step(r, State()) == FetchStep(old(State()), remote, branch, transfer)
    {
      var found := FindRemote(remote);
      if found.Failure? {
        return Fail(found.error);
      }
      match transfer
      case Failure(e) =>
        r := Fail(e);
      case Success(t) =>
        objects := objects + t.objects;
        refs := FetchedRefs(refs, remote, branch, t);
        r := Pass;
    }

    /** `pull`: `fetch`, then a hard reset to the remote-tracking reference. */
    method Pull(remote: string, branch: string, transfer: Result<Transfer, GitError>, reset: Outcome<GitError>)
      returns (r: Outcome<GitError>)
      requires Valid()
      requires transfer.Success? ==> ContentAddressed(transfer.value.objects)
      modifies this
      ensures Valid()
      ensures Step(r, State()) == PullStep(old(State()), remote, branch, transfer, reset)
    {
      r := Fetch(remote, branch, transfer);
      if r.Fail? {
        return;
      }
      var name := TrackingRef(remote, branch);
      if name !in refs {
        return Fail(Missing("reference", name));
      }
      var id := refs[name];
      if id !in objects {
        return Fail(Missing("object", id));
      }
      var commit := objects[id];
      if reset.Fail? {
        return reset;
      }
      refs := refs[headRef := id];
      index := commit.treeId;
      workTree := commit.treeId;
    }
  }
}
