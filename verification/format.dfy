/** Rendering through a format string, as Rust's `write!` does: literal
    pieces with an argument between each two, and where each piece and
    argument sits in the result. */
module Formatting {
  /** The text `write!` produces: the format string's literal pieces with the
      arguments in between. */
  function Format(pieces: seq<string>, args: seq<string>): (s: string)
    requires |pieces| == |args| + 1
    decreases |args|
  {
    if |args| == 0 then pieces[0] else pieces[0] + (args[0] + Format(pieces[1..], args[1..]))
  }

  /** Where the `k`-th piece starts in `Format(pieces, args)`. */
  function Start(pieces: seq<string>, args: seq<string>, k: nat): nat
    requires |pieces| == |args| + 1 && k <= |args|
  {
    if k == 0 then 0 else Start(pieces, args, k - 1) + |pieces[k - 1]| + |args[k - 1]|
  }

  /** Dropping the first piece and argument moves every later start back by their length. */
  lemma StartShift(pieces: seq<string>, args: seq<string>, k: nat)
    requires |pieces| == |args| + 1 && 0 < k <= |args|
    ensures Start(pieces, args, k) == |pieces[0]| + |args[0]| + Start(pieces[1..], args[1..], k - 1)
    decreases k
  {
    if k > 1 {
      StartShift(pieces, args, k - 1);
    }
  }

  /** Dropping a prefix `a` moves every tail of `a + r` back by `|a|`. */
  lemma ShiftTail(a: string, r: string, j: nat)
    requires j <= |r|
    ensures (a + r)[|a| + j..] == r[j..]
  {
  }

  /** From where the `k`-th piece starts, the rendering is the rendering of
      the pieces and arguments from `k` on. */
  lemma {:induction false} FormatTail(pieces: seq<string>, args: seq<string>, k: nat)
    requires |pieces| == |args| + 1 && k <= |args|
    ensures Start(pieces, args, k) <= |Format(pieces, args)|
    ensures Format(pieces, args)[Start(pieces, args, k)..] == Format(pieces[k..], args[k..])
    decreases k
  {
    if k > 0 {
      var head, rest := pieces[0] + args[0], Format(pieces[1..], args[1..]);
      assert Format(pieces, args) == head + rest;
      FormatTail(pieces[1..], args[1..], k - 1);
      StartShift(pieces, args, k);
      ShiftTail(head, rest, Start(pieces[1..], args[1..], k - 1));
      assert pieces[1..][k - 1..] == pieces[k..] && args[1..][k - 1..] == args[k..];
    }
  }

  /** Where `p + (v + r)` is the tail of `s` from `i`, the piece and then the
      argument sit at `i`. */
  lemma Piece(s: string, i: nat, p: string, n: nat, v: string, r: string)
    requires i <= |s| && s[i..] == p + (v + r) && |p| == n
    ensures i + n + |v| <= |s| && s[i..i + n] == p && s[i + n..i + n + |v|] == v
  {
    assert s[i..i + n] == (p + (v + r))[..n];
    assert s[i + n..i + n + |v|] == (p + (v + r))[n..n + |v|];
  }

  /** Field `k` of a rendering whose `k`-th piece starts at `i`, for a piece
      `p` of length `n`: the piece, then the argument `v`. */
  lemma Field(pieces: seq<string>, args: seq<string>, k: nat, i: nat, p: string, n: nat, v: string)
    requires |pieces| == |args| + 1 && k < |args|
    requires Start(pieces, args, k) == i && pieces[k] == p && |p| == n && args[k] == v
    ensures var s := Format(pieces, args);
      && i + n + |v| <= |s| && s[i..i + n] == p && s[i + n..i + n + |v|] == v
  {
    FormatTail(pieces, args, k);
    var rest := Format(pieces[k..][1..], args[k..][1..]);
    assert Format(pieces[k..], args[k..]) == p + (v + rest);
    Piece(Format(pieces, args), i, p, n, v, rest);
  }

  /** The last piece `p`, starting at `i`, ends the rendering. */
  lemma FormatLast(pieces: seq<string>, args: seq<string>, i: nat, p: string)
    requires |pieces| == |args| + 1
    requires Start(pieces, args, |args|) == i && pieces[|args|] == p
    ensures var s := Format(pieces, args); |s| == i + |p| && s[i..] == p
  {
    FormatTail(pieces, args, |args|);
    assert Format(pieces[|args|..], args[|args|..]) == p;
  }
}
