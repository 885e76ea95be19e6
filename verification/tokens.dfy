/** Loading the list of bearer tokens from the comma-separated TOKENS setting
    (`loadTokens`, index.js:42-52): split on ',', drop empty pieces, then trim
    each survivor. An empty list ends the process with an error. */
module Tokens {
  import opened Wrappers

  /** The separator between tokens in the setting. */
  const Separator: char := ','

  /** The code points `String.prototype.trim` strips: the ECMAScript WhiteSpace
      set (tab, vertical tab, form feed, ZWNBSP and every Unicode space
      separator) and the LineTerminator set. */
  predicate IsTrimmable(c: char) {
    || c == '\t' || c == '\n' || c == '\U{000B}' || c == '\U{000C}' || c == '\r'
    || c == ' ' || c == '\U{00A0}' || c == '\U{1680}'
    || ('\U{2000}' <= c <= '\U{200A}')
    || c == '\U{2028}' || c == '\U{2029}' || c == '\U{202F}' || c == '\U{205F}'
    || c == '\U{3000}' || c == '\U{FEFF}'
  }

  predicate AllTrimmable(s: string) {
    forall i :: 0 <= i < |s| ==> IsTrimmable(s[i])
  }

  /** Neither end of `s` is trimmable. */
  predicate IsTrimmed(s: string) {
    s == [] || (!IsTrimmable(s[0]) && !IsTrimmable(s[|s| - 1]))
  }

  /** Glues pieces back together with `sep` between neighbours (`Array.prototype.join`). */
  function Join(pieces: seq<string>, sep: char): string
    requires |pieces| >= 1
    decreases |pieces|
  {
    if |pieces| == 1 then pieces[0] else pieces[0] + [sep] + Join(pieces[1..], sep)
  }

  /** `String.prototype.split` with a one-character separator: the maximal
      separator-free pieces, in order, that join back to `s`. */
  function Split(s: string, sep: char): (pieces: seq<string>)
    ensures |pieces| >= 1
    ensures forall i :: 0 <= i < |pieces| ==> sep !in pieces[i]
    ensures Join(pieces, sep) == s
    decreases |s|
  {
    if |s| == 0 then [""]
    else
      var rest := Split(s[1..], sep);
      if s[0] == sep then
        assert ([""] + rest)[1..] == rest;
        [""] + rest
      else
        var pieces := [[s[0]] + rest[0]] + rest[1..];
        assert pieces[1..] == rest[1..];
        assert s == [s[0]] + s[1..];
        pieces
  }

  /** A string without the separator splits into itself alone. */
  lemma {:induction false} SplitNoSeparator(x: string, sep: char)
    requires sep !in x
    ensures Split(x, sep) == [x]
    decreases |x|
  {
    if |x| > 0 {
      assert sep !in x[1..];
      SplitNoSeparator(x[1..], sep);
    }
  }

  /** Splitting stops at the first separator. */
  lemma {:induction false} SplitAtFirstSeparator(x: string, y: string, sep: char)
    requires sep !in x
    ensures Split(x + [sep] + y, sep) == [x] + Split(y, sep)
    decreases |x|
  {
    var s := x + [sep] + y;
    if |x| == 0 {
      assert s[1..] == y;
    } else {
      assert s[1..] == x[1..] + [sep] + y;
      assert sep !in x[1..];
      SplitAtFirstSeparator(x[1..], y, sep);
      assert [x[0]] + x[1..] == x;
    }
  }

  /** Split inverts Join: separator-free pieces are recovered exactly. */
  lemma {:induction false} SplitJoin(pieces: seq<string>, sep: char)
    requires |pieces| >= 1
    requires forall i :: 0 <= i < |pieces| ==> sep !in pieces[i]
    ensures Split(Join(pieces, sep), sep) == pieces
    decreases |pieces|
  {
    if |pieces| == 1 {
      SplitNoSeparator(pieces[0], sep);
    } else {
      SplitJoin(pieces[1..], sep);
      SplitAtFirstSeparator(pieces[0], Join(pieces[1..], sep), sep);
      assert [pieces[0]] + pieces[1..] == pieces;
    }
  }

  /** `Array.prototype.filter(Boolean)` on strings: keeps the non-empty pieces. */
  function DropEmpty(pieces: seq<string>): (kept: seq<string>)
    ensures |kept| <= |pieces|
    ensures forall k :: 0 <= k < |kept| ==> kept[k] != ""
    decreases |pieces|
  {
    if |pieces| == 0 then []
    else
      var last := pieces[|pieces| - 1];
      DropEmpty(pieces[..|pieces| - 1]) + (if last == "" then [] else [last])
  }

  /** The positions of the non-empty pieces, in increasing order. */
  function KeptIndices(pieces: seq<string>): (idx: seq<nat>)
    ensures forall k :: 0 <= k < |idx| ==> idx[k] < |pieces| && pieces[idx[k]] != ""
    ensures forall k, l :: 0 <= k < l < |idx| ==> idx[k] < idx[l]
    ensures forall i :: 0 <= i < |pieces| && pieces[i] != "" ==> i in idx
    decreases |pieces|
  {
    if |pieces| == 0 then []
    else
      var n := |pieces| - 1;
      var prev := KeptIndices(pieces[..n]);
      assert forall i :: 0 <= i < n ==> pieces[..n][i] == pieces[i];
      prev + (if pieces[n] == "" then [] else [n])
  }

  /** DropEmpty keeps exactly the non-empty pieces, in their original order. */
  lemma {:induction false} DropEmptyKeepsOrder(pieces: seq<string>)
    ensures |DropEmpty(pieces)| == |KeptIndices(pieces)|
    ensures forall k :: 0 <= k < |DropEmpty(pieces)| ==> DropEmpty(pieces)[k] == pieces[KeptIndices(pieces)[k]]
    decreases |pieces|
  {
    if |pieces| > 0 {
      var n := |pieces| - 1;
      var prefix := pieces[..n];
      var kept, idx := DropEmpty(prefix), KeptIndices(prefix);
      DropEmptyKeepsOrder(prefix);
      forall k | 0 <= k < |kept|
        ensures kept[k] == pieces[idx[k]]
      {
        assert prefix[idx[k]] == pieces[idx[k]];
      }
      var tail := if pieces[n] == "" then [] else [pieces[n]];
      var tailIdx: seq<nat> := if pieces[n] == "" then [] else [n];
      assert DropEmpty(pieces) == kept + tail;
      assert KeptIndices(pieces) == idx + tailIdx;
    }
  }

  /** No position is kept exactly when every piece is empty. */
  lemma NothingKeptIffAllEmpty(pieces: seq<string>)
    ensures |KeptIndices(pieces)| == 0 <==> AllEmpty(pieces)
  {
    var idx := KeptIndices(pieces);
    if |idx| > 0 {
      assert pieces[idx[0]] != "";
    }
  }

  /** The length of the longest trimmable prefix. */
  function Lead(s: string): (n: nat)
    ensures n <= |s|
    ensures forall i :: 0 <= i < n ==> IsTrimmable(s[i])
    ensures n < |s| ==> !IsTrimmable(s[n])
    decreases |s|
  {
    if |s| == 0 || !IsTrimmable(s[0]) then 0 else 1 + Lead(s[1..])
  }

  /** The length of the longest trimmable suffix. */
  function Trail(s: string): (n: nat)
    ensures n <= |s|
    ensures forall i :: |s| - n <= i < |s| ==> IsTrimmable(s[i])
    ensures n < |s| ==> !IsTrimmable(s[|s| - 1 - n])
    decreases |s|
  {
    if |s| == 0 || !IsTrimmable(s[|s| - 1]) then 0 else 1 + Trail(s[..|s| - 1])
  }

  lemma LeadUnique(s: string, n: nat)
    requires n <= |s|
    requires forall i :: 0 <= i < n ==> IsTrimmable(s[i])
    requires n < |s| ==> !IsTrimmable(s[n])
    ensures Lead(s) == n
  {
  }

  lemma TrailUnique(s: string, n: nat)
    requires n <= |s|
    requires forall i :: |s| - n <= i < |s| ==> IsTrimmable(s[i])
    requires n < |s| ==> !IsTrimmable(s[|s| - 1 - n])
    ensures Trail(s) == n
  {
  }

  /** `String.prototype.trim`: the middle of `s` once the trimmable ends are cut. */
  function Trim(s: string): (r: string)
    ensures IsTrimmed(r)
    ensures Lead(s) + |r| <= |s| && r == s[Lead(s)..Lead(s) + |r|]
    ensures AllTrimmable(s[..Lead(s)]) && AllTrimmable(s[Lead(s) + |r|..])
  {
    var t := s[Lead(s)..];
    t[..|t| - Trail(t)]
  }

  /** Trim is determined by its contract: whatever trimmable text surrounds a
      trimmed middle, Trim returns exactly that middle. */
  lemma TrimExact(a: string, m: string, b: string)
    requires AllTrimmable(a) && AllTrimmable(b) && IsTrimmed(m)
    ensures Trim(a + m + b) == m
  {
    var s := a + m + b;
    if |m| == 0 {
      assert AllTrimmable(s);
      LeadUnique(s, |s|);
    } else {
      assert s[|a|] == m[0];
      LeadUnique(s, |a|);
      var t := s[|a|..];
      assert t == m + b;
      assert t[|t| - 1 - |b|] == m[|m| - 1];
      TrailUnique(t, |b|);
      assert t[..|t| - |b|] == m;
    }
  }

  /** Trimming twice changes nothing more. */
  lemma TrimIdempotent(s: string)
    ensures Trim(Trim(s)) == Trim(s)
  {
    assert "" + Trim(s) + "" == Trim(s);
    TrimExact("", Trim(s), "");
  }

  /** A piece made only of whitespace trims to the empty string. */
  lemma TrimBlank(s: string)
    requires AllTrimmable(s)
    ensures Trim(s) == ""
  {
    assert s + "" + "" == s;
    TrimExact(s, "", "");
  }

  /** Why `loadTokens` ends the process: no token was left. */
  datatype LoadError = NoTokensFound

  predicate AllEmpty(pieces: seq<string>) {
    forall i :: 0 <= i < |pieces| ==> pieces[i] == ""
  }

  /** `loadTokens`: the setting (None when TOKENS is unset) split on ',',
      empty pieces dropped, survivors trimmed. The drop happens before the
      trim, so a whitespace-only piece survives as "". */
  function LoadTokens(setting: Option<string>): (r: Result<seq<string>, LoadError>)
    ensures setting.None? ==> r == Failure(NoTokensFound)
    ensures r.Failure? <==> setting.None? || AllEmpty(Split(setting.value, Separator))
    ensures r.Success? ==>
              && setting.Some?
              && var pieces := Split(setting.value, Separator);
              && var idx := KeptIndices(pieces);
              && |r.value| == |idx| > 0
              && forall k :: 0 <= k < |idx| ==> r.value[k] == Trim(pieces[idx[k]])
  {
    match setting
    case None => Failure(NoTokensFound)
    case Some(s) =>
      var pieces := Split(s, Separator);
      var kept := DropEmpty(pieces);
      DropEmptyKeepsOrder(pieces);
      NothingKeptIffAllEmpty(pieces);
      if |kept| == 0 then Failure(NoTokensFound)
      else Success(seq(|kept|, k requires 0 <= k < |kept| => Trim(kept[k])))
  }

  /** Every loaded token is trimmed. */
  lemma LoadedTokensAreTrimmed(setting: Option<string>)
    ensures LoadTokens(setting).Success? ==>
              forall k :: 0 <= k < |LoadTokens(setting).value| ==> IsTrimmed(LoadTokens(setting).value[k])
  {
  }

  /** Pieces are not trimmed before the empty ones are dropped: a blank entry
      between two commas becomes an empty token instead of disappearing. */
  lemma {:induction false} BlankPieceBecomesEmptyToken(setting: Option<string>, i: nat)
    requires setting.Some?
    requires i < |Split(setting.value, Separator)|
    requires Split(setting.value, Separator)[i] != ""
    requires AllTrimmable(Split(setting.value, Separator)[i])
    ensures LoadTokens(setting).Success?
    ensures "" in LoadTokens(setting).value
  {
    var pieces := Split(setting.value, Separator);
    var idx := KeptIndices(pieces);
    var k :| 0 <= k < |idx| && idx[k] == i;
    TrimBlank(pieces[i]);
    assert LoadTokens(setting).value[k] == "";
  }

  /** An unset, empty or comma-only setting leaves no token. */
  lemma NoTokensExamples()
    ensures LoadTokens(None).Failure?
    ensures LoadTokens(Some("")).Failure?
    ensures LoadTokens(Some(",,")).Failure?
  {
    assert Split("", ',') == [""];
    SplitJoin(["", "", ""], ',');
    assert Join(["", "", ""], ',') == ",,";
  }
}
