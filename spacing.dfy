/** `computeSpacingStyle` of frontend/src/theme/utils.ts (lines 487-508):
    translate a CSS shorthand such as "sm 0 lg" token by token through the
    theme's spacing table. */
module Spacing {
  import opened ThemeTypes

  /** The characters the regular expression class `\s` matches: ECMAScript
      white space and line terminators. */
  predicate IsWhitespace(c: char)
  {
    || c == '\t' || c == '\n' || c == '\U{000B}' || c == '\U{000C}' || c == '\r' || c == ' '
    || c == '\U{00A0}' || c == '\U{1680}' || ('\U{2000}' <= c <= '\U{200A}')
    || c == '\U{2028}' || c == '\U{2029}' || c == '\U{202F}' || c == '\U{205F}'
    || c == '\U{3000}' || c == '\U{FEFF}'
  }

  predicate NoWhitespace(s: string)
  {
    forall i | 0 <= i < |s| :: !IsWhitespace(s[i])
  }

  /** The length of the longest prefix of `s` free of whitespace. */
  function TokenLength(s: string): (n: nat)
    ensures n <= |s|
    ensures NoWhitespace(s[..n])
    ensures n < |s| ==> IsWhitespace(s[n])
  {
    if s == [] || IsWhitespace(s[0]) then 0
    else
      var n := 1 + TokenLength(s[1..]);
      assert s[..n] == [s[0]] + s[1..][..n - 1];
      n
  }

  /** The length of the run of whitespace `s` starts with. */
  function RunLength(s: string): (n: nat)
    ensures n <= |s|
    ensures forall i | 0 <= i < n :: IsWhitespace(s[i])
    ensures n < |s| ==> !IsWhitespace(s[n])
  {
    if s == [] || !IsWhitespace(s[0]) then 0 else 1 + RunLength(s[1..])
  }

  /** `s.split(/\s+/)`: the pieces between maximal runs of whitespace. A
      leading or trailing run yields an empty first or last piece, and the
      empty string yields one empty piece. */
  function Split(s: string): (tokens: seq<string>)
    ensures |tokens| >= 1
    ensures forall i | 0 <= i < |tokens| :: NoWhitespace(tokens[i])
    ensures forall i | 0 < i < |tokens| - 1 :: tokens[i] != ""
    ensures s != "" && !IsWhitespace(s[0]) ==> tokens[0] != ""
    decreases |s|
  {
    var n := TokenLength(s);
    if n == |s| then
      assert s[..n] == s;
      [s]
    else
      var rest := s[n..];
      var m := RunLength(rest);
      var tail := Split(rest[m..]);
      assert |tail| >= 2 ==> tail[0] != "";
      [s[..n]] + tail
  }

  predicate AllWhitespace(s: string)
  {
    forall i | 0 <= i < |s| :: IsWhitespace(s[i])
  }

  /** `tokens[0] + seps[0] + tokens[1] + ... + tokens[|seps|]`. */
  function Interleave(tokens: seq<string>, seps: seq<string>): string
    requires |tokens| == |seps| + 1
    decreases |seps|
  {
    if seps == [] then tokens[0] else tokens[0] + seps[0] + Interleave(tokens[1..], seps[1..])
  }

  lemma InterleaveCons(t0: string, tail: seq<string>, w0: string, seps: seq<string>)
    requires |tail| == |seps| + 1
    ensures Interleave([t0] + tail, [w0] + seps) == t0 + w0 + Interleave(tail, seps)
  {
    assert ([t0] + tail)[1..] == tail;
    assert ([w0] + seps)[1..] == seps;
  }

  /** One step of `Split`: the first token, then the (non-empty) run of
      whitespace after it, then the split of what follows the run. */
  lemma SplitStep(s: string, n: nat, m: nat)
    requires n == TokenLength(s) < |s| && m == RunLength(s[n..])
    ensures 1 <= m && AllWhitespace(s[n..][..m])
    ensures Split(s) == [s[..n]] + Split(s[n..][m..])
  {
    assert s[n..][0] == s[n];
  }

  lemma ThreeParts(s: string, n: nat, m: nat)
    requires n + m <= |s|
    ensures s == s[..n] + s[n..][..m] + s[n..][m..]
  {
    assert s[..n] + s[n..][..m] == s[..n + m];
    assert s[n..][m..] == s[n + m..];
  }

  /** The pieces are the text of `s`: putting back the non-empty whitespace
      runs between them rebuilds `s` exactly. With the shape `Split` ensures,
      this fixes the pieces uniquely. */
  lemma {:induction false} SplitRebuilds(s: string) returns (seps: seq<string>)
    ensures |seps| == |Split(s)| - 1
    ensures forall i | 0 <= i < |seps| :: seps[i] != "" && AllWhitespace(seps[i])
    ensures Interleave(Split(s), seps) == s
    decreases |s|
  {
    var n := TokenLength(s);
    if n == |s| {
      assert s[..n] == s;
      seps := [];
    } else {
      var rest := s[n..];
      var m := RunLength(rest);
      SplitStep(s, n, m);
      ThreeParts(s, n, m);
      var sub := SplitRebuilds(rest[m..]);
      seps := [rest[..m]] + sub;
      InterleaveCons(s[..n], Split(rest[m..]), rest[..m], sub);
    }
  }

  /** `parts.join(sep)`. */
  function Join(parts: seq<string>, sep: string): string
  {
    if parts == [] then ""
    else if |parts| == 1 then parts[0]
    else parts[0] + sep + Join(parts[1..], sep)
  }

  lemma {:induction false} JoinStartsWithFirst(parts: seq<string>, sep: string)
    requires |parts| >= 1
    ensures |Join(parts, sep)| >= |parts[0]|
    ensures Join(parts, sep)[..|parts[0]|] == parts[0]
  {
    if |parts| > 1 {
      var j := Join(parts, sep);
      assert j == parts[0] + (sep + Join(parts[1..], sep));
    }
  }

  /** A whitespace-free piece followed by whitespace (or by nothing) is read
      as one token. */
  lemma {:induction false} TokenLengthOfPiece(piece: string, rest: string)
    requires NoWhitespace(piece)
    requires rest == "" || IsWhitespace(rest[0])
    ensures TokenLength(piece + rest) == |piece|
  {
    if piece != [] {
      assert (piece + rest)[1..] == piece[1..] + rest;
      TokenLengthOfPiece(piece[1..], rest);
    }
  }

  /** Split undoes a join with single spaces of non-empty, whitespace-free pieces. */
  lemma {:induction false} SplitJoin(parts: seq<string>)
    requires |parts| >= 1
    requires forall i | 0 <= i < |parts| :: parts[i] != "" && NoWhitespace(parts[i])
    ensures Split(Join(parts, " ")) == parts
    decreases |parts|
  {
    var s := Join(parts, " ");
    var t0 := parts[0];
    if |parts| == 1 {
      assert s == t0 + "";
      TokenLengthOfPiece(t0, "");
    } else {
      var j := Join(parts[1..], " ");
      assert s == t0 + (" " + j);
      TokenLengthOfPiece(t0, " " + j);
      var rest := s[|t0|..];
      assert rest == " " + j;
      JoinStartsWithFirst(parts[1..], " ");
      assert parts[1..][0] == parts[1] && parts[1] != "";
      assert j[0] == parts[1][0];
      assert !IsWhitespace(rest[1]);
      assert RunLength(rest) == 1;
      assert rest[1..] == j;
      SplitJoin(parts[1..]);
      assert s[..|t0|] == t0;
      assert Split(s) == [t0] + parts[1..];
    }
  }

  /** The value one token of the shorthand stands for: "0" and every name the
      table lacks become `spacing.none`; a known name becomes its table value. */
  function SpacingValue(spacing: Palette, token: string): string
    requires "none" in spacing
  {
    if token == "0" then spacing["none"]
    else if token !in spacing then spacing["none"]
    else spacing[token]
  }

  /** `computeSpacingStyle`. */
  function ComputeSpacingStyle(value: string, theme: Theme): string
    requires "none" in theme.spacing
  {
    if value == "" then ""
    else
      var tokens := Split(value);
      Join(seq(|tokens|, i requires 0 <= i < |tokens| => SpacingValue(theme.spacing, tokens[i])), " ")
  }

  /** The empty value stays empty; any other value becomes one table value per
      whitespace-separated token, joined by single spaces. */
  lemma SpacingStyleEntries(value: string, theme: Theme)
    requires "none" in theme.spacing
    ensures value == "" ==> ComputeSpacingStyle(value, theme) == ""
    ensures value != "" ==> exists entries: seq<string> ::
      && |entries| == |Split(value)|
      && (forall i | 0 <= i < |entries| :: entries[i] ==
            if Split(value)[i] == "0" || Split(value)[i] !in theme.spacing then theme.spacing["none"]
            else theme.spacing[Split(value)[i]])
      && ComputeSpacingStyle(value, theme) == Join(entries, " ")
  {
    if value != "" {
      var tokens := Split(value);
      var entries := seq(|tokens|, i requires 0 <= i < |tokens| => SpacingValue(theme.spacing, tokens[i]));
      assert ComputeSpacingStyle(value, theme) == Join(entries, " ");
    }
  }

  /** With a table whose values are single CSS lengths (non-empty, no
      whitespace), splitting the result on whitespace gives back exactly one
      entry per input token, in order. */
  lemma SpacingStyleTokenwise(value: string, theme: Theme)
    requires "none" in theme.spacing
    requires forall k | k in theme.spacing :: theme.spacing[k] != "" && NoWhitespace(theme.spacing[k])
    requires value != ""
    ensures var out := Split(ComputeSpacingStyle(value, theme));
      && |out| == |Split(value)|
      && forall i | 0 <= i < |out| :: out[i] == SpacingValue(theme.spacing, Split(value)[i])
  {
    var tokens := Split(value);
    var entries := seq(|tokens|, i requires 0 <= i < |tokens| => SpacingValue(theme.spacing, tokens[i]));
    SplitJoin(entries);
  }
}
