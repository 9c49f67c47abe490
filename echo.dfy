/** The `echo` command of `src/shell/commands.rs`: it walks the whitespace-split
    arguments, appends each followed by one space, trims trailing whitespace and
    prints the line. The result is the arguments joined by single spaces. */
module Shell {

  /** `char::is_whitespace`: the characters with the Unicode White_Space property. */
  predicate IsWhitespace(c: char)
  {
    || ('\U{0009}' <= c <= '\U{000D}') || c == ' ' || c == '\U{0085}' || c == '\U{00A0}'
    || c == '\U{1680}' || ('\U{2000}' <= c <= '\U{200A}') || c == '\U{2028}' || c == '\U{2029}'
    || c == '\U{202F}' || c == '\U{205F}' || c == '\U{3000}'
  }

  /** What a whitespace split yields: a non-empty run of non-whitespace characters. */
  predicate IsToken(t: string)
  {
    |t| > 0 && forall i :: 0 <= i < |t| ==> !IsWhitespace(t[i])
  }

  predicate AllTokens(ts: seq<string>)
  {
    forall i :: 0 <= i < |ts| ==> IsToken(ts[i])
  }

  /** `str::trim_end`: the longest prefix that does not end in whitespace; everything
      cut off is whitespace. */
  function TrimEnd(s: string): (r: string)
    ensures r <= s
    ensures r == [] || !IsWhitespace(r[|r| - 1])
    ensures forall i :: |r| <= i < |s| ==> IsWhitespace(s[i])
    decreases |s|
  {
    if s != [] && IsWhitespace(s[|s| - 1]) then TrimEnd(s[..|s| - 1]) else s
  }

  /** Length of the first token of `s`: up to the first whitespace or the end. */
  function WordEnd(s: string): (n: nat)
    ensures n <= |s|
    ensures forall i :: 0 <= i < n ==> !IsWhitespace(s[i])
    ensures n < |s| ==> IsWhitespace(s[n])
    decreases |s|
  {
    if s == [] || IsWhitespace(s[0]) then 0 else 1 + WordEnd(s[1..])
  }

  /** `str::split_whitespace`: the maximal non-whitespace runs of `s`, in order. */
  function SplitWhitespace(s: string): (r: seq<string>)
    ensures AllTokens(r)
    decreases |s|
  {
    if s == [] then []
    else if IsWhitespace(s[0]) then SplitWhitespace(s[1..])
    else
      var n := WordEnd(s);
      [s[..n]] + SplitWhitespace(s[n..])
  }

  /** The tokens joined by single spaces. */
  function JoinSpaces(ts: seq<string>): string
    decreases |ts|
  {
    if ts == [] then ""
    else if |ts| == 1 then ts[0]
    else JoinSpaces(ts[..|ts| - 1]) + " " + ts[|ts| - 1]
  }

  /** Each token followed by one space: the text `echo` has built before trimming. */
  function Spaced(ts: seq<string>): string
    decreases |ts|
  {
    if ts == [] then "" else Spaced(ts[..|ts| - 1]) + ts[|ts| - 1] + " "
  }

  function SumLengths(ts: seq<string>): nat
    decreases |ts|
  {
    if ts == [] then 0 else SumLengths(ts[..|ts| - 1]) + |ts[|ts| - 1]|
  }

  /** `echo`: `args` is the text whose whitespace split the command receives. */
  method Echo(args: string) returns (line: string)
    ensures line == JoinSpaces(SplitWhitespace(args))
    ensures line == [] || !IsWhitespace(line[|line| - 1])
  {
    var tokens := SplitWhitespace(args);
    var output := "";
    var i := 0;
    while i < |tokens|
      invariant 0 <= i <= |tokens|
      invariant output == Spaced(tokens[..i])
    {
      output := output + tokens[i];
      output := output + " ";
      assert tokens[..i + 1][..i] == tokens[..i];
      i := i + 1;
    }
    assert tokens[..i] == tokens;
    line := TrimEnd(output);
    TrimEndRemovesLastSpace(tokens);
  }

  /** The built text is the joined tokens plus the one space after the last token. */
  lemma {:induction false} SpacedIsJoinedPlusSpace(ts: seq<string>)
    requires ts != []
    ensures Spaced(ts) == JoinSpaces(ts) + " "
    decreases |ts|
  {
    if |ts| > 1 {
      SpacedIsJoinedPlusSpace(ts[..|ts| - 1]);
    } else {
      assert ts[..0] == [];
    }
  }

  /** Joined tokens never end in whitespace: the last character is the last token's. */
  lemma JoinedEndsInToken(ts: seq<string>)
    requires ts != [] && AllTokens(ts)
    ensures |JoinSpaces(ts)| > 0
    ensures JoinSpaces(ts)[|JoinSpaces(ts)| - 1] == ts[|ts| - 1][|ts[|ts| - 1]| - 1]
  {
  }

  /** `trim_end` removes exactly the one space appended after the last token. */
  lemma TrimEndRemovesLastSpace(ts: seq<string>)
    requires AllTokens(ts)
    ensures TrimEnd(Spaced(ts)) == JoinSpaces(ts)
  {
    if ts != [] {
      SpacedIsJoinedPlusSpace(ts);
      JoinedEndsInToken(ts);
      var j := JoinSpaces(ts);
      assert (j + " ")[..|j + " "| - 1] == j;
    }
  }

  /** The output is as long as the tokens plus one separator between each two. */
  lemma {:induction false} JoinLength(ts: seq<string>)
    requires ts != []
    ensures |JoinSpaces(ts)| == SumLengths(ts) + |ts| - 1
    decreases |ts|
  {
    if |ts| > 1 {
      JoinLength(ts[..|ts| - 1]);
    } else {
      assert ts[..0] == [];
    }
  }

  /** Joining splits back at the front: the first token, one space, the rest joined. */
  lemma {:induction false} JoinFront(ts: seq<string>)
    requires |ts| >= 2
    ensures JoinSpaces(ts) == ts[0] + " " + JoinSpaces(ts[1..])
    decreases |ts|
  {
    if |ts| > 2 {
      var init := ts[..|ts| - 1];
      JoinFront(init);
      assert init[1..] == ts[1..][..|ts| - 2];
    }
  }

  /** The first token of `t + rest` is `t` when `t` is a token and `rest` begins with
      whitespace or is empty. */
  lemma WordEndOfToken(t: string, rest: string)
    requires IsToken(t)
    requires rest == [] || IsWhitespace(rest[0])
    ensures WordEnd(t + rest) == |t|
  {
    var s := t + rest;
    assert forall i :: 0 <= i < |t| ==> s[i] == t[i];
    assert |t| < |s| ==> s[|t|] == rest[0];
  }

  /** Round trip: splitting the joined tokens gives back exactly those tokens. */
  lemma {:induction false} SplitJoin(ts: seq<string>)
    requires AllTokens(ts)
    ensures SplitWhitespace(JoinSpaces(ts)) == ts
    decreases |ts|
  {
    if |ts| == 1 {
      var t := ts[0];
      WordEndOfToken(t, []);
      assert t + [] == t;
      assert t[|t|..] == [];
    } else if |ts| >= 2 {
      var t, j := ts[0], JoinSpaces(ts[1..]);
      JoinFront(ts);
      SplitJoin(ts[1..]);
      var s := t + " " + j;
      assert s == t + (" " + j);
      WordEndOfToken(t, " " + j);
      assert s[..|t|] == t;
      var tail := s[|t|..];
      assert tail == " " + j;
      assert tail[1..] == j;
      assert SplitWhitespace(tail) == SplitWhitespace(j);
      assert ts == [t] + ts[1..];
    }
  }

  /** The split of `s` is empty exactly when `s` is all whitespace. */
  lemma {:induction false} SplitEmptyIffBlank(s: string)
    ensures SplitWhitespace(s) == [] <==> forall i :: 0 <= i < |s| ==> IsWhitespace(s[i])
    decreases |s|
  {
    if s != [] && IsWhitespace(s[0]) {
      SplitEmptyIffBlank(s[1..]);
      assert forall i :: 1 <= i < |s| ==> s[i] == s[1..][i - 1];
    }
  }

  /** `echo` prints the empty line exactly when its argument text is blank. */
  lemma EchoEmptyIffBlank(args: string)
    ensures JoinSpaces(SplitWhitespace(args)) == "" <==> forall i :: 0 <= i < |args| ==> IsWhitespace(args[i])
  {
    SplitEmptyIffBlank(args);
    var ts := SplitWhitespace(args);
    if ts != [] {
      JoinedEndsInToken(ts);
    }
  }

  /** Leading whitespace never starts a token. */
  lemma {:induction false} SplitSkipsBlank(w: string, s: string)
    requires forall i :: 0 <= i < |w| ==> IsWhitespace(w[i])
    ensures SplitWhitespace(w + s) == SplitWhitespace(s)
    decreases |w|
  {
    if w != [] {
      SplitSkipsBlank(w[1..], s);
      assert (w + s)[1..] == w[1..] + s;
    } else {
      assert w + s == s;
    }
  }

  /** A token followed by whitespace (or by nothing) is split off whole. */
  lemma SplitToken(t: string, rest: string)
    requires IsToken(t)
    requires rest == [] || IsWhitespace(rest[0])
    ensures SplitWhitespace(t + rest) == [t] + SplitWhitespace(rest)
  {
    WordEndOfToken(t, rest);
    assert (t + rest)[..|t|] == t;
    assert (t + rest)[|t|..] == rest;
  }

  /** Runs of whitespace collapse: `echo a  b   c` prints `a b c`. */
  lemma EchoCollapsesRuns()
    ensures JoinSpaces(SplitWhitespace("a  b   c")) == "a b c"
  {
    SplitABC();
    JoinABC();
  }

  lemma SplitABC()
    ensures SplitWhitespace("a  b   c") == ["a", "b", "c"]
  {
    assert "a  b   c" == "a" + ("  " + ("b" + ("   " + "c")));
    SplitRuns("a", "b", "c", "  ", "   ");
  }

  /** Three tokens separated by runs of whitespace split into exactly those tokens. */
  lemma SplitRuns(a: string, b: string, c: string, w1: string, w2: string)
    requires IsToken(a) && IsToken(b) && IsToken(c)
    requires w1 != [] && forall i :: 0 <= i < |w1| ==> IsWhitespace(w1[i])
    requires w2 != [] && forall i :: 0 <= i < |w2| ==> IsWhitespace(w2[i])
    ensures SplitWhitespace(a + (w1 + (b + (w2 + c)))) == [a, b, c]
  {
    assert c + [] == c;
    SplitToken(c, []);
    SplitSkipsBlank(w2, c);
    SplitToken(b, w2 + c);
    SplitSkipsBlank(w1, b + (w2 + c));
    SplitToken(a, w1 + (b + (w2 + c)));
  }

  lemma JoinABC()
    ensures JoinSpaces(["a", "b", "c"]) == "a b c"
  {
    assert ["a", "b", "c"][..2] == ["a", "b"];
    assert ["a", "b"][..1] == ["a"];
  }
}
