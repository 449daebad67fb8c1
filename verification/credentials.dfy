/**
 * Parsing of the combined GitHub credential variable (main.py, lines 9-16):
 * the value is stripped, split on runs of whitespace, and the first two
 * tokens become the username and the password; with fewer than two tokens
 * both are empty.
 */
module Credentials {
  import opened Environ
  import opened Strings

  /**
   * Python's `str.isspace()` for one character, which is what `str.split()`
   * and `str.strip()` without arguments break on: general category Zs or
   * bidirectional class WS, B or S.
   */
  predicate IsSpace(c: char) {
    || ('\t' <= c <= '\r')                // U+0009 .. U+000D
    || ('\U{001C}' <= c <= '\U{001F}')    // information separators
    || c == ' '
    || c == '\U{0085}' || c == '\U{00A0}' || c == '\U{1680}'
    || ('\U{2000}' <= c <= '\U{200A}')
    || c == '\U{2028}' || c == '\U{2029}' || c == '\U{202F}' || c == '\U{205F}'
    || c == '\U{3000}'
  }

  predicate NoSpace(s: string) {
    forall i :: 0 <= i < |s| ==> !IsSpace(s[i])
  }

  /** Every character of `s` is whitespace (`s` may be empty). */
  predicate AllSpace(s: string) {
    forall i :: 0 <= i < |s| ==> IsSpace(s[i])
  }

  /** A token of `str.split()`: non-empty and free of whitespace. */
  predicate IsWord(w: string) {
    |w| > 0 && NoSpace(w)
  }

  /** The length of the longest whitespace-free prefix of `s`. */
  function WordLength(s: string): (n: nat)
    ensures n <= |s|
    ensures NoSpace(s[..n])
    ensures n < |s| ==> IsSpace(s[n])
  {
    if |s| == 0 || IsSpace(s[0]) then 0
    else
      var n := 1 + WordLength(s[1..]);
      assert s[..n] == [s[0]] + s[1..][..n - 1];
      n
  }

  /** Python's `s.split()`: the maximal whitespace-free runs of `s`, in order. */
  function Tokens(s: string): (ts: seq<string>)
    ensures forall k :: 0 <= k < |ts| ==> IsWord(ts[k])
    decreases |s|
  {
    if |s| == 0 then []
    else if IsSpace(s[0]) then Tokens(s[1..])
    else
      var n := WordLength(s);
      [s[..n]] + Tokens(s[n..])
  }

  /** Python's `s.lstrip()`. */
  function TrimStart(s: string): (r: string)
    ensures |r| <= |s| && r == s[|s| - |r|..]
    ensures forall i :: 0 <= i < |s| - |r| ==> IsSpace(s[i])
    ensures |r| > 0 ==> !IsSpace(r[0])
  {
    if |s| > 0 && IsSpace(s[0]) then TrimStart(s[1..]) else s
  }

  /** Python's `s.rstrip()`. */
  function TrimEnd(s: string): (r: string)
    ensures |r| <= |s| && r == s[..|r|]
    ensures forall i :: |r| <= i < |s| ==> IsSpace(s[i])
    ensures |r| > 0 ==> !IsSpace(r[|r| - 1])
  {
    if |s| > 0 && IsSpace(s[|s| - 1]) then TrimEnd(s[..|s| - 1]) else s
  }

  /** Python's `s.strip()`: neither end of the result is whitespace. */
  function Strip(s: string): (r: string)
    ensures |r| <= |s|
    ensures |r| > 0 ==> !IsSpace(r[0]) && !IsSpace(r[|r| - 1])
  {
    var t := TrimStart(s);
    var r := TrimEnd(t);
    assert |r| > 0 ==> r[0] == t[0];
    r
  }

  /** What `lstrip()` drops is a whitespace prefix; what it keeps is the rest. */
  lemma {:induction false} TrimStartDropsSpace(s: string)
    ensures var k := |s| - |TrimStart(s)|; TrimStart(s) == s[k..] && AllSpace(s[..k])
  {
    var k := |s| - |TrimStart(s)|;
    forall i | 0 <= i < k
      ensures IsSpace(s[..k][i])
    {
      assert s[..k][i] == s[i];
    }
  }

  /** What `rstrip()` drops is a whitespace suffix; what it keeps is the rest. */
  lemma {:induction false} TrimEndDropsSpace(t: string)
    ensures var n := |TrimEnd(t)|; TrimEnd(t) == t[..n] && AllSpace(t[n..])
  {
    var n := |TrimEnd(t)|;
    forall i | 0 <= i < |t| - n
      ensures IsSpace(t[n..][i])
    {
      assert t[n..][i] == t[n + i];
    }
  }

  /** `strip()` keeps a contiguous middle part of its input, unchanged, starting where `lstrip()` stops. */
  lemma {:induction false} StripKeepsMiddle(s: string)
    ensures var k, r := |s| - |TrimStart(s)|, Strip(s); k + |r| <= |s| && r == s[k..k + |r|]
  {
    var t := TrimStart(s);
    assert Strip(s) == TrimEnd(t);
    assert Strip(s) == t[..|Strip(s)|];
    SliceOfSuffix(s, t, Strip(s), |s| - |t|);
  }

  /** What `strip()` cuts off either end of its input is whitespace. */
  lemma {:induction false} StripDropsOnlySpace(s: string)
    ensures var k, n := |s| - |TrimStart(s)|, |Strip(s)|; k + n <= |s| && AllSpace(s[..k]) && AllSpace(s[k + n..])
  {
    var t := TrimStart(s);
    var k, r := |s| - |t|, TrimEnd(t);
    assert |Strip(s)| == |r|;
    assert AllSpace(s[..k]) by { TrimStartDropsSpace(s); }
    assert AllSpace(s[k + |r|..]) by {
      TrimEndDropsSpace(t);
      SliceOfSuffix(s, t, r, k);
    }
  }

  /** A prefix `r` of the suffix `t == s[k..]` sits in `s` at `k`, and what follows it in `s` is what follows it in `t`. */
  lemma SliceOfSuffix(s: string, t: string, r: string, k: nat)
    requires k <= |s| && t == s[k..] && |r| <= |t| && r == t[..|r|]
    ensures k + |r| <= |s| && r == s[k..k + |r|] && s[k + |r|..] == t[|r|..]
  { }

  /** The characters of `s` that are not whitespace, in order. */
  function NonSpace(s: string): string {
    if |s| == 0 then ""
    else if IsSpace(s[0]) then NonSpace(s[1..])
    else [s[0]] + NonSpace(s[1..])
  }

  // ---------------------------------------------------------------------
  // Properties of the split

  lemma {:induction false} NonSpaceAppend(a: string, b: string)
    ensures NonSpace(a + b) == NonSpace(a) + NonSpace(b)
    decreases |a|
  {
    if |a| > 0 {
      assert (a + b)[1..] == a[1..] + b;
      NonSpaceAppend(a[1..], b);
    } else {
      assert a + b == b;
    }
  }

  lemma {:induction false} NonSpaceOfWord(w: string)
    requires NoSpace(w)
    ensures NonSpace(w) == w
    decreases |w|
  {
    if |w| > 0 {
      NonSpaceOfWord(w[1..]);
    }
  }

  /** Splitting loses exactly the whitespace: the tokens glued together are the input without its whitespace. */
  lemma {:induction false} TokensKeepAllText(s: string)
    ensures JoinWith(Tokens(s), "") == NonSpace(s)
    decreases |s|
  {
    if |s| == 0 {
    } else if IsSpace(s[0]) {
      TokensKeepAllText(s[1..]);
    } else {
      var n := WordLength(s);
      TokensKeepAllText(s[n..]);
      assert Tokens(s)[1..] == Tokens(s[n..]);
      JoinUnseparated(Tokens(s));
      assert s == s[..n] + s[n..];
      NonSpaceAppend(s[..n], s[n..]);
      NonSpaceOfWord(s[..n]);
    }
  }

  lemma {:induction false} WordLengthAppend(w: string, t: string)
    requires NoSpace(w)
    ensures WordLength(w + t) == |w| + WordLength(t)
    decreases |w|
  {
    if |w| > 0 {
      assert (w + t)[1..] == w[1..] + t;
      WordLengthAppend(w[1..], t);
    } else {
      assert w + t == t;
    }
  }

  /** Joining whitespace-free words with single spaces and splitting again gives the words back. */
  lemma {:induction false} TokensOfJoin(ws: seq<string>)
    requires forall k :: 0 <= k < |ws| ==> IsWord(ws[k])
    ensures Tokens(JoinWith(ws, " ")) == ws
    decreases |ws|
  {
    if |ws| == 0 {
    } else if |ws| == 1 {
      TokensOfWord(ws[0]);
    } else {
      var w := ws[0];
      var rest := JoinWith(ws[1..], " ");
      var s := w + (" " + rest);
      assert JoinWith(ws, " ") == s;
      WordLengthAppend(w, " " + rest);
      assert WordLength(s) == |w|;
      assert s[..|w|] == w;
      assert s[|w|..] == " " + rest;
      assert (" " + rest)[1..] == rest;
      TokensOfJoin(ws[1..]);
    }
  }

  /** Whitespace in front of a string never changes its split. */
  lemma {:induction false} TokensSkipSpaces(sp: string, s: string)
    requires AllSpace(sp)
    ensures Tokens(sp + s) == Tokens(s)
    decreases |sp|
  {
    if |sp| == 0 {
      assert sp + s == s;
    } else {
      assert (sp + s)[1..] == sp[1..] + s;
      TokensSkipSpaces(sp[1..], s);
    }
  }

  /** A word that ends the string or is followed by whitespace is the next token. */
  lemma {:induction false} TokensWordThen(w: string, t: string)
    requires IsWord(w)
    requires |t| == 0 || IsSpace(t[0])
    ensures Tokens(w + t) == [w] + Tokens(t)
  {
    var s := w + t;
    WordLengthAppend(w, t);
    assert WordLength(t) == 0;
    assert s[0] == w[0];
    assert s[..|w|] == w;
    assert s[|w|..] == t;
  }

  /** A single word splits to itself. */
  lemma TokensOfWord(w: string)
    requires IsWord(w)
    ensures Tokens(w) == [w]
  {
    TokensWordThen(w, "");
    assert w + "" == w;
  }

  /**
   * A word followed by any non-empty run of whitespace is split off as one
   * token, whatever the run is made of (spaces, tabs, line breaks, ...).
   */
  lemma TokensOfSeparatedWord(w: string, sep: string, rest: string)
    requires IsWord(w)
    requires |sep| > 0 && AllSpace(sep)
    ensures Tokens(w + sep + rest) == [w] + Tokens(rest)
  {
    TokensWordThen(w, sep + rest);
    TokensSkipSpaces(sep, rest);
    assert w + sep + rest == w + (sep + rest);
  }

  /** Leading whitespace never changes the split. */
  lemma {:induction false} TokensIgnoreLeadingSpace(s: string)
    ensures Tokens(TrimStart(s)) == Tokens(s)
    decreases |s|
  {
    if |s| > 0 && IsSpace(s[0]) {
      TokensIgnoreLeadingSpace(s[1..]);
    }
  }

  lemma {:induction false} WordLengthBeforeSpace(a: string, c: char)
    requires IsSpace(c)
    ensures WordLength(a + [c]) == WordLength(a)
    decreases |a|
  {
    if |a| > 0 && !IsSpace(a[0]) {
      assert (a + [c])[1..] == a[1..] + [c];
      WordLengthBeforeSpace(a[1..], c);
    } else if |a| == 0 {
      assert a + [c] == [c];
    }
  }

  /** One trailing whitespace character never changes the split. */
  lemma {:induction false} TokensIgnoreTrailingChar(a: string, c: char)
    requires IsSpace(c)
    ensures Tokens(a + [c]) == Tokens(a)
    decreases |a|
  {
    if |a| == 0 {
      assert a + [c] == [c];
      assert [c][1..] == [];
    } else if IsSpace(a[0]) {
      assert (a + [c])[1..] == a[1..] + [c];
      TokensIgnoreTrailingChar(a[1..], c);
    } else {
      var n := WordLength(a);
      WordLengthBeforeSpace(a, c);
      assert (a + [c])[..n] == a[..n];
      assert (a + [c])[n..] == a[n..] + [c];
      TokensIgnoreTrailingChar(a[n..], c);
    }
  }

  /** Trailing whitespace never changes the split. */
  lemma {:induction false} TokensIgnoreTrailingSpace(s: string)
    ensures Tokens(TrimEnd(s)) == Tokens(s)
    decreases |s|
  {
    if |s| > 0 && IsSpace(s[|s| - 1]) {
      var a := s[..|s| - 1];
      assert s == a + [s[|s| - 1]];
      TokensIgnoreTrailingChar(a, s[|s| - 1]);
      TokensIgnoreTrailingSpace(a);
    }
  }

  /** The `strip()` before `split()` is redundant. */
  lemma StripKeepsTokens(s: string)
    ensures Tokens(Strip(s)) == Tokens(s)
  {
    TokensIgnoreTrailingSpace(TrimStart(s));
    TokensIgnoreLeadingSpace(s);
  }

  // ---------------------------------------------------------------------
  // The credential pair

  datatype Credentials = Credentials(username: string, password: string)

  /** Credentials when GT_PW is unset or holds fewer than two tokens. */
  const Anonymous := Credentials("", "")

  /**
   * `os.environ.get('GT_PW', '').strip().split()`, then the first two tokens,
   * or two empty strings.
   */
  function ParseCredentials(gtPw: Variable): (c: Credentials)
    ensures c.username == "" <==> c.password == ""
    ensures c != Anonymous ==> IsWord(c.username) && IsWord(c.password)
  {
    var ts := Tokens(Strip(gtPw.Get("")));
    if |ts| >= 2 then Credentials(ts[0], ts[1]) else Anonymous
  }

  /** With at least two tokens the first two are taken and the rest ignored. */
  lemma ParseTakesFirstTwoTokens(raw: string)
    requires |Tokens(raw)| >= 2
    ensures ParseCredentials(Set(raw)) == Credentials(Tokens(raw)[0], Tokens(raw)[1])
  {
    StripKeepsTokens(raw);
  }

  /** With fewer than two tokens, or with GT_PW unset, both fields are empty. */
  lemma ParseTooFewTokens(raw: string)
    requires |Tokens(raw)| < 2
    ensures ParseCredentials(Set(raw)) == Anonymous
    ensures ParseCredentials(Unset) == Anonymous
  {
    StripKeepsTokens(raw);
  }

  /** The warning of line 14 is printed exactly when the parsed credentials are the two empty strings. */
  lemma WarnsExactlyWhenAnonymous(gtPw: Variable)
    ensures ParseCredentials(gtPw) == Anonymous <==> |Tokens(Strip(gtPw.Get("")))| < 2
  {
    var ts := Tokens(Strip(gtPw.Get("")));
    if |ts| >= 2 {
      assert IsWord(ts[0]);
    }
  }

  /** `"<user> <password> [extra ...]"` parses back to the user and the password. */
  lemma ParseRoundTrip(ws: seq<string>)
    requires |ws| >= 2
    requires forall k :: 0 <= k < |ws| ==> IsWord(ws[k])
    ensures ParseCredentials(Set(JoinWith(ws, " "))) == Credentials(ws[0], ws[1])
  {
    TokensOfJoin(ws);
    ParseTakesFirstTwoTokens(JoinWith(ws, " "));
  }

  /**
   * `GT_PW` as `<space> <user> <space> <password> [<space> ...]`, where each
   * `<space>` is any whitespace run (the one between the two words
   * non-empty), parses to that user and password.
   */
  lemma {:induction false} ParseSeparatedPair(lead: string, user: string, sep: string, password: string, tail: string)
    requires AllSpace(lead) && |sep| > 0 && AllSpace(sep)
    requires IsWord(user) && IsWord(password)
    requires |tail| == 0 || IsSpace(tail[0])
    ensures ParseCredentials(Set(lead + user + sep + password + tail)) == Credentials(user, password)
  {
    var raw := lead + user + sep + password + tail;
    var rest := password + tail;
    var body := user + sep + rest;
    assert raw == lead + body by {
      Reassociate(lead + user + sep, password, tail);
      Reassociate(lead, user, sep);
      Reassociate(lead, user + sep, rest);
    }
    assert Tokens(raw) == Tokens(body) by {
      TokensSkipSpaces(lead, body);
    }
    assert Tokens(body) == [user] + Tokens(rest) by {
      TokensOfSeparatedWord(user, sep, rest);
    }
    assert Tokens(rest) == [password] + Tokens(tail) by {
      TokensWordThen(password, tail);
    }
    ParseTakesFirstTwoTokens(raw);
  }
}
