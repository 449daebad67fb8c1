/**
 * Normalisation of the ENVSET block (main.py, lines 20-24): every literal
 * two-character sequence backslash, `n` becomes a real line break, as
 * Python's `str.replace('\\n', '\n')` does, guarded by the test
 * `'\\n' in env_vars_content`.
 */
module EnvBlock {
  import opened Strings

  /** The two characters backslash and `n`. */
  const Escape: string := ['\\', 'n']

  /** The literal escape starts at offset `i` of `s`. */
  predicate EscapeAt(s: string, i: int) {
    0 <= i && i + 1 < |s| && s[i] == '\\' && s[i + 1] == 'n'
  }

  predicate EscapeFree(s: string) {
    forall i :: 0 <= i < |s| ==> !EscapeAt(s, i)
  }

  /** How many offsets of `s` start an escape (occurrences cannot overlap). */
  function CountEscapes(s: string): nat {
    if |s| < 2 then 0
    else (if EscapeAt(s, 0) then 1 else 0) + CountEscapes(s[1..])
  }

  /**
   * Python's `s.replace('\\n', '\n')`: a left-to-right scan replacing each
   * escape by one newline character.
   */
  function ReplaceEscapes(s: string): (r: string)
    ensures |r| <= |s|
    decreases |s|
  {
    if |s| == 0 then ""
    else if EscapeAt(s, 0) then "\n" + ReplaceEscapes(s[2..])
    else [s[0]] + ReplaceEscapes(s[1..])
  }

  /** Each escape shrinks to one character; every other character is kept. */
  lemma {:induction false} ReplaceEscapesLength(s: string)
    ensures |ReplaceEscapes(s)| == |s| - CountEscapes(s)
    decreases |s|
  {
    if |s| >= 2 && EscapeAt(s, 0) {
      assert !EscapeAt(s, 1);
      assert s[1..][1..] == s[2..];
      ReplaceEscapesLength(s[2..]);
    } else if |s| > 0 {
      ReplaceEscapesLength(s[1..]);
    }
  }

  /** No escape survives the replacement. */
  lemma {:induction false} ReplaceEscapesRemovesAll(s: string)
    ensures EscapeFree(ReplaceEscapes(s))
    decreases |s|
  {
    if |s| > 0 {
      var r := ReplaceEscapes(s);
      var tail := if EscapeAt(s, 0) then s[2..] else s[1..];
      var rest := ReplaceEscapes(tail);
      ReplaceEscapesRemovesAll(tail);
      assert r == [r[0]] + rest;
      forall i | 0 <= i < |r|
        ensures !EscapeAt(r, i)
      {
        if i > 0 {
          assert !EscapeAt(rest, i - 1);
        }
      }
    }
  }

  /** Lines 23-24 as written: the replacement only runs when the escape occurs. */
  function Normalize(s: string): (r: string)
    ensures EscapeFree(r)
    ensures |r| == |s| - CountEscapes(s)
  {
    if Contains(s, Escape) then
      ReplaceEscapesRemovesAll(s);
      ReplaceEscapesLength(s);
      ReplaceEscapes(s)
    else
      NoEscapeFound(s);
      s
  }

  // ---------------------------------------------------------------------

  /** The guard of line 23 holds exactly when some offset starts an escape. */
  lemma ContainsEscapeIff(s: string)
    ensures Contains(s, Escape) <==> !EscapeFree(s)
  {
    ContainsIffOccurs(s, Escape);
    if !EscapeFree(s) {
      var i :| 0 <= i < |s| && EscapeAt(s, i);
      assert s[i..i + 2] == Escape;
      assert OccursAt(s, Escape, i);
    }
    if exists i: nat :: OccursAt(s, Escape, i) {
      var i: nat :| OccursAt(s, Escape, i);
      assert s[i..i + 2][0] == s[i] && s[i..i + 2][1] == s[i + 1];
      assert EscapeAt(s, i);
    }
  }

  lemma NoEscapeFound(s: string)
    requires !Contains(s, Escape)
    ensures CountEscapes(s) == 0
    ensures EscapeFree(s)
  {
    ContainsEscapeIff(s);
    EscapeFreeCountsNone(s);
  }

  lemma {:induction false} EscapeFreeCountsNone(s: string)
    requires EscapeFree(s)
    ensures CountEscapes(s) == 0
    decreases |s|
  {
    if |s| >= 2 {
      assert forall i :: EscapeAt(s[1..], i) ==> EscapeAt(s, i + 1);
      EscapeFreeCountsNone(s[1..]);
    }
  }

  /** A block without the escape passes through the replacement unchanged. */
  lemma {:induction false} ReplaceEscapesKeepsFree(s: string)
    requires EscapeFree(s)
    ensures ReplaceEscapes(s) == s
    decreases |s|
  {
    if |s| > 0 {
      assert !EscapeAt(s, 0);
      assert forall i :: EscapeAt(s[1..], i) ==> EscapeAt(s, i + 1);
      ReplaceEscapesKeepsFree(s[1..]);
    }
  }

  /** The guard of line 23 does not change the result: it only skips a no-op. */
  lemma NormalizeIsReplace(s: string)
    ensures Normalize(s) == ReplaceEscapes(s)
  {
    if !Contains(s, Escape) {
      ContainsEscapeIff(s);
      ReplaceEscapesKeepsFree(s);
    }
  }

  /** Normalising twice is normalising once. */
  lemma NormalizeIdempotent(s: string)
    ensures Normalize(Normalize(s)) == Normalize(s)
  {
    NormalizeIsReplace(Normalize(s));
    ReplaceEscapesKeepsFree(Normalize(s));
  }

  /**
   * The replacement works piecewise, provided the cut does not split an
   * escape (a backslash ending `a` while `b` starts with `n`).
   */
  lemma {:induction false} ReplaceEscapesAppend(a: string, b: string)
    requires !(|a| > 0 && a[|a| - 1] == '\\' && |b| > 0 && b[0] == 'n')
    ensures ReplaceEscapes(a + b) == ReplaceEscapes(a) + ReplaceEscapes(b)
    decreases |a|
  {
    if |a| == 0 {
      assert a + b == b;
    } else if EscapeAt(a, 0) {
      var a' := a[2..];
      assert |a'| > 0 ==> a'[|a'| - 1] == a[|a| - 1];
      ReplaceEscapesAppend(a', b);
      AppendAfterEscape(a, b);
    } else {
      var a' := a[1..];
      assert |a'| > 0 ==> a'[|a'| - 1] == a[|a| - 1];
      ReplaceEscapesAppend(a', b);
      assert a == [a[0]] + a';
      assert |a'| > 0 ==> (a' + b)[0] == a'[0];
      AppendAfterPlain(a[0], a', b);
    }
  }

  /** The inductive step of `ReplaceEscapesAppend` when `a` starts with the escape. */
  lemma {:induction false} AppendAfterEscape(a: string, b: string)
    requires EscapeAt(a, 0)
    requires ReplaceEscapes(a[2..] + b) == ReplaceEscapes(a[2..]) + ReplaceEscapes(b)
    ensures ReplaceEscapes(a + b) == ReplaceEscapes(a) + ReplaceEscapes(b)
  {
    var x, y := ReplaceEscapes(a[2..]), ReplaceEscapes(b);
    assert ReplaceEscapes(a + b) == "\n" + (x + y) by {
      var ab := a + b;
      assert EscapeAt(ab, 0) && ab[2..] == a[2..] + b;
      ReplaceEscapesAtEscape(ab);
    }
    assert ReplaceEscapes(a) == "\n" + x by {
      ReplaceEscapesAtEscape(a);
    }
    Strings.Reassociate("\n", x, y);
  }

  /** An escape at the front becomes one line break, and the replacement continues after it. */
  lemma {:induction false} ReplaceEscapesAtEscape(s: string)
    requires EscapeAt(s, 0)
    ensures ReplaceEscapes(s) == "\n" + ReplaceEscapes(s[2..])
  {
  }

  /** A character that does not open an escape with its successor is copied as is. */
  lemma {:induction false} ReplaceEscapesCons(c: char, t: string)
    requires !(c == '\\' && |t| > 0 && t[0] == 'n')
    ensures ReplaceEscapes([c] + t) == [c] + ReplaceEscapes(t)
  {
    assert ([c] + t)[1..] == t;
  }

  /** The inductive step of `ReplaceEscapesAppend` when `a` is `[c] + a'` and `c` opens no escape. */
  lemma {:induction false} AppendAfterPlain(c: char, a': string, b: string)
    requires !(c == '\\' && |a'| > 0 && a'[0] == 'n')
    requires !(c == '\\' && |a' + b| > 0 && (a' + b)[0] == 'n')
    requires ReplaceEscapes(a' + b) == ReplaceEscapes(a') + ReplaceEscapes(b)
    ensures ReplaceEscapes([c] + a' + b) == ReplaceEscapes([c] + a') + ReplaceEscapes(b)
  {
    var x, y := ReplaceEscapes(a'), ReplaceEscapes(b);
    ReplaceEscapesCons(c, a');
    ReplaceEscapesCons(c, a' + b);
    assert [c] + a' + b == [c] + (a' + b);
    assert [c] + (x + y) == ([c] + x) + y;
  }

  /**
   * Lines separated by the literal escape come out separated by real line
   * breaks, each line unchanged and in the same order.
   */
  lemma {:induction false} NormalizeSplitsLines(lines: seq<string>)
    requires forall k :: 0 <= k < |lines| ==> EscapeFree(lines[k])
    ensures Normalize(JoinWith(lines, Escape)) == JoinWith(lines, "\n")
    decreases |lines|
  {
    var joined := JoinWith(lines, Escape);
    NormalizeIsReplace(joined);
    if |lines| == 1 {
      ReplaceEscapesKeepsFree(lines[0]);
    } else if |lines| > 1 {
      var head, tail := lines[0], JoinWith(lines[1..], Escape);
      var rest := JoinWith(lines[1..], "\n");
      assert joined == head + (Escape + tail);
      assert ReplaceEscapes(joined) == head + ReplaceEscapes(Escape + tail) by {
        ReplaceEscapesAppend(head, Escape + tail);
        ReplaceEscapesKeepsFree(head);
      }
      assert ReplaceEscapes(Escape + tail) == "\n" + ReplaceEscapes(tail) by {
        assert EscapeAt(Escape + tail, 0) && (Escape + tail)[2..] == tail;
        ReplaceEscapesAtEscape(Escape + tail);
      }
      assert ReplaceEscapes(tail) == rest by {
        NormalizeSplitsLines(lines[1..]);
        NormalizeIsReplace(tail);
      }
      assert JoinWith(lines, "\n") == head + ("\n" + rest);
    }
  }
}
