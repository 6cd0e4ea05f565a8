/** Whitespace tokenising of a monitor command line, as `strings.Fields`
    does it for the `parseInput` of monitor.go: the line is split around
    runs of white space into its non-empty words. Lines are byte strings;
    the white-space bytes are the ASCII ones. */
module Words {
  import opened Basics

  /** Tab, line feed, vertical tab, form feed, carriage return, space. */
  predicate IsSpace(b: Byte)
  {
    b == 9 || b == 10 || b == 11 || b == 12 || b == 13 || b == 32
  }

  /** A word: non-empty and free of white space. */
  predicate IsWord(w: seq<Byte>)
  {
    |w| > 0 && forall i | 0 <= i < |w| :: !IsSpace(w[i])
  }

  predicate AllSpace(s: seq<Byte>)
  {
    forall i | 0 <= i < |s| :: IsSpace(s[i])
  }

  /** Length of the leading run of non-space bytes. */
  function WordLength(s: seq<Byte>): (n: nat)
    ensures n <= |s|
    ensures forall i | 0 <= i < n :: !IsSpace(s[i])
    ensures n < |s| ==> IsSpace(s[n])
  {
    if s == [] || IsSpace(s[0]) then 0 else 1 + WordLength(s[1..])
  }

  /** The words of `s`, in order. */
  function Fields(s: seq<Byte>): (r: seq<seq<Byte>>)
    ensures forall k | 0 <= k < |r| :: IsWord(r[k])
    decreases |s|
  {
    if s == [] then []
    else if IsSpace(s[0]) then Fields(s[1..])
    else
      var n := WordLength(s);
      [s[..n]] + Fields(s[n..])
  }

  /** A line laid out as the words `ws` with the white-space runs `gaps`
      around them: `gaps[0]` before the first word, `gaps[k]` between
      words `k - 1` and `k`, and the last gap after the last word. */
  function Layout(ws: seq<seq<Byte>>, gaps: seq<seq<Byte>>): seq<Byte>
    requires |gaps| == |ws| + 1
    decreases |ws|
  {
    if ws == [] then gaps[0] else gaps[0] + ws[0] + Layout(ws[1..], gaps[1..])
  }

  /** The gaps of a layout of `ws`: white space only, and never empty
      between two words. The gaps at either end may be empty. */
  predicate Separates(ws: seq<seq<Byte>>, gaps: seq<seq<Byte>>)
  {
    && |gaps| == |ws| + 1
    && (forall k | 0 <= k < |gaps| :: AllSpace(gaps[k]))
    && (forall k | 0 < k < |ws| :: |gaps[k]| > 0)
  }

  /** All the bytes of the words, end to end. */
  function Concat(ws: seq<seq<Byte>>): seq<Byte>
  {
    if ws == [] then [] else ws[0] + Concat(ws[1..])
  }

  /** The non-space bytes of `s`, in order. */
  function NonSpace(s: seq<Byte>): seq<Byte>
  {
    if s == [] then [] else (if IsSpace(s[0]) then [] else [s[0]]) + NonSpace(s[1..])
  }

  /** A line yields no words exactly when it is blank. */
  lemma {:induction false} FieldsEmptyIffBlank(s: seq<Byte>)
    ensures Fields(s) == [] <==> AllSpace(s)
    decreases |s|
  {
    if s != [] && IsSpace(s[0]) {
      FieldsEmptyIffBlank(s[1..]);
      assert AllSpace(s) <==> AllSpace(s[1..]) by {
        if AllSpace(s[1..]) {
          forall i | 0 <= i < |s| ensures IsSpace(s[i]) {
            if i > 0 { assert s[i] == s[1..][i - 1]; }
          }
        }
      }
    }
  }

  /** Tokenising drops exactly the white space: the words, end to end,
      are the non-space bytes of the line. */
  lemma {:induction false} FieldsKeepNonSpace(s: seq<Byte>)
    ensures Concat(Fields(s)) == NonSpace(s)
    decreases |s|
  {
    if s == [] {
    } else if IsSpace(s[0]) {
      FieldsKeepNonSpace(s[1..]);
    } else {
      var n := WordLength(s);
      FieldsKeepNonSpace(s[n..]);
      NonSpaceOfWord(s, n);
      assert Concat([s[..n]] + Fields(s[n..])) == s[..n] + Concat(Fields(s[n..]));
    }
  }

  /** The non-space bytes of a line that starts with a word of length `n`. */
  lemma {:induction false} NonSpaceOfWord(s: seq<Byte>, n: nat)
    requires n <= |s|
    requires forall i | 0 <= i < n :: !IsSpace(s[i])
    ensures NonSpace(s) == s[..n] + NonSpace(s[n..])
    decreases n
  {
    if n > 0 {
      NonSpaceOfWord(s[1..], n - 1);
      assert s[1..][n - 1..] == s[n..];
      assert s[..n] == [s[0]] + s[1..][..n - 1];
    }
  }

  /** A word followed by a space or by nothing is read back whole. */
  lemma {:induction false} WordLengthOfWord(w: seq<Byte>, rest: seq<Byte>)
    requires IsWord(w)
    requires rest == [] || IsSpace(rest[0])
    ensures WordLength(w + rest) == |w|
    decreases |w|
  {
    if |w| > 1 {
      assert (w + rest)[1..] == w[1..] + rest;
      WordLengthOfWord(w[1..], rest);
    } else {
      assert (w + rest)[1..] == rest;
    }
  }

  /** Leading white space yields no words. */
  lemma {:induction false} FieldsSkipSpace(sp: seq<Byte>, s: seq<Byte>)
    requires AllSpace(sp)
    ensures Fields(sp + s) == Fields(s)
    decreases |sp|
  {
    if sp == [] {
      assert sp + s == s;
    } else {
      assert (sp + s)[1..] == sp[1..] + s;
      FieldsSkipSpace(sp[1..], s);
    }
  }

  /** A word followed by white space or by nothing is the first field. */
  lemma FieldsOfWordFirst(w: seq<Byte>, rest: seq<Byte>)
    requires IsWord(w)
    requires rest == [] || IsSpace(rest[0])
    ensures Fields(w + rest) == [w] + Fields(rest)
  {
    WordLengthOfWord(w, rest);
    assert (w + rest)[..|w|] == w;
    assert (w + rest)[|w|..] == rest;
  }

  /** Round trip: however the words of a line are separated, and whatever
      white space surrounds them, tokenising gives back exactly those
      words. */
  lemma {:induction false} FieldsOfLayout(ws: seq<seq<Byte>>, gaps: seq<seq<Byte>>)
    requires forall k | 0 <= k < |ws| :: IsWord(ws[k])
    requires Separates(ws, gaps)
    ensures Fields(Layout(ws, gaps)) == ws
    decreases |ws|
  {
    if ws == [] {
      FieldsEmptyIffBlank(gaps[0]);
    } else {
      var rest := Layout(ws[1..], gaps[1..]);
      assert rest == [] || IsSpace(rest[0]) by {
        if |ws| > 1 {
          assert rest == gaps[1] + ws[1] + Layout(ws[2..], gaps[2..]);
          assert IsSpace(gaps[1][0]);
        } else {
          assert rest == gaps[1];
        }
      }
      assert Layout(ws, gaps) == gaps[0] + (ws[0] + rest);
      FieldsSkipSpace(gaps[0], ws[0] + rest);
      FieldsOfWordFirst(ws[0], rest);
      assert Separates(ws[1..], gaps[1..]) by {
        forall k | 0 < k < |ws| - 1 ensures |gaps[1..][k]| > 0 {
          assert gaps[1..][k] == gaps[k + 1];
        }
      }
      FieldsOfLayout(ws[1..], gaps[1..]);
    }
  }

  /** A white-space byte in front of a layout joins its first gap. */
  lemma SpaceJoinsFirstGap(ws: seq<seq<Byte>>, g: seq<seq<Byte>>, b: Byte) returns (gaps: seq<seq<Byte>>)
    requires IsSpace(b) && Separates(ws, g)
    ensures Separates(ws, gaps) && Layout(ws, gaps) == [b] + Layout(ws, g)
  {
    gaps := [[b] + g[0]] + g[1..];
    assert gaps[1..] == g[1..];
    assert AllSpace(gaps[0]) by {
      forall i | 0 <= i < |gaps[0]| ensures IsSpace(gaps[0][i]) {
        if i > 0 { assert gaps[0][i] == g[0][i - 1]; }
      }
    }
    assert forall k | 0 < k < |gaps| :: gaps[k] == g[k];
  }

  /** A word in front of a layout that starts with white space (or is
      empty) becomes its first word, with an empty gap before it. */
  lemma WordLeadsLayout(w: seq<Byte>, ws: seq<seq<Byte>>, g: seq<seq<Byte>>) returns (gaps: seq<seq<Byte>>)
    requires Separates(ws, g) && (ws != [] ==> g[0] != [])
    ensures Separates([w] + ws, gaps) && Layout([w] + ws, gaps) == w + Layout(ws, g)
  {
    gaps := [[]] + g;
    assert ([w] + ws)[1..] == ws;
    assert gaps[1..] == g;
    assert forall k | 0 < k < |gaps| :: gaps[k] == g[k - 1];
  }

  /** Every line is a layout of its own fields: the fields are the maximal
      runs of non-space bytes, and what lies between them is white space. */
  lemma {:induction false} LayoutOfFields(s: seq<Byte>)
    ensures exists gaps :: Separates(Fields(s), gaps) && Layout(Fields(s), gaps) == s
    decreases |s|
  {
    if s == [] {
      var gaps: seq<seq<Byte>> := [[]];
      assert Fields(s) == [];
      assert Separates(Fields(s), gaps) && Layout(Fields(s), gaps) == s;
    } else if IsSpace(s[0]) {
      LayoutOfFields(s[1..]);
      var ws := Fields(s[1..]);
      var g :| Separates(ws, g) && Layout(ws, g) == s[1..];
      var gaps := SpaceJoinsFirstGap(ws, g, s[0]);
      assert s == [s[0]] + s[1..];
      assert Separates(Fields(s), gaps) && Layout(Fields(s), gaps) == s;
    } else {
      var n := WordLength(s);
      LayoutOfFields(s[n..]);
      var ws := Fields(s[n..]);
      var g :| Separates(ws, g) && Layout(ws, g) == s[n..];
      if ws != [] && g[0] == [] {
        assert false;
      }
      var gaps := WordLeadsLayout(s[..n], ws, g);
      assert s[..n] + s[n..] == s;
      assert Separates(Fields(s), gaps) && Layout(Fields(s), gaps) == s;
    }
  }
}
