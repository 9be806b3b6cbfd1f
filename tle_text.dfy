/**
  Extraction of the two element lines from the raw `tle` string:
  split on CR LF, drop the segments that are empty or whitespace-only,
  keep the first two survivors unstripped.
*/
module TleText {
  import opened Common

  /** The separator the `tle` field is split on. */
  const Crlf: string := "\r\n"

  /** A CR immediately followed by an LF starts at position `i` of `s`. */
  predicate CrlfAt(s: string, i: int)
  {
    0 <= i && i + 1 < |s| && s[i] == '\r' && s[i + 1] == '\n'
  }

  predicate CrlfFree(s: string)
  {
    forall i :: 0 <= i < |s| ==> !CrlfAt(s, i)
  }

  /** Python's `s.split("\r\n")`: the pieces between the separators,
      scanning from the left; there is always at least one piece. */
  function Split(s: string): (parts: seq<string>)
    ensures |parts| >= 1
    decreases |s|
  {
    if |s| < 2 then [s]
    else if CrlfAt(s, 0) then [""] + Split(s[2..])
    else
      var rest := Split(s[1..]);
      [[s[0]] + rest[0]] + rest[1..]
  }

  /** Python's `"\r\n".join(parts)`, the inverse of `Split`. */
  function Join(parts: seq<string>): string
    requires |parts| >= 1
  {
    if |parts| == 1 then parts[0] else parts[0] + Crlf + Join(parts[1..])
  }

  /** Python's `str.isspace()` on one character: the characters that
      `str.strip()` with no argument removes. */
  predicate IsSpace(ch: char)
  {
    var n := ch as int;
    (9 <= n <= 13) || (28 <= n <= 32) || n == 0x85 || n == 0xA0 || n == 0x1680
    || (0x2000 <= n <= 0x200A) || n == 0x2028 || n == 0x2029 || n == 0x202F
    || n == 0x205F || n == 0x3000
  }

  /** `line.strip()` is the empty string, i.e. falsy. */
  predicate IsBlank(line: string)
  {
    forall i :: 0 <= i < |line| ==> IsSpace(line[i])
  }

  /** Every piece is blank, so nothing survives the filter. */
  predicate AllBlank(segments: seq<string>)
  {
    forall i :: 0 <= i < |segments| ==> IsBlank(segments[i])
  }

  /** `[line for line in segments if line.strip()]` */
  function NonBlank(segments: seq<string>): seq<string>
  {
    if segments == [] then []
    else if IsBlank(segments[0]) then NonBlank(segments[1..])
    else [segments[0]] + NonBlank(segments[1..])
  }

  /** `lines[k] if len(lines) > k else None` */
  function LineAt(lines: seq<string>, k: nat): Option<string>
  {
    if |lines| > k then Some(lines[k]) else None
  }

  /** The `line1` and `line2` fields of a TLE result. */
  function Line1(tle: string): Option<string>
  {
    LineAt(NonBlank(Split(tle)), 0)
  }

  function Line2(tle: string): Option<string>
  {
    LineAt(NonBlank(Split(tle)), 1)
  }

  /** `j` is the first segment that is not blank. */
  predicate FirstNonBlankAt(segments: seq<string>, j: int)
  {
    0 <= j < |segments| && !IsBlank(segments[j])
    && forall i :: 0 <= i < j ==> IsBlank(segments[i])
  }

  /** `j2` is the first segment after `j1` that is not blank. */
  predicate NextNonBlankAt(segments: seq<string>, j1: int, j2: int)
  {
    0 <= j1 < j2 < |segments| && !IsBlank(segments[j2])
    && forall i :: j1 < i < j2 ==> IsBlank(segments[i])
  }

  // ---------------------------------------------------------------------
  // Split and Join are inverse to each other.
  // ---------------------------------------------------------------------

  /** A character put in front of the first piece ends up in front of the
      joined string. */
  lemma {:induction false} JoinPrepend(c: char, parts: seq<string>)
    requires |parts| >= 1
    ensures Join([[c] + parts[0]] + parts[1..]) == [c] + Join(parts)
  {
    var q := [[c] + parts[0]] + parts[1..];
    assert q[0] == [c] + parts[0] && q[1..] == parts[1..];
    if |parts| > 1 {
      assert Join(q) == ([c] + parts[0]) + Crlf + Join(parts[1..]);
      assert ([c] + parts[0]) + Crlf + Join(parts[1..]) == [c] + (parts[0] + Crlf + Join(parts[1..]));
    }
  }

  /** Joining the pieces with CR LF gives back the split string. */
  lemma {:induction false} JoinSplit(s: string)
    ensures Join(Split(s)) == s
    decreases |s|
  {
    if |s| < 2 {
    } else if CrlfAt(s, 0) {
      JoinSplit(s[2..]);
      var parts := [""] + Split(s[2..]);
      assert parts[1..] == Split(s[2..]);
      assert s == Crlf + s[2..];
    } else {
      JoinSplit(s[1..]);
      JoinPrepend(s[0], Split(s[1..]));
      assert s == [s[0]] + s[1..];
    }
  }

  /** The first piece is a prefix of the split string. */
  lemma {:induction false} SplitHeadIsPrefix(s: string)
    ensures Split(s)[0] <= s
    decreases |s|
  {
    if |s| >= 2 && !CrlfAt(s, 0) {
      SplitHeadIsPrefix(s[1..]);
    }
  }

  /** No piece contains the separator. */
  lemma {:induction false} SplitPiecesCrlfFree(s: string)
    ensures forall k :: 0 <= k < |Split(s)| ==> CrlfFree(Split(s)[k])
    decreases |s|
  {
    if |s| < 2 {
      assert Split(s) == [s];
    } else if CrlfAt(s, 0) {
      SplitPiecesCrlfFree(s[2..]);
      assert Split(s)[1..] == Split(s[2..]);
    } else {
      var rest := Split(s[1..]);
      SplitPiecesCrlfFree(s[1..]);
      SplitHeadIsPrefix(s[1..]);
      var head := [s[0]] + rest[0];
      forall i | 0 <= i < |head|
        ensures !CrlfAt(head, i)
      {
        if i > 0 {
          assert !CrlfAt(rest[0], i - 1);
        } else if |rest[0]| > 0 {
          assert rest[0][0] == s[1];
        }
      }
      assert Split(s)[1..] == rest[1..];
    }
  }

  /** A piece without the separator splits into itself. */
  lemma {:induction false} SplitOfCrlfFree(p: string)
    requires CrlfFree(p)
    ensures Split(p) == [p]
    decreases |p|
  {
    if |p| >= 2 {
      assert !CrlfAt(p, 0);
      assert forall i :: 0 <= i < |p[1..]| ==> (CrlfAt(p[1..], i) ==> CrlfAt(p, i + 1));
      SplitOfCrlfFree(p[1..]);
      assert p == [p[0]] + p[1..];
    }
  }

  /** Splitting stops at the first separator after a separator-free piece. */
  lemma {:induction false} SplitAfterPiece(a: string, t: string)
    requires CrlfFree(a)
    ensures Split(a + Crlf + t) == [a] + Split(t)
    decreases |a|
  {
    var s := a + Crlf + t;
    if a == [] {
      assert CrlfAt(s, 0);
      assert s[2..] == t;
    } else {
      assert !CrlfAt(s, 0) by {
        if |a| >= 2 { assert !CrlfAt(a, 0); } else { assert s[1] == '\r'; }
      }
      assert forall i :: 0 <= i < |a[1..]| ==> (CrlfAt(a[1..], i) ==> CrlfAt(a, i + 1));
      assert s[1..] == a[1..] + Crlf + t;
      SplitAfterPiece(a[1..], t);
      assert a == [a[0]] + a[1..];
    }
  }

  /** Splitting a join of separator-free pieces gives the pieces back. */
  lemma {:induction false} SplitJoin(parts: seq<string>)
    requires |parts| >= 1
    requires forall k :: 0 <= k < |parts| ==> CrlfFree(parts[k])
    ensures Split(Join(parts)) == parts
  {
    if |parts| == 1 {
      SplitOfCrlfFree(parts[0]);
    } else {
      SplitJoin(parts[1..]);
      SplitAfterPiece(parts[0], Join(parts[1..]));
      assert parts == [parts[0]] + parts[1..];
    }
  }

  // ---------------------------------------------------------------------
  // The surviving lines are exactly the non-blank pieces, in order.
  // ---------------------------------------------------------------------

  /** Nothing survives exactly when every piece is blank. */
  lemma {:induction false} NonBlankEmpty(segments: seq<string>)
    ensures NonBlank(segments) == [] <==> forall i :: 0 <= i < |segments| ==> IsBlank(segments[i])
  {
    if segments != [] {
      NonBlankEmpty(segments[1..]);
      assert forall i :: 1 <= i < |segments| ==> segments[i] == segments[1..][i - 1];
    }
  }

  /** The survivors start with the first non-blank piece, followed by the
      survivors of what comes after it. */
  lemma {:induction false} NonBlankFrom(segments: seq<string>, j: int)
    requires FirstNonBlankAt(segments, j)
    ensures NonBlank(segments) == [segments[j]] + NonBlank(segments[j + 1..])
    decreases j
  {
    if j > 0 {
      assert FirstNonBlankAt(segments[1..], j - 1);
      NonBlankFrom(segments[1..], j - 1);
      assert segments[1..][j..] == segments[j + 1..];
    }
  }

  /** A non-blank piece at `i` means a first non-blank piece exists. */
  lemma {:induction false} FirstNonBlankExists(segments: seq<string>, i: int)
    requires 0 <= i < |segments| && !IsBlank(segments[i])
    ensures exists j :: FirstNonBlankAt(segments, j)
    decreases i
  {
    if forall k :: 0 <= k < i ==> IsBlank(segments[k]) {
      assert FirstNonBlankAt(segments, i);
    } else {
      var k :| 0 <= k < i && !IsBlank(segments[k]);
      FirstNonBlankExists(segments, k);
    }
  }

  /** `line1` is absent exactly when every piece is blank, and otherwise
      is the first non-blank piece, unstripped. */
  lemma {:induction false} FirstLine(segments: seq<string>)
    ensures LineAt(NonBlank(segments), 0).None? <==> AllBlank(segments)
    ensures forall j :: FirstNonBlankAt(segments, j) ==> LineAt(NonBlank(segments), 0) == Some(segments[j])
  {
    NonBlankEmpty(segments);
    forall j | FirstNonBlankAt(segments, j)
      ensures LineAt(NonBlank(segments), 0) == Some(segments[j])
    {
      NonBlankFrom(segments, j);
    }
  }

  /** `line2` is absent exactly when fewer than two pieces are non-blank,
      and otherwise is the second non-blank piece, unstripped. */
  lemma {:induction false} SecondLine(segments: seq<string>)
    ensures LineAt(NonBlank(segments), 1).None?
            <==> forall i, j :: 0 <= i < j < |segments| ==> IsBlank(segments[i]) || IsBlank(segments[j])
    ensures forall j1, j2 :: FirstNonBlankAt(segments, j1) && NextNonBlankAt(segments, j1, j2)
              ==> LineAt(NonBlank(segments), 1) == Some(segments[j2])
  {
    forall j1, j2 | FirstNonBlankAt(segments, j1) && NextNonBlankAt(segments, j1, j2)
      ensures LineAt(NonBlank(segments), 1) == Some(segments[j2])
    {
      NonBlankFrom(segments, j1);
      var after := segments[j1 + 1..];
      assert FirstNonBlankAt(after, j2 - j1 - 1);
      NonBlankFrom(after, j2 - j1 - 1);
    }
    if |NonBlank(segments)| >= 2 {
      // two non-blank pieces exist
      NonBlankEmpty(segments);
      var i0 :| 0 <= i0 < |segments| && !IsBlank(segments[i0]);
      FirstNonBlankExists(segments, i0);
      var j1 :| FirstNonBlankAt(segments, j1);
      NonBlankFrom(segments, j1);
      var after := segments[j1 + 1..];
      NonBlankEmpty(after);
      var k :| 0 <= k < |after| && !IsBlank(after[k]);
      assert !IsBlank(segments[j1]) && !IsBlank(segments[j1 + 1 + k]);
    } else {
      forall i, j | 0 <= i < j < |segments|
        ensures IsBlank(segments[i]) || IsBlank(segments[j])
      {
        if !IsBlank(segments[i]) {
          if !IsBlank(segments[j]) {
            TwoNonBlank(segments, i, j);
          }
        }
      }
    }
  }

  /** Two non-blank pieces mean at least two survivors. */
  lemma {:induction false} TwoNonBlank(segments: seq<string>, i: int, j: int)
    requires 0 <= i < j < |segments| && !IsBlank(segments[i]) && !IsBlank(segments[j])
    ensures |NonBlank(segments)| >= 2
  {
    FirstNonBlankExists(segments, i);
    var j1 :| FirstNonBlankAt(segments, j1);
    NonBlankFrom(segments, j1);
    var after := segments[j1 + 1..];
    assert after[j - j1 - 1] == segments[j];
    NonBlankEmpty(after);
  }

  /** The example element set "L1\r\nL2\r\n" gives both lines. */
  lemma TwoLineExample()
    ensures Line1("L1\r\nL2\r\n") == Some("L1")
    ensures Line2("L1\r\nL2\r\n") == Some("L2")
  {
    assert CrlfFree("L1") && CrlfFree("L2");
    SplitAfterPiece("L2", "");
    assert "L2\r\n" == "L2" + Crlf + "";
    SplitAfterPiece("L1", "L2\r\n");
    assert "L1\r\nL2\r\n" == "L1" + Crlf + "L2\r\n";
    var pieces := ["L1", "L2", ""];
    assert Split("L1\r\nL2\r\n") == pieces;
    assert !IsBlank("L1") by { assert !IsSpace("L1"[0]); }
    assert !IsBlank("L2") by { assert !IsSpace("L2"[0]); }
    assert NonBlank(pieces[2..]) == [];
    assert NonBlank(pieces[1..]) == ["L2"] + NonBlank(pieces[2..]);
    assert NonBlank(pieces) == ["L1", "L2"];
  }

  /** A single non-blank piece leaves `line2` absent; a whitespace-only
      piece in front of it is dropped. */
  lemma OneLineExample()
    ensures Line1(" \t\r\nL1") == Some("L1")
    ensures Line2(" \t\r\nL1") == None
  {
    SplitAfterPiece(" \t", "L1");
    SplitOfCrlfFree("L1");
    assert " \t\r\nL1" == " \t" + Crlf + "L1";
    assert Split(" \t\r\nL1") == [" \t", "L1"];
    assert IsBlank(" \t");
  }
}
