/** Empty-line removal on the AI reply (src/routes/api.py:101-103):
    `os.linesep.join([s for s in text.splitlines() if s])`. */
module LineCleaning {

  /** `os.linesep` depends on the host: "\n" on POSIX, "\r\n" on Windows. */
  datatype Platform = Posix | Windows

  function LineSep(p: Platform): (sep: string)
    ensures sep == "\n" || sep == "\r\n"
  {
    match p
    case Posix => "\n"
    case Windows => "\r\n"
  }

  /** The characters at which `str.splitlines` breaks a line, with "\r\n"
      taken as one boundary:
        0x0A  \n      line feed
        0x0B  \v      line tabulation
        0x0C  \f      form feed
        0x0D  \r      carriage return
        0x1C  \x1c    file separator
        0x1D  \x1d    group separator
        0x1E  \x1e    record separator
        0x85  \x85    next line
        0x2028        line separator
        0x2029        paragraph separator */
  predicate IsLineBoundary(c: char)
    // Line feed and carriage return split lines; tab and printable ASCII never do.
    ensures c == '\n' || c == '\r' ==> IsLineBoundary(c)
    ensures c == '\t' || ' ' <= c <= '~' ==> !IsLineBoundary(c)
  {
    var k := c as int;
    k == 0x0A || k == 0x0B || k == 0x0C || k == 0x0D ||
    k == 0x1C || k == 0x1D || k == 0x1E || k == 0x85 ||
    k == 0x2028 || k == 0x2029
  }

  /** A line: text holding no boundary character. */
  predicate NoBoundary(s: string)
  {
    forall i :: 0 <= i < |s| ==> !IsLineBoundary(s[i])
  }

  /** Index of the first boundary character, or |s| if there is none. */
  function FirstBoundary(s: string): (i: nat)
    ensures i <= |s|
    ensures NoBoundary(s[..i])
    ensures i < |s| ==> IsLineBoundary(s[i])
  {
    if s == [] then 0
    else if IsLineBoundary(s[0]) then 0
    else
      var j := FirstBoundary(s[1..]);
      assert s[..1 + j] == [s[0]] + s[1..][..j];
      1 + j
  }

  /** Width of the boundary at i: two for "\r\n", else one. */
  function BoundaryWidth(s: string, i: nat): (w: nat)
    requires i < |s|
    ensures 1 <= w <= 2 && i + w <= |s|
    ensures w == 2 <==> i + 1 < |s| && s[i] == '\r' && s[i + 1] == '\n'
  {
    if s[i] == '\r' && i + 1 < |s| && s[i + 1] == '\n' then 2 else 1
  }

  /** `str.splitlines()`: no entry for text after a final boundary, none at all for "". */
  function SplitLines(s: string): (lines: seq<string>)
    ensures forall k :: 0 <= k < |lines| ==> NoBoundary(lines[k])
    decreases |s|
  {
    if s == [] then []
    else
      var i := FirstBoundary(s);
      if i == |s| then [s]
      else [s[..i]] + SplitLines(s[i + BoundaryWidth(s, i)..])
  }

  /** `[s for s in lines if s]` */
  function NonEmpty(lines: seq<string>): (r: seq<string>)
    ensures forall k :: 0 <= k < |r| ==> r[k] != ""
  {
    if lines == [] then []
    else if lines[0] == "" then NonEmpty(lines[1..])
    else [lines[0]] + NonEmpty(lines[1..])
  }

  /** The number of characters of the lines, separators not counted. */
  function LineChars(lines: seq<string>): nat
  {
    if lines == [] then 0 else |lines[0]| + LineChars(lines[1..])
  }

  /** `sep.join(lines)`: the lines in order, one separator between each two. */
  function Join(sep: string, lines: seq<string>): (r: string)
    ensures lines == [] ==> r == ""
    ensures lines != [] ==> |r| == LineChars(lines) + (|lines| - 1) * |sep|
  {
    if lines == [] then ""
    else if |lines| == 1 then lines[0]
    else lines[0] + sep + Join(sep, lines[1..])
  }

  /** The reply as the route forwards it to text-to-speech. */
  function CleanLines(p: Platform, text: string): (r: string)
    // The cleaned text is empty exactly when the input has no non-empty line.
    ensures r == "" <==> NonEmpty(SplitLines(text)) == []
  {
    Join(LineSep(p), NonEmpty(SplitLines(text)))
  }

  predicate Clean(lines: seq<string>)
  {
    forall k :: 0 <= k < |lines| ==> lines[k] != "" && NoBoundary(lines[k])
  }

  lemma {:induction false} FirstBoundaryAppend(l: string, t: string)
    requires NoBoundary(l)
    ensures FirstBoundary(l + t) == |l| + FirstBoundary(t)
    decreases |l|
  {
    if l != [] {
      assert (l + t)[1..] == l[1..] + t;
      FirstBoundaryAppend(l[1..], t);
    } else {
      assert l + t == t;
    }
  }

  /** A line containing no boundary splits into itself. */
  lemma SplitSingleLine(l: string)
    requires l != "" && NoBoundary(l)
    ensures SplitLines(l) == [l]
  {
    FirstBoundaryAppend(l, "");
    assert l + "" == l;
  }

  /** A line, possibly empty, ended by a one-character boundary splits off
      first; the rest of the text is split on its own. */
  lemma SplitLinesCons(l: string, b: char, t: string)
    requires NoBoundary(l) && IsLineBoundary(b)
    requires !(b == '\r' && t != [] && t[0] == '\n')
    ensures SplitLines(l + [b] + t) == [l] + SplitLines(t)
  {
    var bt := [b] + t;
    var s := l + bt;
    assert l + [b] + t == s;
    assert FirstBoundary(bt) == 0;
    FirstBoundaryAppend(l, bt);
    assert s[|l|] == b;
    assert BoundaryWidth(s, |l|) == 1;
    assert s[..|l|] == l;
    assert s[|l| + 1..] == t;
  }

  /** A line, possibly empty, ended by "\r\n" splits off first: the pair is
      one boundary, so no empty line appears between '\r' and '\n'. */
  lemma SplitLinesCRLF(l: string, t: string)
    requires NoBoundary(l)
    ensures SplitLines(l + "\r\n" + t) == [l] + SplitLines(t)
  {
    var s := l + "\r\n" + t;
    assert s == l + ("\r\n" + t);
    FirstBoundaryAppend(l, "\r\n" + t);
    assert s[|l|] == '\r' && s[|l| + 1] == '\n';
    assert s[..|l|] == l;
    assert s[|l| + 2..] == t;
  }

  /** The first line of a join of two or more clean lines splits off first. */
  lemma SplitJoinHead(p: Platform, lines: seq<string>)
    requires Clean(lines) && |lines| > 1
    ensures SplitLines(Join(LineSep(p), lines)) == [lines[0]] + SplitLines(Join(LineSep(p), lines[1..]))
  {
    var sep := LineSep(p);
    var l, rest := lines[0], lines[1..];
    var j := Join(sep, rest);
    var s := l + sep + j;
    assert Clean(rest);
    JoinHead(sep, rest);
    assert s == l + (sep + j);
    FirstBoundaryAppend(l, sep + j);
    assert FirstBoundary(s) == |l|;
    assert s[|l|] == sep[0];
    assert BoundaryWidth(s, |l|) == |sep| by {
      if sep == "\r\n" {
        assert s[|l| + 1] == '\n';
      }
    }
    assert s[|l| + |sep|..] == j;
    assert s[..|l|] == l;
  }

  /** Splitting undoes joining with a platform separator, for non-empty lines. */
  lemma {:induction false} SplitJoin(p: Platform, lines: seq<string>)
    requires Clean(lines)
    ensures SplitLines(Join(LineSep(p), lines)) == lines
    decreases |lines|
  {
    if |lines| == 1 {
      SplitSingleLine(lines[0]);
    } else if |lines| > 1 {
      SplitJoinHead(p, lines);
      assert Clean(lines[1..]);
      SplitJoin(p, lines[1..]);
      assert lines == [lines[0]] + lines[1..];
    }
  }

  /** A join of clean lines is non-empty and starts with its first line's first character. */
  lemma JoinHead(sep: string, lines: seq<string>)
    requires Clean(lines) && lines != []
    ensures Join(sep, lines) != "" && Join(sep, lines)[0] == lines[0][0]
  {
  }

  /** A join of clean lines ends with its last line's last character. */
  lemma {:induction false} JoinLast(sep: string, lines: seq<string>)
    requires Clean(lines) && lines != []
    ensures var j := Join(sep, lines); j != "" && j[|j| - 1] == lines[|lines| - 1][|lines[|lines| - 1]| - 1]
    decreases |lines|
  {
    if |lines| > 1 {
      assert Clean(lines[1..]);
      JoinLast(sep, lines[1..]);
    }
  }

  lemma {:induction false} NonEmptyIdempotent(lines: seq<string>)
    ensures NonEmpty(NonEmpty(lines)) == NonEmpty(lines)
    decreases |lines|
  {
    if lines != [] {
      NonEmptyIdempotent(lines[1..]);
      if lines[0] != "" {
        var r := [lines[0]] + NonEmpty(lines[1..]);
        assert r[1..] == NonEmpty(lines[1..]);
      }
    }
  }

  lemma {:induction false} NonEmptyKeepsLines(lines: seq<string>)
    requires forall k :: 0 <= k < |lines| ==> NoBoundary(lines[k])
    ensures Clean(NonEmpty(lines))
    decreases |lines|
  {
    if lines != [] {
      NonEmptyKeepsLines(lines[1..]);
    }
  }

  /** The filter of one line keeps it exactly when it is non-empty. */
  lemma NonEmptySingle(l: string)
    ensures NonEmpty([l]) == (if l == "" then [] else [l])
  {
    assert [l][1..] == [];
  }

  /** The filter distributes over concatenation, so it keeps the lines in
      their original order. */
  lemma {:induction false} NonEmptyAppend(a: seq<string>, b: seq<string>)
    ensures NonEmpty(a + b) == NonEmpty(a) + NonEmpty(b)
    decreases |a|
  {
    if a == [] {
      assert a + b == b;
    } else {
      assert (a + b)[0] == a[0];
      assert (a + b)[1..] == a[1..] + b;
      NonEmptyAppend(a[1..], b);
    }
  }

  /** A line survives the filter exactly when it is a non-empty line of the input. */
  lemma {:induction false} NonEmptyMembers(lines: seq<string>, l: string)
    ensures l in NonEmpty(lines) <==> l in lines && l != ""
    decreases |lines|
  {
    if lines != [] {
      NonEmptyMembers(lines[1..], l);
      assert lines == [lines[0]] + lines[1..];
    }
  }

  /** Joining one line gives that line, with no separator. */
  lemma JoinSingle(sep: string, l: string)
    ensures Join(sep, [l]) == l
  {
  }

  /** Joining two non-empty runs of lines puts exactly one separator between
      them: `sep` is the text placed between consecutive lines. */
  lemma {:induction false} JoinAppend(sep: string, a: seq<string>, b: seq<string>)
    requires a != [] && b != []
    ensures Join(sep, a + b) == Join(sep, a) + sep + Join(sep, b)
    decreases |a|
  {
    assert (a + b)[0] == a[0];
    assert (a + b)[1..] == a[1..] + b;
    if |a| > 1 {
      JoinAppend(sep, a[1..], b);
    }
  }

  /** Re-splitting the cleaned text gives back exactly the non-empty lines of
      the input, in their original order: the output has no empty line. */
  lemma LinesOfCleaned(p: Platform, text: string)
    ensures SplitLines(CleanLines(p, text)) == NonEmpty(SplitLines(text))
    ensures forall k :: 0 <= k < |SplitLines(CleanLines(p, text))| ==> SplitLines(CleanLines(p, text))[k] != ""
  {
    NonEmptyKeepsLines(SplitLines(text));
    SplitJoin(p, NonEmpty(SplitLines(text)));
  }

  /** Cleaning twice is cleaning once. */
  lemma CleanIdempotent(p: Platform, text: string)
    ensures CleanLines(p, CleanLines(p, text)) == CleanLines(p, text)
  {
    LinesOfCleaned(p, text);
    NonEmptyIdempotent(SplitLines(text));
  }

  /** No separator is added at either end: the cleaned text neither starts
      nor ends with a boundary character. */
  lemma CleanedEnds(p: Platform, text: string)
    ensures var c := CleanLines(p, text);
            c != "" ==> !IsLineBoundary(c[0]) && !IsLineBoundary(c[|c| - 1])
  {
    var lines := NonEmpty(SplitLines(text));
    NonEmptyKeepsLines(SplitLines(text));
    if lines != [] {
      JoinHead(LineSep(p), lines);
      JoinLast(LineSep(p), lines);
    }
  }
}
