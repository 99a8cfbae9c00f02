/**
 Reading a text artifact in pages of lines, and searching it (backend/app/runtime/artifact_backend.py, `read`, `grep`).
 */
module ArtifactPaging {
  import opened Outcomes
  import opened Utf8

  // ---------- lines ----------

  /** Where `str.splitlines` ends a line, besides at CR. */
  predicate IsBreak(c: char) {
    var n := c as int;
    0xA <= n <= 0xC || 0x1C <= n <= 0x1E || n == 0x85 || n == 0x2028 || n == 0x2029
  }

  /** Length of the first line with its end; CR and LF together end one line. */
  function FirstLine(s: string): (n: nat)
    requires s != ""
    ensures 0 < n <= |s|
  {
    if s[0] == '\r' then if |s| > 1 && s[1] == '\n' then 2 else 1
    else if IsBreak(s[0]) || |s| == 1 then 1
    else 1 + FirstLine(s[1..])
  }

  /** `s.splitlines(keepends=True)` */
  function SplitLines(s: string): seq<string>
    decreases |s|
  {
    if s == "" then [] else [s[..FirstLine(s)]] + SplitLines(s[FirstLine(s)..])
  }

  function Join(parts: seq<string>): string {
    if parts == [] then "" else parts[0] + Join(parts[1..])
  }

  lemma {:induction false} JoinAppend(a: seq<string>, b: seq<string>)
    ensures Join(a + b) == Join(a) + Join(b)
  {
    if a == [] {
      assert a + b == b;
    } else {
      assert (a + b)[1..] == a[1..] + b;
      JoinAppend(a[1..], b);
      assert a[0] + (Join(a[1..]) + Join(b)) == a[0] + Join(a[1..]) + Join(b);
    }
  }

  lemma {:induction false} LinesJoin(s: string)
    ensures Join(SplitLines(s)) == s
    decreases |s|
  {
    if s != "" {
      var n := FirstLine(s);
      LinesJoin(s[n..]);
      assert SplitLines(s)[1..] == SplitLines(s[n..]);
      assert s == s[..n] + s[n..];
    }
  }

  // ---------- what lines are ----------

  /** The characters at which a line may end; LF, VT, FF, FS, GS, RS, NEL, and the two Unicode separators, and CR. */
  predicate EndsLine(c: char) {
    c == '\r' || c as int in [0xA, 0xB, 0xC, 0x1C, 0x1D, 0x1E, 0x85, 0x2028, 0x2029]
  }

  /** How many characters at its end make up the line end: two for CR LF, one, or none. */
  function EndLength(line: string): nat {
    if |line| > 1 && line[|line| - 2] == '\r' && line[|line| - 1] == '\n' then 2
    else if line != "" && EndsLine(line[|line| - 1]) then 1
    else 0
  }

  /** A line holds something, and nothing before its end would end it. */
  predicate IsLine(line: string) {
    line != "" && forall k :: 0 <= k < |line| - EndLength(line) ==> !EndsLine(line[k])
  }

  /** Every line but the last has an end, and no CR is cut from its LF. */
  predicate AreLines(lines: seq<string>) {
    && (forall i :: 0 <= i < |lines| ==> IsLine(lines[i]))
    && (forall i :: 0 <= i < |lines| - 1 ==>
          EndLength(lines[i]) > 0 && !(lines[i][|lines[i]| - 1] == '\r' && lines[i + 1][0] == '\n'))
  }

  lemma {:induction false} FirstLineIsLine(s: string)
    requires s != ""
    ensures var n := FirstLine(s);
            && IsLine(s[..n])
            && (n < |s| ==> EndLength(s[..n]) > 0 && !(s[n - 1] == '\r' && s[n] == '\n'))
  {
    var n := FirstLine(s);
    if s[0] == '\r' || IsBreak(s[0]) || |s| == 1 {
      assert EndLength(s[..n]) == n || |s| == 1;
    } else {
      FirstLineIsLine(s[1..]);
      LongerLine(s[0], s[1..][..n - 1]);
      assert s[..n] == [s[0]] + s[1..][..n - 1];
    }
  }

  lemma LongerLine(c: char, line: string)
    requires IsLine(line) && !EndsLine(c)
    ensures IsLine([c] + line) && EndLength([c] + line) == EndLength(line)
  {
    var longer := [c] + line;
    assert forall k :: 0 < k < |longer| ==> longer[k] == line[k - 1];
    forall k | 0 <= k < |longer| - EndLength(longer)
      ensures !EndsLine(longer[k])
    {
    }
  }

  lemma {:induction false} SplitLinesAre(s: string)
    ensures AreLines(SplitLines(s)) && Join(SplitLines(s)) == s
    decreases |s|
  {
    LinesJoin(s);
    if s != "" {
      var n := FirstLine(s);
      FirstLineIsLine(s);
      SplitLinesAre(s[n..]);
      if n < |s| {
        JoinHead(SplitLines(s[n..]));
      }
      LinesBefore(s[..n], SplitLines(s[n..]));
    }
  }

  lemma LinesBefore(line: string, rest: seq<string>)
    requires IsLine(line) && AreLines(rest)
    requires rest != [] ==> EndLength(line) > 0 && !(line[|line| - 1] == '\r' && rest[0][0] == '\n')
    ensures AreLines([line] + rest)
  {
    hide IsLine, EndLength;
  }

  lemma JoinHead(lines: seq<string>)
    requires lines != [] && lines[0] != ""
    ensures Join(lines) == lines[0] + Join(lines[1..]) && Join(lines) != "" && Join(lines)[0] == lines[0][0]
  {
  }

  /** The first line is found wherever its text is cut off from what follows as a line is. */
  lemma {:induction false} FirstLineFound(line: string, rest: string)
    requires IsLine(line)
    requires rest != "" ==> EndLength(line) > 0 && !(line[|line| - 1] == '\r' && rest[0] == '\n')
    ensures FirstLine(line + rest) == |line|
  {
    var s := line + rest;
    assert s[0] == line[0] && |s| == |line| + |rest|;
    if |line| == 2 && EndLength(line) == 2 {
      assert s[1] == line[1];
    } else if |line| == 1 {
      assert rest != "" ==> s[1] == rest[0];
    } else {
      assert !EndsLine(line[0]);
      var shorter := line[1..];
      ShorterLine(line);
      FirstLineFound(shorter, rest);
      assert s[1..] == shorter + rest;
      NotFirst(s);
    }
  }

  lemma NotFirst(s: string)
    requires |s| > 1 && !EndsLine(s[0])
    ensures FirstLine(s) == 1 + FirstLine(s[1..])
  {
  }

  lemma ShorterLine(line: string)
    requires IsLine(line) && |line| > 1 && |line| > EndLength(line)
    ensures IsLine(line[1..]) && EndLength(line[1..]) == EndLength(line)
    ensures line[1..][|line| - 2] == line[|line| - 1]
  {
    var shorter := line[1..];
    assert forall k :: 0 <= k < |shorter| ==> shorter[k] == line[k + 1];
    forall k | 0 <= k < |shorter| - EndLength(shorter)
      ensures !EndsLine(shorter[k])
    {
    }
  }

  lemma HeadAndRest(lines: seq<string>)
    requires lines != [] && AreLines(lines)
    ensures IsLine(lines[0]) && lines[0] != "" && AreLines(lines[1..])
    ensures |lines| > 1 ==>
              EndLength(lines[0]) > 0 && lines[1] != "" && !(lines[0][|lines[0]| - 1] == '\r' && lines[1][0] == '\n')
  {
    hide EndLength;
  }

  lemma {:induction false} FirstLineOfJoin(lines: seq<string>)
    requires lines != [] && AreLines(lines)
    ensures lines[0] != "" && Join(lines) == lines[0] + Join(lines[1..]) && FirstLine(Join(lines)) == |lines[0]|
  {
    hide IsLine, EndLength, AreLines, FirstLine;
    HeadAndRest(lines);
    JoinHead(lines);
    if |lines| > 1 {
      JoinHead(lines[1..]);
    }
    FirstLineFound(lines[0], Join(lines[1..]));
  }

  /** Any cutting of a text into lines is the one the code makes. */
  lemma {:induction false} LinesAreUnique(lines: seq<string>)
    requires AreLines(lines)
    ensures SplitLines(Join(lines)) == lines
  {
    hide IsLine, EndLength, AreLines, FirstLine;
    if lines != [] {
      HeadAndRest(lines);
      LinesAreUnique(lines[1..]);
      FirstLineOfJoin(lines);
      var s := Join(lines);
      assert s[..|lines[0]|] == lines[0] && s[|lines[0]|..] == Join(lines[1..]);
      assert lines == [lines[0]] + lines[1..];
    }
  }

  // ---------- newlines ----------

  /** `s.replace("\r\n", "\n")` */
  function DropCr(s: string): string
    decreases |s|
  {
    if s == "" then ""
    else if |s| > 1 && s[0] == '\r' && s[1] == '\n' then "\n" + DropCr(s[2..])
    else [s[0]] + DropCr(s[1..])
  }

  /** `s.replace("\r", "\n")` */
  function CrToLf(s: string): string {
    if s == "" then "" else [if s[0] == '\r' then '\n' else s[0]] + CrToLf(s[1..])
  }

  function Newlines(s: string): string {
    CrToLf(DropCr(s))
  }

  /** The cut between two texts does not separate a CR from its LF. */
  predicate CleanCut(a: string, b: string) {
    !(a != "" && b != "" && a[|a| - 1] == '\r' && b[0] == '\n')
  }

  lemma {:induction false} CrToLfAppend(a: string, b: string)
    ensures CrToLf(a + b) == CrToLf(a) + CrToLf(b)
  {
    if a == "" {
      assert a + b == b;
    } else {
      assert (a + b)[1..] == a[1..] + b;
      CrToLfAppend(a[1..], b);
    }
  }

  lemma {:induction false} DropCrAppend(a: string, b: string)
    requires CleanCut(a, b)
    ensures DropCr(a + b) == DropCr(a) + DropCr(b)
    decreases |a|
  {
    if a == "" {
      assert a + b == b;
    } else {
      var n := if |a| > 1 && a[0] == '\r' && a[1] == '\n' then 2 else 1;
      assert (a + b)[n..] == a[n..] + b && (a + b)[0] == a[0];
      DropCrAppend(a[n..], b);
      var head := if n == 2 then "\n" else [a[0]];
      assert DropCr(a + b) == head + DropCr(a[n..] + b);
      assert head + (DropCr(a[n..]) + DropCr(b)) == head + DropCr(a[n..]) + DropCr(b);
    }
  }

  /** Turning line ends into newlines goes through a clean cut. */
  lemma NewlinesAppend(a: string, b: string)
    requires CleanCut(a, b)
    ensures Newlines(a + b) == Newlines(a) + Newlines(b)
  {
    DropCrAppend(a, b);
    CrToLfAppend(DropCr(a), DropCr(b));
  }

  lemma {:induction false} FirstLineCut(s: string)
    requires s != ""
    ensures CleanCut(s[..FirstLine(s)], s[FirstLine(s)..])
  {
    if s[0] != '\r' && !IsBreak(s[0]) && |s| > 1 {
      FirstLineCut(s[1..]);
      var n := FirstLine(s);
      assert s[1..][..n - 1] == s[..n][1..] && s[1..][n - 1..] == s[n..];
    }
  }

  /** Cutting a text at any line gives a clean cut: no line ends between a CR and its LF. */
  lemma {:induction false} LineCut(s: string, k: nat)
    requires k <= |SplitLines(s)|
    ensures CleanCut(Join(SplitLines(s)[..k]), Join(SplitLines(s)[k..]))
    decreases |s|
  {
    if s != "" && k > 0 {
      var n := FirstLine(s);
      var rest := SplitLines(s[n..]);
      assert SplitLines(s)[1..] == rest;
      LineCut(s[n..], k - 1);
      assert SplitLines(s)[..k][1..] == rest[..k - 1] && SplitLines(s)[k..] == rest[k - 1..];
      FirstLineCut(s);
      LinesJoin(s[n..]);
      assert rest[..0] == [] && rest[0..] == rest;
    }
  }

  lemma TailLines(s: string, k: nat)
    requires k <= |SplitLines(s)|
    ensures SplitLines(Join(SplitLines(s)[k..])) == SplitLines(s)[k..]
    decreases k
  {
    LinesJoin(s);
    if k > 0 {
      var n := FirstLine(s);
      assert SplitLines(s)[1..] == SplitLines(s[n..]);
      assert SplitLines(s)[k..] == SplitLines(s[n..])[k - 1..];
      TailLines(s[n..], k - 1);
    }
  }

  // ---------- reading ----------

  datatype ReadResult = Text(text: string) | Failed(why: string)

  /** Strict decoding: `None` where Python raises. */
  function DecodeStrict(data: seq<byte>): Option<string> {
    var s := DecodeIgnore(data);
    if Encode(s) == data then Some(s) else None
  }

  function Min(a: int, b: int): int {
    if a <= b then a else b
  }

  function ReadLines(lines: seq<string>, offset: int, limit: int): ReadResult
    requires limit > 0
  {
    var start := if offset < 0 then 0 else offset;
    if start >= |lines| && lines != [] then Failed("offset")
    else if lines == [] then Text("")
    else Text(Newlines(Join(lines[start..Min(start + limit, |lines|)])))
  }

  /** What reading stored bytes gives. */
  function ReadStored(data: seq<byte>, offset: int, limit: int): ReadResult {
    match DecodeStrict(data)
    case None => Failed("encoding")
    case Some(content) => if limit <= 0 then Text("") else ReadLines(SplitLines(content), offset, limit)
  }

  /** `read` of an artifact whose stored bytes have the digest they should. */
  method Read(data: seq<byte>, offset: int, limit: int) returns (r: ReadResult)
    ensures r == ReadStored(data, offset, limit)
  {
    var content := DecodeStrict(data);
    if content.None? {
      return Failed("encoding");
    }
    if limit <= 0 {
      return Text("");
    }
    var lines := SplitLines(content.value);
    var start := if offset < 0 then 0 else offset;
    if start >= |lines| && lines != [] {
      return Failed("offset");
    }
    // A Python slice stops at the end of the list wherever its bounds lie.
    var selected := if start >= |lines| then [] else lines[start..Min(start + limit, |lines|)];
    return Text(Newlines(Join(selected)));
  }

  type PageSize = n: int | n > 0 witness 1

  /** The text of consecutive pages of the given sizes, up to the first that lies past the end. */
  function Pages(lines: seq<string>, offset: nat, limits: seq<PageSize>): string
    decreases limits
  {
    if limits == [] then ""
    else match ReadLines(lines, offset, limits[0])
      case Text(text) => text + Pages(lines, offset + limits[0], limits[1..])
      case Failed(_) => ""
  }

  function Sum(limits: seq<PageSize>): nat {
    if limits == [] then 0 else limits[0] + Sum(limits[1..])
  }

  lemma {:induction false} PagesJoin(s: string, offset: nat, limits: seq<PageSize>)
    requires offset <= |SplitLines(s)| <= offset + Sum(limits)
    ensures Pages(SplitLines(s), offset, limits) == Newlines(Join(SplitLines(s)[offset..]))
    decreases limits
  {
    hide Newlines, Join, SplitLines;
    var lines := SplitLines(s);
    if offset == |lines| {
      NothingLeft(lines, offset, limits);
      NothingJoined();
      assert lines[offset..] == [];
    } else if limits != [] {
      var next := Min(offset + limits[0], |lines|);
      PageThenRest(s, offset, next);
      if next == offset + limits[0] {
        PagesJoin(s, next, limits[1..]);
      } else {
        NothingLeft(lines, offset + limits[0], limits[1..]);
        NothingJoined();
        assert lines[next..] == [];
      }
    }
  }

  lemma NothingJoined()
    ensures Newlines(Join([])) == ""
  {
  }

  lemma {:induction false} NothingLeft(lines: seq<string>, offset: nat, limits: seq<PageSize>)
    requires offset >= |lines|
    ensures Pages(lines, offset, limits) == ""
    decreases limits
  {
    if limits != [] && lines == [] {
      NothingLeft(lines, offset + limits[0], limits[1..]);
    }
  }

  lemma PageThenRest(s: string, from: nat, to: nat)
    requires from <= to <= |SplitLines(s)|
    ensures Newlines(Join(SplitLines(s)[from..])) ==
            Newlines(Join(SplitLines(s)[from..to])) + Newlines(Join(SplitLines(s)[to..]))
  {
    hide Newlines, Join, SplitLines;
    var lines := SplitLines(s);
    assert lines[from..] == lines[from..to] + lines[to..];
    JoinAppend(lines[from..to], lines[to..]);
    PageCut(s, from, to);
    NewlinesAppend(Join(lines[from..to]), Join(lines[to..]));
  }

  lemma PageCut(s: string, from: nat, to: nat)
    requires from <= to <= |SplitLines(s)|
    ensures CleanCut(Join(SplitLines(s)[from..to]), Join(SplitLines(s)[to..]))
  {
    var tail := Join(SplitLines(s)[from..]);
    TailLines(s, from);
    LineCut(tail, to - from);
    assert SplitLines(s)[from..][..to - from] == SplitLines(s)[from..to];
    assert SplitLines(s)[from..][to - from..] == SplitLines(s)[to..];
  }

  /**
   Whatever positive sizes the pages have, once they cover the lines their concatenation is the whole text with its
   CRs and CRLFs turned into newlines.
   */
  lemma PagesCoverText(s: string, limits: seq<PageSize>)
    requires |SplitLines(s)| <= Sum(limits)
    ensures Pages(SplitLines(s), 0, limits) == Newlines(s)
  {
    PagesJoin(s, 0, limits);
    LinesJoin(s);
    assert SplitLines(s)[0..] == SplitLines(s);
  }

  /** The texts of consecutive reads of stored bytes, up to the first that fails. */
  function StoredPages(data: seq<byte>, offset: nat, limits: seq<PageSize>): string
    decreases limits
  {
    if limits == [] then ""
    else match ReadStored(data, offset, limits[0])
      case Text(text) => text + StoredPages(data, offset + limits[0], limits[1..])
      case Failed(_) => ""
  }

  lemma {:induction false} StoredPagesAreOfLines(content: string, offset: nat, limits: seq<PageSize>)
    ensures StoredPages(Encode(content), offset, limits) == Pages(SplitLines(content), offset, limits)
    decreases limits
  {
    hide ReadLines, SplitLines, Encode;
    if limits != [] {
      DecodeEncode(content);
      StoredPagesAreOfLines(content, offset + limits[0], limits[1..]);
    }
  }

  /** Reading the bytes of a stored text in pages of any positive sizes that cover its lines gives the whole text. */
  lemma StoredPagesCoverText(content: string, limits: seq<PageSize>)
    requires |SplitLines(content)| <= Sum(limits)
    ensures StoredPages(Encode(content), 0, limits) == Newlines(content)
  {
    hide *;
    StoredPagesAreOfLines(content, 0, limits);
    PagesCoverText(content, limits);
  }

  lemma StoredReads(content: string, offset: int, limit: int)
    ensures ReadStored(Encode(content), offset, limit) ==
            if limit <= 0 then Text("") else ReadLines(SplitLines(content), offset, limit)
  {
    hide Encode, DecodeIgnore, SplitLines, ReadLines;
    DecodeEncode(content);
  }

  lemma PageIs(lines: seq<string>, offset: int, limit: int)
    requires limit > 0
    ensures var first := if offset > 0 then offset else 0;
            var last := if first + limit < |lines| then first + limit else |lines|;
            var r := ReadLines(lines, offset, limit);
            && (r == Failed("offset") <==> lines != [] && |lines| <= first)
            && (lines == [] ==> r == Text(""))
            && (first < |lines| ==> r == Text(Newlines(Join(lines[first..last]))))
  {
    hide Newlines, Join;
  }

  /**
   A text that is stored is read from its `offset`-th line on, `limit` lines at most, each with its end turned into a
   newline; whatever cutting into lines one has in mind.  The offset is refused exactly when it lies past the lines of a
   text that is not empty.
   */
  lemma ReadsLines(lines: seq<string>, offset: int, limit: int)
    requires AreLines(lines)
    ensures var first := if offset > 0 then offset else 0;
            var last := if first + limit < |lines| then first + limit else |lines|;
            var r := ReadStored(Encode(Join(lines)), offset, limit);
            && (limit <= 0 ==> r == Text(""))
            && (limit > 0 ==>
                  && (r == Failed("offset") <==> lines != [] && |lines| <= first)
                  && (lines == [] ==> r == Text(""))
                  && (first < |lines| ==> r == Text(Newlines(Join(lines[first..last])))))
  {
    hide *;
    LinesAreUnique(lines);
    StoredReads(Join(lines), offset, limit);
    if limit > 0 {
      PageIs(lines, offset, limit);
    }
  }

  /** What turning line ends into newlines does to a line: CR LF and CR become LF, and the rest stays. */
  lemma NewlinesOfLine(body: string)
    requires '\r' !in body
    ensures Newlines(body) == body && Newlines(body + "\r\n") == body + "\n" && Newlines(body + "\r") == body + "\n"
  {
    hide Newlines;
    NewlinesSame(body);
    NewlinesAppend(body, "\r\n");
    NewlinesAppend(body, "\r");
    NewlinesOfEnds();
  }

  lemma NewlinesOfEnds()
    ensures Newlines("\r\n") == "\n" && Newlines("\r") == "\n"
  {
    assert "\r\n"[2..] == "" && "\r"[1..] == "" && "\n"[1..] == "";
  }

  /** Bytes are refused, wherever a page begins, exactly when they are the encoding of no text. */
  lemma RefusedExactlyWhen(data: seq<byte>, offset: int, limit: int)
    ensures ReadStored(data, offset, limit) == Failed("encoding") <==> forall content :: Encode(content) != data
  {
    hide Encode, DecodeIgnore, SplitLines, Newlines, Join;
    forall content | Encode(content) == data
      ensures DecodeStrict(data) == Some(content)
    {
      DecodeEncode(content);
    }
    if DecodeStrict(data).Some? {
      assert Encode(DecodeStrict(data).value) == data;
      assert |"offset"| != |"encoding"|;
      if limit > 0 {
        assert ReadStored(data, offset, limit) != Failed("encoding");
      }
    }
  }

  // ---------- what was written ----------

  lemma {:induction false} NewlinesSame(s: string)
    ensures Newlines(s) == s <==> '\r' !in s
  {
    if s != "" {
      NewlinesSame(s[1..]);
      if s[0] == '\r' {
        FirstBecomesLf(s);
      } else {
        assert s == [s[0]] + s[1..];
        assert DropCr(s) == [s[0]] + DropCr(s[1..]);
        assert CrToLf(DropCr(s)) == [s[0]] + CrToLf(DropCr(s[1..])) by {
          assert DropCr(s)[1..] == DropCr(s[1..]);
        }
      }
    }
  }

  lemma FirstBecomesLf(s: string)
    requires s != "" && s[0] == '\r'
    ensures Newlines(s) != s
  {
    assert DropCr(s) != "";
    assert CrToLf(DropCr(s))[0] == '\n';
  }

  /** Reading back a whole artifact gives what was written exactly when that has no CR. */
  lemma ReadsBackExactlyWhen(content: string, limit: int)
    requires limit > 0 && |SplitLines(content)| <= limit
    ensures ReadStored(Encode(content), 0, limit) == Text(content) <==> '\r' !in content
  {
    DecodeEncode(content);
    PagesCoverText(content, [limit]);
    assert Pages(SplitLines(content), 0 + limit, []) == "";
    if content == "" {
    } else {
      NewlinesSame(content);
      assert SplitLines(content) != [];
      LinesJoin(content);
      assert SplitLines(content)[0..|SplitLines(content)|] == SplitLines(content);
    }
  }

  // ---------- searching ----------

  datatype Match = Match(path: string, line: nat, text: string)

  /** What searching one file looks at: nothing if the file cannot be read. */
  datatype File = File(path: string, lines: seq<string>)

  predicate ContainsAt(s: string, pattern: string, i: nat) {
    i + |pattern| <= |s| && s[i..i + |pattern|] == pattern
  }

  predicate Contains(s: string, pattern: string) {
    exists i :: 0 <= i <= |s| && ContainsAt(s, pattern, i)
  }

  /** The matches among the first `n` lines. */
  function MatchesIn(f: File, pattern: string, n: nat): seq<Match>
    requires n <= |f.lines|
  {
    if n == 0 then []
    else MatchesIn(f, pattern, n - 1)
           + if Contains(f.lines[n - 1], pattern) then [Match(f.path, n, f.lines[n - 1])] else []
  }

  function AllMatches(files: seq<File>, pattern: string): seq<Match> {
    if files == [] then []
    else
      var last := files[|files| - 1];
      AllMatches(files[..|files| - 1], pattern) + MatchesIn(last, pattern, |last.lines|)
  }

  function Capped(matches: seq<Match>, maxCount: Option<int>): seq<Match> {
    if maxCount.None? || |matches| <= maxCount.value then matches
    else if maxCount.value < 0 then []
    else matches[..maxCount.value]
  }

  predicate Exceeds(matches: seq<Match>, maxCount: Option<int>) {
    maxCount.Some? && matches != [] && |matches| > maxCount.value
  }

  // ---------- what the matches are ----------

  /** `pattern in line` */
  ghost predicate Includes(s: string, pattern: string) {
    exists before: string, after: string :: s == before + pattern + after
  }

  lemma ContainsExactlyWhen(s: string, pattern: string)
    ensures Contains(s, pattern) <==> Includes(s, pattern)
  {
    if Contains(s, pattern) {
      var i :| 0 <= i <= |s| && ContainsAt(s, pattern, i);
      assert s == s[..i] + pattern + s[i + |pattern|..];
    }
    if Includes(s, pattern) {
      var before: string, after: string :| s == before + pattern + after;
      assert ContainsAt(s, pattern, |before|);
    }
  }

  /** A match is a line of the file that includes the pattern, with its number from 1 on; each comes once, in order. */
  lemma {:induction false} MatchesAre(f: File, pattern: string, n: nat)
    requires n <= |f.lines|
    ensures forall m: Match :: m in MatchesIn(f, pattern, n) <==>
              1 <= m.line <= n && m == Match(f.path, m.line, f.lines[m.line - 1]) && Includes(m.text, pattern)
    ensures forall i, j :: 0 <= i < j < |MatchesIn(f, pattern, n)| ==>
              MatchesIn(f, pattern, n)[i].line < MatchesIn(f, pattern, n)[j].line
  {
    hide Contains, Includes;
    if n > 0 {
      MatchesAre(f, pattern, n - 1);
      ContainsExactlyWhen(f.lines[n - 1], pattern);
      var earlier := MatchesIn(f, pattern, n - 1);
      assert forall i :: 0 <= i < |earlier| ==> earlier[i] in earlier;
    }
  }

  /** Files are searched in order, each by itself. */
  lemma {:induction false} AllMatchesAppend(a: seq<File>, b: seq<File>, pattern: string)
    ensures AllMatches(a + b, pattern) == AllMatches(a, pattern) + AllMatches(b, pattern)
    decreases |b|
  {
    hide MatchesIn;
    if b == [] {
      assert a + b == a;
    } else {
      var n := |b| - 1;
      assert (a + b)[..|a + b| - 1] == a + b[..n] && (a + b)[|a + b| - 1] == b[n];
      AllMatchesAppend(a, b[..n], pattern);
    }
  }

  lemma OneFileMatches(f: File, pattern: string)
    ensures AllMatches([f], pattern) == MatchesIn(f, pattern, |f.lines|)
  {
    hide MatchesIn;
    assert [f][..0] == [];
  }

  /** At most as many matches as asked for are given, the first ones, and all of them when none are asked for. */
  lemma CappedAre(matches: seq<Match>, maxCount: Option<int>)
    ensures Capped(matches, maxCount) <= matches
    ensures maxCount.None? ==> Capped(matches, maxCount) == matches && !Exceeds(matches, maxCount)
    ensures maxCount.Some? ==>
              && (maxCount.value >= 0 ==> |Capped(matches, maxCount)| <= maxCount.value)
              && (Exceeds(matches, maxCount) <==> Capped(matches, maxCount) != matches)
              && (Exceeds(matches, maxCount) && maxCount.value >= 0 ==> |Capped(matches, maxCount)| == maxCount.value)
  {
  }

  lemma {:induction false} MatchesGrow(f: File, pattern: string, n: nat)
    requires n <= |f.lines|
    ensures MatchesIn(f, pattern, n) <= MatchesIn(f, pattern, |f.lines|)
    decreases |f.lines| - n
  {
    if n < |f.lines| {
      MatchesGrow(f, pattern, n + 1);
      PrefixChain(MatchesIn(f, pattern, n), MatchesIn(f, pattern, n + 1), MatchesIn(f, pattern, |f.lines|));
    }
  }

  lemma PrefixChain(a: seq<Match>, b: seq<Match>, c: seq<Match>)
    requires a <= b <= c
    ensures a <= c
  {
  }

  lemma {:induction false} FilesGrow(files: seq<File>, pattern: string, n: nat)
    requires n <= |files|
    ensures AllMatches(files[..n], pattern) <= AllMatches(files, pattern)
  {
    if n < |files| {
      FilesGrow(files[..|files| - 1], pattern, n);
      assert files[..|files| - 1][..n] == files[..n];
      PrefixChain(AllMatches(files[..n], pattern), AllMatches(files[..|files| - 1], pattern),
                  AllMatches(files, pattern));
    } else {
      assert files[..n] == files;
    }
  }

  predicate Within(matches: seq<Match>, maxCount: Option<int>) {
    maxCount.Some? && matches != [] ==> |matches| <= maxCount.value
  }

  /** The lines of one file, after what other files gave. */
  method GrepFile(f: File, pattern: string, before: seq<Match>, maxCount: Option<int>)
    returns (matches: seq<Match>, truncated: bool)
    requires Within(before, maxCount)
    ensures !truncated ==> matches == before + MatchesIn(f, pattern, |f.lines|) && Within(matches, maxCount)
    ensures truncated ==>
              && maxCount.Some? && |matches| >= maxCount.value && Within(matches, maxCount)
              && matches < before + MatchesIn(f, pattern, |f.lines|)
  {
    hide Contains;
    matches := before;
    for k := 0 to |f.lines|
      invariant matches == before + MatchesIn(f, pattern, k) && Within(matches, maxCount)
    {
      if Contains(f.lines[k], pattern) {
        if maxCount.Some? && |matches| >= maxCount.value {
          MatchesGrow(f, pattern, k + 1);
          return matches, true;
        }
        matches := matches + [Match(f.path, k + 1, f.lines[k])];
      }
    }
    return matches, false;
  }

  /** The first `maxCount` matches of all files in order, and whether there were more. */
  method Grep(files: seq<File>, pattern: string, maxCount: Option<int>)
    returns (matches: seq<Match>, truncated: bool)
    ensures matches == Capped(AllMatches(files, pattern), maxCount)
    ensures truncated <==> Exceeds(AllMatches(files, pattern), maxCount)
  {
    hide MatchesIn, Capped, Exceeds;
    matches, truncated := [], false;
    for i := 0 to |files|
      invariant matches == AllMatches(files[..i], pattern) && Within(matches, maxCount)
    {
      assert files[..i + 1][..i] == files[..i];
      matches, truncated := GrepFile(files[i], pattern, matches, maxCount);
      if truncated {
        FilesGrow(files, pattern, i + 1);
        Overflows(matches, AllMatches(files[..i + 1], pattern), AllMatches(files, pattern), maxCount.value);
        return;
      }
    }
    assert files[..|files|] == files;
    WithinCap(matches, maxCount);
    return matches, false;
  }

  lemma WithinCap(matches: seq<Match>, maxCount: Option<int>)
    requires Within(matches, maxCount)
    ensures matches == Capped(matches, maxCount) && !Exceeds(matches, maxCount)
  {
  }

  lemma Overflows(matches: seq<Match>, more: seq<Match>, all: seq<Match>, maxCount: int)
    requires matches < more <= all
    requires |matches| >= maxCount && (matches != [] ==> |matches| <= maxCount)
    ensures matches == Capped(all, Some(maxCount)) && Exceeds(all, Some(maxCount))
  {
  }
}
