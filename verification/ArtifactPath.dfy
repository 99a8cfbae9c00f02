/** Where an artifact path leads (backend/app/runtime/artifact_backend.py, `_normalize_artifact_path`). */
module ArtifactPath {
  import opened Outcomes

  const ROOT := "/artifacts"
  const MAX_LENGTH := 266

  datatype PathError = PathError

  // ---------- components ----------

  /** `s.split("/")` */
  function Split(s: string): (r: seq<string>)
    ensures r != []
  {
    if s == "" then [""]
    else
      var rest := Split(s[1..]);
      if s[0] == '/' then [""] + rest else [[s[0]] + rest[0]] + rest[1..]
  }

  /** `"/".join(parts)` */
  function JoinParts(parts: seq<string>): string {
    if parts == [] then ""
    else if |parts| == 1 then parts[0]
    else parts[0] + "/" + JoinParts(parts[1..])
  }

  predicate BadPart(part: string) {
    part in ["", ".", ".."]
  }

  /** The components `PurePosixPath` keeps. */
  function Kept(parts: seq<string>): seq<string> {
    if parts == [] then []
    else if parts[0] in ["", "."] then Kept(parts[1..])
    else [parts[0]] + Kept(parts[1..])
  }

  // ---------- normalising ----------

  predicate UnderRoot(path: string) {
    path == ROOT || (|path| > |ROOT| && path[..|ROOT| + 1] == ROOT + "/")
  }

  function Candidate(path: string): Result<string, PathError> {
    if UnderRoot(path) then Ok(path)
    else if path != "" && path[0] == '/' then Ok(ROOT + path)
    else if ':' in path then Err(PathError)
    else Ok(ROOT + "/" + path)
  }

  predicate Admissible(path: string) {
    path != "" && '\0' !in path && '\\' !in path && |path| <= MAX_LENGTH
  }

  /** The candidate taken apart, checked and put together again. */
  function Checked(candidate: string, allowRoot: bool): Result<string, PathError> {
    var parts := Split(candidate);
    var raw := if |parts| < 2 then [] else parts[2..];
    var relative := Kept(raw);
    if exists part :: part in raw && BadPart(part) then Err(PathError)
    else if !allowRoot && relative == [] then Err(PathError)
    else Ok(ROOT + if relative == [] then "" else "/" + JoinParts(relative))
  }

  function NormalizePath(path: string, allowRoot: bool): Result<string, PathError> {
    if !Admissible(path) then Err(PathError)
    else if path == "/" || path == "." then if allowRoot then Ok(ROOT) else Err(PathError)
    else
      var candidate :- Candidate(path);
      Checked(candidate, allowRoot)
  }

  // ---------- the result is the candidate ----------

  lemma {:induction false} SplitJoin(s: string)
    ensures JoinParts(Split(s)) == s
  {
    if s != "" {
      SplitJoin(s[1..]);
      var rest := Split(s[1..]);
      if s[0] == '/' {
        assert ([""] + rest)[1..] == rest;
        assert s == "/" + s[1..];
      } else {
        assert ([[s[0]] + rest[0]] + rest[1..])[1..] == rest[1..];
        assert s == [s[0]] + s[1..];
        if |rest| > 1 {
          assert [s[0]] + rest[0] + "/" + JoinParts(rest[1..]) == [s[0]] + (rest[0] + "/" + JoinParts(rest[1..]));
        }
      }
    }
  }

  lemma {:induction false} KeptAll(parts: seq<string>)
    requires forall part :: part in parts ==> !BadPart(part)
    ensures Kept(parts) == parts
  {
    if parts != [] {
      assert parts[0] in parts;
      KeptAll(parts[1..]);
      assert [parts[0]] + parts[1..] == parts;
    }
  }

  /** Splitting goes through a slash that follows a text without any. */
  lemma {:induction false} SplitHead(head: string, tail: string)
    requires '/' !in head
    ensures Split(head + "/" + tail) == [head] + Split(tail)
    ensures Split(head) == [head]
  {
    if head == "" {
      assert head + "/" + tail == "/" + tail;
      assert ("/" + tail)[1..] == tail;
    } else {
      assert (head + "/" + tail)[1..] == head[1..] + "/" + tail;
      SplitHead(head[1..], tail);
      assert [head[0]] + head[1..] == head;
    }
  }

  const NAME := "artifacts"

  lemma RootParts()
    ensures ROOT == "/" + NAME && '/' !in NAME
  {
  }

  lemma SplitUnderRoot(candidate: string)
    requires UnderRoot(candidate)
    ensures candidate == ROOT ==> Split(candidate) == ["", NAME]
    ensures candidate != ROOT ==> Split(candidate) == ["", NAME] + Split(candidate[|ROOT| + 1..])
  {
    hide Split;
    RootParts();
    if candidate == ROOT {
      SplitHead(NAME, "");
      SplitHead("", NAME);
      assert "" + "/" + NAME == ROOT;
      assert [""] + [NAME] == ["", NAME];
    } else {
      var tail := candidate[|ROOT| + 1..];
      SplitHead(NAME, tail);
      SplitHead("", NAME + "/" + tail);
      assert candidate == candidate[..|ROOT| + 1] + tail;
      assert "" + "/" + (NAME + "/" + tail) == candidate;
      assert [""] + ([NAME] + Split(tail)) == ["", NAME] + Split(tail);
    }
  }

  lemma CandidateUnderRoot(path: string)
    requires Candidate(path).Ok?
    ensures UnderRoot(Candidate(path).value)
  {
    if !UnderRoot(path) {
      if path != "" && path[0] == '/' {
        assert (ROOT + path)[..|ROOT| + 1] == ROOT + "/";
      } else {
        assert (ROOT + "/" + path)[..|ROOT| + 1] == ROOT + "/";
      }
    }
  }

  /** Components below the root of a path under it. */
  function Below(candidate: string): seq<string>
    requires UnderRoot(candidate)
  {
    if candidate == ROOT then [] else Split(candidate[|ROOT| + 1..])
  }

  /** What normalising does to a path under the root: it only says yes or no. */
  lemma CheckedUnderRoot(candidate: string, allowRoot: bool)
    requires UnderRoot(candidate)
    ensures Checked(candidate, allowRoot) ==
            if (exists part :: part in Below(candidate) && BadPart(part)) || (!allowRoot && candidate == ROOT)
            then Err(PathError) else Ok(candidate)
  {
    hide Split, BadPart, JoinParts;
    SplitUnderRoot(candidate);
    var raw := Split(candidate)[2..];
    assert raw == Below(candidate);
    assert ROOT + "" == ROOT;
    if !exists part :: part in raw && BadPart(part) {
      KeptAll(raw);
      if candidate != ROOT {
        var tail := candidate[|ROOT| + 1..];
        SplitJoin(tail);
        assert candidate == candidate[..|ROOT| + 1] + tail;
        assert ROOT + ("/" + JoinParts(raw)) == ROOT + "/" + tail;
      }
    }
  }

  lemma NormalizesUnderRoot(path: string, allowRoot: bool)
    requires Admissible(path) && path != "/" && path != "." && Candidate(path).Ok?
    ensures UnderRoot(Candidate(path).value)
    ensures var candidate := Candidate(path).value;
            NormalizePath(path, allowRoot) ==
            if (exists part :: part in Below(candidate) && BadPart(part)) || (!allowRoot && candidate == ROOT)
            then Err(PathError) else Ok(candidate)
  {
    hide Split, BadPart, JoinParts, Candidate, Below, Kept, UnderRoot, Admissible;
    CandidateUnderRoot(path);
    CheckedUnderRoot(Candidate(path).value, allowRoot);
  }

  /** A normalised path lies under the root, and no component of it is empty, `.` or `..`. */
  lemma NormalizedIsContained(path: string, allowRoot: bool)
    requires NormalizePath(path, allowRoot).Ok?
    ensures var r := NormalizePath(path, allowRoot).value;
            && UnderRoot(r) && (r == ROOT ==> allowRoot)
            && forall part :: part in Below(r) ==> !BadPart(part)
  {
    if path != "/" && path != "." {
      NormalizesUnderRoot(path, allowRoot);
    }
  }

  // ---------- which paths are accepted ----------

  predicate PlacedAs(text: string, before: string, part: string, after: string) {
    && text == before + part + after && '/' !in part
    && (before == "" || before[|before| - 1] == '/') && (after == "" || after[0] == '/')
  }

  /** The part stands between slashes, or between one and an end of the text. */
  ghost predicate HasPart(text: string, part: string) {
    exists before, after :: PlacedAs(text, before, part, after)
  }

  lemma {:induction false} PartIsPlaced(text: string, k: nat) returns (before: string, after: string)
    requires k < |Split(text)|
    ensures '/' !in Split(text)[k] && text == before + Split(text)[k] + after
    ensures (before == "" || before[|before| - 1] == '/') && (after == "" || after[0] == '/')
    ensures k > 0 <==> before != ""
  {
    if text == "" {
      before, after := "", "";
    } else if text[0] == '/' {
      if k == 0 {
        before, after := "", text;
      } else {
        before, after := PartIsPlaced(text[1..], k - 1);
        before := "/" + before;
      }
    } else {
      before, after := PartIsPlaced(text[1..], k);
      assert text == [text[0]] + text[1..];
      if k > 0 {
        before := [text[0]] + before;
      }
    }
  }

  lemma {:induction false} PlacedIsPart(before: string, part: string, after: string) returns (k: nat)
    requires '/' !in part
    requires (before == "" || before[|before| - 1] == '/') && (after == "" || after[0] == '/')
    ensures k < |Split(before + part + after)| && Split(before + part + after)[k] == part
    ensures before != "" ==> k > 0
  {
    var text := before + part + after;
    if before == "" {
      k := 0;
      if after == "" {
        SplitHead(part, "");
        assert text == part;
      } else {
        SplitHead(part, after[1..]);
        assert text == part + "/" + after[1..];
      }
    } else {
      k := PlacedIsPart(before[1..], part, after);
      assert text[1..] == before[1..] + part + after;
      if before[0] == '/' {
        k := k + 1;
      }
    }
  }

  lemma SplitExactlyWhen(text: string, part: string)
    ensures part in Split(text) <==> HasPart(text, part)
  {
    hide Split;
    if part in Split(text) {
      var k: nat :| k < |Split(text)| && Split(text)[k] == part;
      var before, after := PartIsPlaced(text, k);
      assert PlacedAs(text, before, part, after);
    }
    if HasPart(text, part) {
      var before, after :| PlacedAs(text, before, part, after);
      var k := PlacedIsPart(before, part, after);
    }
  }

  predicate NamesRoot(path: string) {
    path == "/artifacts" || path == "/" || path == "."
  }

  /** What a path names below the root: the text after the root, after a leading slash, or all of it. */
  function Relative(path: string): string
    requires path != ""
  {
    if "/artifacts/" <= path then path[11..] else if path[0] == '/' then path[1..] else path
  }

  ghost predicate CleanParts(text: string) {
    !HasPart(text, "") && !HasPart(text, ".") && !HasPart(text, "..")
  }

  lemma CleanExactlyWhen(text: string)
    ensures CleanParts(text) <==> forall part :: part in Split(text) ==> !BadPart(part)
  {
    hide Split, HasPart;
    SplitExactlyWhen(text, "");
    SplitExactlyWhen(text, ".");
    SplitExactlyWhen(text, "..");
  }

  lemma AcceptedBelow(path: string, allowRoot: bool)
    requires Admissible(path) && !NamesRoot(path) && Candidate(path).Ok?
    ensures NormalizePath(path, allowRoot).Ok? <==> CleanParts(Relative(path))
    ensures NormalizePath(path, allowRoot).Ok? ==>
              NormalizePath(path, allowRoot).value == "/artifacts" + "/" + Relative(path)
  {
    hide Split, CleanParts, JoinParts, Kept, Candidate, BadPart, UnderRoot, Relative, NormalizePath;
    NormalizesUnderRoot(path, allowRoot);
    RelativeIs(path);
    CleanExactlyWhen(Relative(path));
  }

  lemma AcceptedRoot(path: string, allowRoot: bool)
    requires NamesRoot(path)
    ensures NormalizePath(path, allowRoot) == if allowRoot then Ok("/artifacts") else Err(PathError)
  {
    hide Split, JoinParts, Kept;
    assert ROOT == "/artifacts" && |ROOT| == 10 && |path| <= 10;
    if path == ROOT {
      assert forall c :: c in ROOT ==> c != '\0' && c != '\\';
      NormalizesUnderRoot(path, allowRoot);
    }
  }

  /**
   A path is accepted exactly when it is not empty nor too long, has no NUL or backslash, no colon unless it is
   absolute, and names the root, if roots are allowed, or something below it without an empty, `.` or `..` part.
   */
  lemma AcceptedExactlyWhen(path: string, allowRoot: bool)
    ensures NormalizePath(path, allowRoot).Ok? <==>
            && path != "" && |path| <= 266 && '\0' !in path && '\\' !in path
            && (path[0] != '/' ==> ':' !in path)
            && if NamesRoot(path) then allowRoot else CleanParts(Relative(path))
    ensures NormalizePath(path, allowRoot).Ok? ==>
              NormalizePath(path, allowRoot).value ==
                if NamesRoot(path) then "/artifacts" else "/artifacts" + "/" + Relative(path)
  {
    hide CleanParts, Checked, Relative;
    if NamesRoot(path) {
      AcceptedRoot(path, allowRoot);
      RootIsPlain(path);
    } else if Admissible(path) && Candidate(path).Ok? {
      AcceptedBelow(path, allowRoot);
    }
  }

  lemma RootIsPlain(path: string)
    requires NamesRoot(path)
    ensures path != "" && |path| <= 266 && '\0' !in path && '\\' !in path && ':' !in path
  {
    assert forall c :: c in "/artifacts" ==> c != '\0' && c != '\\' && c != ':';
  }

  lemma RelativeIs(path: string)
    requires path != "" && !NamesRoot(path) && Candidate(path).Ok?
    ensures var candidate := Candidate(path).value;
            && UnderRoot(candidate) && candidate != ROOT && candidate == "/artifacts" + "/" + Relative(path)
            && Below(candidate) == Split(Relative(path))
  {
    hide Split;
    CandidateUnderRoot(path);
    var candidate := Candidate(path).value;
    assert ROOT == "/artifacts" && |ROOT| == 10;
    if UnderRoot(path) {
      assert path == path[..11] + path[11..];
    } else if path[0] == '/' {
      assert ROOT + path == ROOT + "/" + path[1..];
    }
    assert candidate[|ROOT| + 1..] == Relative(path);
  }

  lemma CandidateKeepsCharacters(path: string)
    requires Admissible(path) && Candidate(path).Ok?
    ensures '\0' !in Candidate(path).value && '\\' !in Candidate(path).value
  {
    assert forall c :: c in ROOT ==> c != '\0' && c != '\\';
  }

  /** The path gets no root put before it, or is short enough to be accepted with it. */
  predicate RoomForRoot(path: string)
    requires path != ""
  {
    || UnderRoot(path) || path == "/" || path == "."
    || |path| + |ROOT| + (if path[0] == '/' then 0 else 1) <= MAX_LENGTH
  }

  /** Normalising what an accepted path was normalised to gives it back exactly when there was room for the root. */
  lemma IdempotentExactlyWhen(path: string, allowRoot: bool)
    requires NormalizePath(path, allowRoot).Ok?
    ensures path != ""
    ensures var r := NormalizePath(path, allowRoot).value;
            (NormalizePath(r, allowRoot) == Ok(r) <==> RoomForRoot(path))
  {
    var r := NormalizePath(path, allowRoot).value;
    NormalizedIsContained(path, allowRoot);
    assert ROOT != "/" && ROOT != "." && |r| >= |ROOT|;
    if path != "/" && path != "." {
      NormalizesUnderRoot(path, allowRoot);
      CandidateKeepsCharacters(path);
    } else {
      assert forall c :: c in ROOT ==> c != '\0' && c != '\\';
    }
    if |r| <= MAX_LENGTH {
      NormalizesUnderRoot(r, allowRoot);
    }
  }

  /** A path of the greatest accepted length is normalised to one that is refused. */
  lemma LongestIsNotIdempotent()
    ensures var path := seq(MAX_LENGTH, _ => 'a');
            && NormalizePath(path, false).Ok? && !RoomForRoot(path)
            && NormalizePath(NormalizePath(path, false).value, false).Err?
  {
    var path := seq(MAX_LENGTH, _ => 'a');
    assert path[0] == 'a' && !UnderRoot(path) && ':' !in path;
    NormalizesUnderRoot(path, false);
    var candidate := ROOT + "/" + path;
    assert candidate[|ROOT| + 1..] == path;
    SplitHead(path, "");
    assert |path| == MAX_LENGTH;
    assert !BadPart(path);
    assert Below(candidate) == [path];
  }
}
