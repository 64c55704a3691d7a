/**
 * The commit-message helper `scripts/smart-commit.js`, without its prompts,
 * shell calls and console output.
 *
 * `getGitChanges` reads the output of `git status --porcelain`, one line per
 * changed path (a two-character status code, a space, the path), sorts the
 * paths into added, modified and deleted lists and counts them by area of the
 * code base; `generateCommitMessage` turns that summary into a
 * conventional-commit message. The output is a parameter: `None` stands for
 * the `null` that `execCommand` returns when the command fails.
 */
module SmartCommit {
  import opened Wrappers

  // ---------------------------------------------------------------------
  // JavaScript string primitives
  // ---------------------------------------------------------------------

  /** The characters `String.prototype.trim` removes (white space and line terminators). */
  predicate IsWhite(c: char) {
    || c == ' ' || c == '\t' || c == '\n' || c == '\r' || c == '\U{000B}' || c == '\U{000C}'
    || c == '\U{00A0}' || c == '\U{1680}' || ('\U{2000}' <= c <= '\U{200A}')
    || c == '\U{2028}' || c == '\U{2029}' || c == '\U{202F}' || c == '\U{205F}'
    || c == '\U{3000}' || c == '\U{FEFF}'
  }

  /** The index of the first non-white character of `s` from `k` on, or `|s|` when there is none. */
  function SkipWhite(s: string, k: nat): (j: nat)
    requires k <= |s|
    ensures k <= j <= |s|
    ensures forall i :: k <= i < j ==> IsWhite(s[i])
    ensures j < |s| ==> !IsWhite(s[j])
    decreases |s| - k
  {
    if k < |s| && IsWhite(s[k]) then SkipWhite(s, k + 1) else k
  }

  /** The index just past the last non-white character of `s` before `k`, or 0 when there is none. */
  function SkipWhiteBack(s: string, k: nat): (j: nat)
    requires k <= |s|
    ensures j <= k
    ensures forall i :: j <= i < k ==> IsWhite(s[i])
    ensures j > 0 ==> !IsWhite(s[j - 1])
    decreases k
  {
    if k > 0 && IsWhite(s[k - 1]) then SkipWhiteBack(s, k - 1) else k
  }

  /** `s.trimEnd()`: the prefix of `s` that ends at its last non-white character. */
  function TrimEnd(s: string): (r: string)
    ensures r <= s
    ensures forall i :: |r| <= i < |s| ==> IsWhite(s[i])
    ensures |r| > 0 ==> !IsWhite(r[|r| - 1])
  {
    s[..SkipWhiteBack(s, |s|)]
  }

  /** `s.trim()`: `s` without white space at either end; empty exactly when `s` is all white space. */
  function Trim(s: string): (r: string)
    ensures r == "" <==> forall i :: 0 <= i < |s| ==> IsWhite(s[i])
    ensures |r| > 0 ==> !IsWhite(r[0]) && !IsWhite(r[|r| - 1])
    ensures exists i, j ::
      && 0 <= i <= j <= |s| && r == s[i..j]
      && (forall k :: 0 <= k < i || j <= k < |s| ==> IsWhite(s[k]))
  {
    var start, end := SkipWhite(s, 0), SkipWhiteBack(s, |s|);
    if start < end then s[start..end] else assert s[0..0] == ""; ""
  }

  /** `s.split('\n')`: the pieces between line feeds; there is always at least one. */
  function SplitLines(s: string): (ls: seq<string>)
    ensures |ls| > 0
    ensures forall i :: 0 <= i < |ls| ==> '\n' !in ls[i]
  {
    if s == [] then [""]
    else if s[0] == '\n' then [""] + SplitLines(s[1..])
    else
      var rest := SplitLines(s[1..]);
      [[s[0]] + rest[0]] + rest[1..]
  }

  /** `ls.join('\n')`. */
  function JoinLines(ls: seq<string>): string
    requires |ls| > 0
  {
    if |ls| == 1 then ls[0] else ls[0] + "\n" + JoinLines(ls[1..])
  }

  /** Joined lines end with the last line. */
  lemma {:induction false} JoinLinesEnd(ls: seq<string>)
    requires |ls| > 0
    ensures var s, last := JoinLines(ls), ls[|ls| - 1]; |last| <= |s| && s[|s| - |last|..] == last
    decreases |ls|
  {
    if |ls| > 1 {
      JoinLinesEnd(ls[1..]);
      assert ls[1..][|ls| - 2] == ls[|ls| - 1];
    }
  }

  /** Splitting text that starts with a line `x` gives `x` joined to the first piece of the rest. */
  lemma {:induction false} SplitAfterLine(x: string, tail: string)
    requires '\n' !in x
    ensures SplitLines(x + tail) == [x + SplitLines(tail)[0]] + SplitLines(tail)[1..]
    decreases |x|
  {
    var t := SplitLines(tail);
    if x != [] {
      var xt := x + tail;
      assert xt[0] == x[0] && xt[0] != '\n';
      assert xt[1..] == x[1..] + tail;
      var rest := SplitLines(xt[1..]);
      assert SplitLines(xt) == [[x[0]] + rest[0]] + rest[1..];
      SplitAfterLine(x[1..], tail);
      assert rest[0] == x[1..] + t[0] && rest[1..] == t[1..];
      assert [x[0]] + (x[1..] + t[0]) == x + t[0];
    } else {
      assert x + tail == tail && x + t[0] == t[0] && t == [t[0]] + t[1..];
    }
  }

  /** Splitting joined lines gives the lines back, when none of them holds a line feed. */
  lemma {:induction false} SplitJoin(ls: seq<string>)
    requires |ls| > 0 && forall i :: 0 <= i < |ls| ==> '\n' !in ls[i]
    ensures SplitLines(JoinLines(ls)) == ls
    decreases |ls|
  {
    if |ls| == 1 {
      SplitAfterLine(ls[0], "");
      assert ls[0] + "" == ls[0];
    } else {
      var rest := JoinLines(ls[1..]);
      SplitJoin(ls[1..]);
      assert ls[0] + "\n" + rest == ls[0] + ("\n" + rest);
      assert ("\n" + rest)[1..] == rest;
      SplitAfterLine(ls[0], "\n" + rest);
      assert ls[0] + "" == ls[0];
    }
  }

  /** Joining the pieces of a split gives the text back. */
  lemma {:induction false} JoinSplit(s: string)
    ensures JoinLines(SplitLines(s)) == s
    decreases |s|
  {
    if s != [] {
      var rest := SplitLines(s[1..]);
      JoinSplit(s[1..]);
      if s[0] == '\n' {
        assert SplitLines(s) == [""] + rest && ([""] + rest)[1..] == rest;
        assert "" + "\n" + s[1..] == s;
      } else if |rest| == 1 {
        assert [s[0]] + rest[0] == s;
      } else {
        var ls := SplitLines(s);
        assert ls[0] == [s[0]] + rest[0] && ls[1..] == rest[1..];
        assert JoinLines(rest) == rest[0] + "\n" + JoinLines(rest[1..]);
        assert ([s[0]] + rest[0]) + "\n" + JoinLines(rest[1..]) == [s[0]] + JoinLines(rest);
      }
    }
  }

  /** `pat` occurs in `s` at an index from `k` on. */
  predicate ContainsFrom(s: string, pat: string, k: nat)
    decreases |s| - k
  {
    k + |pat| <= |s| && (s[k..k + |pat|] == pat || ContainsFrom(s, pat, k + 1))
  }

  /** `pattern.test(s)` for a regular expression that is one literal: `pat` occurs in `s`. */
  predicate Contains(s: string, pat: string) {
    ContainsFrom(s, pat, 0)
  }

  /** Where a pattern occurs, every prefix of it occurs too. */
  lemma {:induction false} ContainsPrefixOfPattern(s: string, pat: string, shorter: string, k: nat)
    requires shorter <= pat && ContainsFrom(s, pat, k)
    ensures ContainsFrom(s, shorter, k)
    decreases |s| - k
  {
    if s[k..k + |pat|] == pat {
      assert s[k..k + |shorter|] == pat[..|shorter|];
    } else {
      ContainsPrefixOfPattern(s, pat, shorter, k + 1);
    }
  }

  /** A regular expression that is an alternation of literals: one of `pats` occurs in `s`. */
  predicate ContainsAny(s: string, pats: seq<string>) {
    |pats| > 0 && (Contains(s, pats[0]) || ContainsAny(s, pats[1..]))
  }

  /** An alternation matches when any one of its literals does. */
  lemma {:induction false} ContainsAnyMember(s: string, pats: seq<string>, i: nat)
    requires i < |pats| && Contains(s, pats[i])
    ensures ContainsAny(s, pats)
    decreases i
  {
    if i > 0 {
      assert pats[1..][i - 1] == pats[i];
      ContainsAnyMember(s, pats[1..], i - 1);
    }
  }

  /** An alternation of literals matches exactly when one of its literals occurs. */
  lemma {:induction false} ContainsAnyMeaning(s: string, pats: seq<string>)
    ensures ContainsAny(s, pats) <==> exists i :: 0 <= i < |pats| && Contains(s, pats[i])
    decreases |pats|
  {
    if |pats| > 0 {
      ContainsAnyMeaning(s, pats[1..]);
      if ContainsAny(s, pats[1..]) {
        var i :| 0 <= i < |pats| - 1 && Contains(s, pats[1..][i]);
        assert Contains(s, pats[i + 1]);
      }
      if exists i :: 0 <= i < |pats| && Contains(s, pats[i]) {
        var i :| 0 <= i < |pats| && Contains(s, pats[i]);
        ContainsAnyMember(s, pats, i);
      }
    }
  }

  // ---------------------------------------------------------------------
  // getGitChanges
  // ---------------------------------------------------------------------

  /** The three lists a status line can put its path in. */
  datatype ChangeKind = Added | Modified | Deleted

  /** The areas of the code base a path is counted under, in the order they are tried. */
  datatype Category = Frontend | Backend | Config | Docs

  /** The `changes` object: three path lists and four counters. */
  datatype Changes = Changes(
    added: seq<string>,
    modified: seq<string>,
    deleted: seq<string>,
    frontend: nat,
    backend: nat,
    config: nat,
    docs: nat)

  const NoChanges: Changes := Changes([], [], [], 0, 0, 0, 0)

  const FrontendPatterns: seq<string> := ["frontend/", ".svelte", ".ts", ".js", ".css", ".html"]
  const BackendPatterns: seq<string> := [".go", "go.mod", "go.sum"]
  const ConfigPatterns: seq<string> :=
    [".json", ".config", ".yml", ".yaml", "prettierrc", "tasks.json", "settings.json"]
  const DocsPatterns: seq<string> := ["README", ".md"]

  /** `!line.trim()`: a line of white space only, which is skipped. */
  predicate IsBlank(line: string) {
    Trim(line) == ""
  }

  /** `line.substring(0, 2)`: the status code, shorter when the line is. */
  function StatusCode(line: string): (code: string)
    ensures code <= line && |code| == if |line| < 2 then |line| else 2
  {
    line[..if |line| < 2 then |line| else 2]
  }

  /** `line.substring(3)`: the path, empty when the line is shorter. */
  function FilePath(line: string): string {
    if |line| <= 3 then "" else line[3..]
  }

  /** The `switch` on the trimmed status code: `A` and `??` are added, `M` modified, `D` deleted. */
  function KindOf(code: string): Option<ChangeKind> {
    var c := Trim(code);
    if c == "A" || c == "??" then Some(Added)
    else if c == "M" then Some(Modified)
    else if c == "D" then Some(Deleted)
    else None
  }

  /** The `if`/`else if` chain of regular expressions: the first area whose patterns occur in `file`. */
  function CategoryOf(file: string): Option<Category> {
    if ContainsAny(file, FrontendPatterns) then Some(Frontend)
    else if ContainsAny(file, BackendPatterns) then Some(Backend)
    else if ContainsAny(file, ConfigPatterns) then Some(Config)
    else if ContainsAny(file, DocsPatterns) then Some(Docs)
    else None
  }

  /** What one status line tells the loop: nothing when blank, else its path, list and area. */
  datatype Reading = Blank | Path(file: string, kind: Option<ChangeKind>, category: Option<Category>)

  /** The body of the `forEach` callback up to the pushes and increments. */
  function ReadLine(line: string): Reading {
    if IsBlank(line) then Blank
    else Path(FilePath(line), KindOf(StatusCode(line)), CategoryOf(FilePath(line)))
  }

  /** The `switch`: the path joins the list its status code names, if any. */
  function ListPath(c: Changes, file: string, kind: Option<ChangeKind>): Changes {
    match kind
    case Some(Added) => c.(added := c.added + [file])
    case Some(Modified) => c.(modified := c.modified + [file])
    case Some(Deleted) => c.(deleted := c.deleted + [file])
    case None => c
  }

  /** The categorising `if` chain: the counter of the path's area, if any, goes up by one. */
  function CountPath(c: Changes, category: Option<Category>): Changes {
    match category
    case Some(Frontend) => c.(frontend := c.frontend + 1)
    case Some(Backend) => c.(backend := c.backend + 1)
    case Some(Config) => c.(config := c.config + 1)
    case Some(Docs) => c.(docs := c.docs + 1)
    case None => c
  }

  /** The rest of one turn of the `forEach`: a path is listed, then counted; a blank line changes nothing. */
  function AddReading(c: Changes, r: Reading): Changes {
    match r
    case Blank => c
    case Path(file, kind, category) => CountPath(ListPath(c, file, kind), category)
  }

  /** The summary of a sequence of readings, taken in order from an empty summary. */
  function Summarize(rs: seq<Reading>): Changes {
    if rs == [] then NoChanges else AddReading(Summarize(rs[..|rs| - 1]), rs[|rs| - 1])
  }

  /** The reading of every line, in order. */
  function ReadLines(lines: seq<string>): (rs: seq<Reading>)
    ensures |rs| == |lines| && forall i :: 0 <= i < |lines| ==> rs[i] == ReadLine(lines[i])
  {
    seq(|lines|, i requires 0 <= i < |lines| => ReadLine(lines[i]))
  }

  /** Summarizing one more reading applies it to the summary so far. */
  lemma SummarizeStep(rs: seq<Reading>, i: nat)
    requires i < |rs|
    ensures Summarize(rs[..i + 1]) == AddReading(Summarize(rs[..i]), rs[i])
  {
    assert rs[..i + 1][..i] == rs[..i];
  }

  /** What `getGitChanges` returns for the output `status`: nothing for a failed or empty command. */
  function GitChanges(status: Option<string>): (c: Option<Changes>)
    ensures c.None? <==> status.None? || status.value == ""
  {
    if status.None? || status.value == "" then None else Some(Summarize(ReadLines(SplitLines(status.value))))
  }

  /**
   * The `forEach` callback: a blank line is skipped; any other line's path
   * is pushed onto the list its status code names and counted under its area.
   */
  method RecordLine(changes: Changes, line: string) returns (changes': Changes)
    ensures changes' == AddReading(changes, ReadLine(line))
  {
    if Trim(line) == "" {
      return changes;
    }
    var statusCode, file := StatusCode(line), FilePath(line);
    changes' := changes;
    var code := Trim(statusCode);
    if code == "A" || code == "??" {
      changes' := changes'.(added := changes'.added + [file]);
    } else if code == "M" {
      changes' := changes'.(modified := changes'.modified + [file]);
    } else if code == "D" {
      changes' := changes'.(deleted := changes'.deleted + [file]);
    }
    assert changes' == ListPath(changes, file, KindOf(statusCode));
    ghost var listed := changes';
    if ContainsAny(file, FrontendPatterns) {
      changes' := changes'.(frontend := changes'.frontend + 1);
    } else if ContainsAny(file, BackendPatterns) {
      changes' := changes'.(backend := changes'.backend + 1);
    } else if ContainsAny(file, ConfigPatterns) {
      changes' := changes'.(config := changes'.config + 1);
    } else if ContainsAny(file, DocsPatterns) {
      changes' := changes'.(docs := changes'.docs + 1);
    }
    assert changes' == CountPath(listed, CategoryOf(file));
  }

  /** `getGitChanges`, given the (already trimmed) output of `git status --porcelain`. */
  method GetGitChanges(status: Option<string>) returns (changes: Option<Changes>)
    ensures changes == GitChanges(status)
  {
    if status.None? || status.value == "" {
      return None;
    }
    var lines := SplitLines(status.value);
    ghost var readings := ReadLines(lines);
    var summary := NoChanges;
    for i := 0 to |lines|
      invariant summary == Summarize(readings[..i])
    {
      SummarizeStep(readings, i);
      summary := RecordLine(summary, lines[i]);
    }
    assert readings[..|lines|] == readings;
    changes := Some(summary);
  }

  /** The path one reading contributes to the list for `kind`. */
  function FileOfKind(r: Reading, kind: ChangeKind): seq<string> {
    if r.Path? && r.kind == Some(kind) then [r.file] else []
  }

  /** Reference definition: the paths of the readings whose code means `kind`, in order. */
  function FilesOfKind(rs: seq<Reading>, kind: ChangeKind): seq<string> {
    if rs == [] then [] else FileOfKind(rs[0], kind) + FilesOfKind(rs[1..], kind)
  }

  /** What one reading contributes to the counter of `category`. */
  function CountIn(r: Reading, category: Category): nat {
    if r.Path? && r.category == Some(category) then 1 else 0
  }

  /** Reference definition: the number of readings whose path falls under `category`. */
  function CountOf(rs: seq<Reading>, category: Category): nat {
    if rs == [] then 0 else CountIn(rs[0], category) + CountOf(rs[1..], category)
  }

  /** Applying one reading extends each list by its path for that list and each counter by its count. */
  lemma AddReadingParts(c: Changes, r: Reading)
    ensures AddReading(c, r).added == c.added + FileOfKind(r, Added)
    ensures AddReading(c, r).modified == c.modified + FileOfKind(r, Modified)
    ensures AddReading(c, r).deleted == c.deleted + FileOfKind(r, Deleted)
    ensures AddReading(c, r).frontend == c.frontend + CountIn(r, Frontend)
    ensures AddReading(c, r).backend == c.backend + CountIn(r, Backend)
    ensures AddReading(c, r).config == c.config + CountIn(r, Config)
    ensures AddReading(c, r).docs == c.docs + CountIn(r, Docs)
  {
  }

  /** The list reference definition, for one more reading at the end. */
  lemma {:induction false} FilesOfKindSnoc(rs: seq<Reading>, r: Reading, kind: ChangeKind)
    ensures FilesOfKind(rs + [r], kind) == FilesOfKind(rs, kind) + FileOfKind(r, kind)
    decreases |rs|
  {
    if rs == [] {
      assert [r][1..] == [] && rs + [r] == [r];
    } else {
      var rest := FilesOfKind(rs[1..], kind);
      assert (rs + [r])[0] == rs[0] && (rs + [r])[1..] == rs[1..] + [r];
      FilesOfKindSnoc(rs[1..], r, kind);
      assert FileOfKind(rs[0], kind) + (rest + FileOfKind(r, kind))
          == (FileOfKind(rs[0], kind) + rest) + FileOfKind(r, kind);
    }
  }

  /** The counter reference definition, for one more reading at the end. */
  lemma {:induction false} CountOfSnoc(rs: seq<Reading>, r: Reading, category: Category)
    ensures CountOf(rs + [r], category) == CountOf(rs, category) + CountIn(r, category)
    decreases |rs|
  {
    if rs == [] {
      assert [r][1..] == [] && rs + [r] == [r];
    } else {
      assert (rs + [r])[0] == rs[0] && (rs + [r])[1..] == rs[1..] + [r];
      CountOfSnoc(rs[1..], r, category);
    }
  }

  /**
   * The loop puts the path of each non-blank line whose code is `A`/`??`,
   * `M` or `D` into the matching list, in line order, and counts each
   * non-blank line under the first area whose patterns occur in its path.
   */
  lemma {:induction false} SummarizeContents(rs: seq<Reading>)
    ensures Summarize(rs).added == FilesOfKind(rs, Added)
    ensures Summarize(rs).modified == FilesOfKind(rs, Modified)
    ensures Summarize(rs).deleted == FilesOfKind(rs, Deleted)
    ensures Summarize(rs).frontend == CountOf(rs, Frontend)
    ensures Summarize(rs).backend == CountOf(rs, Backend)
    ensures Summarize(rs).config == CountOf(rs, Config)
    ensures Summarize(rs).docs == CountOf(rs, Docs)
    decreases |rs|
  {
    if rs != [] {
      var init, last := rs[..|rs| - 1], rs[|rs| - 1];
      assert rs == init + [last];
      SummarizeContents(init);
      AddReadingParts(Summarize(init), last);
      FilesOfKindSnoc(init, last, Added);
      FilesOfKindSnoc(init, last, Modified);
      FilesOfKindSnoc(init, last, Deleted);
      CountOfSnoc(init, last, Frontend);
      CountOfSnoc(init, last, Backend);
      CountOfSnoc(init, last, Config);
      CountOfSnoc(init, last, Docs);
    }
  }

  /** The sizes a summary is bounded by: its list lengths and its counters, each summed. */
  function Listed(c: Changes): nat { |c.added| + |c.modified| + |c.deleted| }
  function Counted(c: Changes): nat { c.frontend + c.backend + c.config + c.docs }

  /** Each line adds at most one path to the lists and at most one to the counters. */
  lemma {:induction false} SummarizeBounds(rs: seq<Reading>)
    ensures Listed(Summarize(rs)) <= |rs| && Counted(Summarize(rs)) <= |rs|
    decreases |rs|
  {
    if rs != [] {
      SummarizeBounds(rs[..|rs| - 1]);
    }
  }

  /** The frontend pattern `.js` is tried first, so any path containing `.json` counts as frontend. */
  lemma JsonCountsAsFrontend(file: string)
    requires Contains(file, ".json")
    ensures CategoryOf(file) == Some(Frontend)
  {
    assert ".json"[..3] == ".js";
    ContainsPrefixOfPattern(file, ".json", ".js", 0);
    ContainsAnyMember(file, FrontendPatterns, 3);
  }

  // ---------------------------------------------------------------------
  // generateCommitMessage
  // ---------------------------------------------------------------------

  /** The message's type: `fix` when more paths are modified than added, else `refactor` when some are deleted, else `feat`. */
  function CommitType(c: Changes): (t: string)
    ensures t == "fix" <==> |c.modified| > |c.added|
    ensures t == "refactor" <==> |c.modified| <= |c.added| && |c.deleted| > 0
    ensures t == "feat" <==> |c.modified| <= |c.added| && |c.deleted| == 0
    ensures ':' !in t
  {
    if |c.modified| > |c.added| then "fix"
    else if |c.deleted| > 0 then "refactor"
    else "feat"
  }

  /** The label pushed for each area, in the order they are tried. */
  const AreaLabels: seq<string> := ["frontend updates", "backend changes", "configuration", "documentation"]

  /** The position of an area label in `AreaLabels`. */
  function LabelRank(name: string): (k: nat)
    requires name in AreaLabels
    ensures k < |AreaLabels| && AreaLabels[k] == name
  {
    if name == AreaLabels[0] then 0
    else if name == AreaLabels[1] then 1
    else if name == AreaLabels[2] then 2
    else 3
  }

  /**
   * The `descriptions` array: the label of every area with a non-zero
   * counter, each once, in the fixed area order.
   */
  function Labels(c: Changes): (ls: seq<string>)
    ensures forall i :: 0 <= i < |ls| ==> ls[i] in AreaLabels
    ensures forall i, j :: 0 <= i < j < |ls| ==> LabelRank(ls[i]) < LabelRank(ls[j])
    ensures AreaLabels[0] in ls <==> c.frontend > 0
    ensures AreaLabels[1] in ls <==> c.backend > 0
    ensures AreaLabels[2] in ls <==> c.config > 0
    ensures AreaLabels[3] in ls <==> c.docs > 0
  {
    (if c.frontend > 0 then [AreaLabels[0]] else [])
    + (if c.backend > 0 then [AreaLabels[1]] else [])
    + (if c.config > 0 then [AreaLabels[2]] else [])
    + (if c.docs > 0 then [AreaLabels[3]] else [])
  }

  /** `parts.join(sep)`, which starts with the first part. */
  function Join(parts: seq<string>, sep: string): (s: string)
    requires |parts| > 0
    ensures parts[0] <= s
  {
    if |parts| == 1 then parts[0] else parts[0] + sep + Join(parts[1..], sep)
  }

  /** The summary used when no area counter is non-zero. */
  const NoAreaSummary: string := "project updates"

  /** The message's description: the labels joined with `", "`, or `project updates` when there are none. */
  function Description(c: Changes): (d: string)
    ensures d == NoAreaSummary <==> c.frontend == 0 && c.backend == 0 && c.config == 0 && c.docs == 0
    ensures d != NoAreaSummary ==> d == Join(Labels(c), ", ")
  {
    var ls := Labels(c);
    if |ls| > 0 then
      assert ls[0][0] != 'p' by { assert ls[0] in AreaLabels; }
      Join(ls, ", ")
    else NoAreaSummary
  }

  /** The message read back: the text before its first `:`, and what follows `": "`. */
  function ParseMessage(msg: string): Option<(string, string)>
    decreases |msg|
  {
    if |msg| == 0 then None
    else if msg[0] == ':' then (if |msg| >= 2 && msg[1] == ' ' then Some(("", msg[2..])) else None)
    else
      match ParseMessage(msg[1..])
      case None => None
      case Some(parts) => Some(([msg[0]] + parts.0, parts.1))
  }

  /** A head without `:` followed by `": "` and a body is read back as that head and body. */
  lemma {:induction false} ParseHeadBody(head: string, body: string)
    requires ':' !in head
    ensures ParseMessage(head + ": " + body) == Some((head, body))
    decreases |head|
  {
    var msg := head + ": " + body;
    if head == [] {
      assert msg == ": " + body && msg[2..] == body;
    } else {
      assert msg[0] == head[0] && msg[1..] == head[1..] + ": " + body;
      ParseHeadBody(head[1..], body);
      assert [head[0]] + head[1..] == head;
    }
  }

  /**
   * `generateCommitMessage`: a conventional-commit message, which reads back
   * as the commit type before `": "` and the description after it.
   */
  function GenerateCommitMessage(c: Changes): (msg: string)
    ensures ParseMessage(msg) == Some((CommitType(c), Description(c)))
  {
    ParseHeadBody(CommitType(c), Description(c));
    CommitType(c) + ": " + Description(c)
  }

  // ---------------------------------------------------------------------
  // The output of git, before getGitChanges sees it
  // ---------------------------------------------------------------------

  /** `execCommand('git status --porcelain')` as written: the command's output, trimmed at both ends. */
  function TrimmedStatus(output: Option<string>): Option<string> {
    if output.None? then None else Some(Trim(output.value))
  }

  /** The evident intent: only trailing white space (the final line feed) is removed. */
  function CorrectedStatus(output: Option<string>): Option<string> {
    if output.None? then None else Some(TrimEnd(output.value))
  }

  /** One line of `git status --porcelain`: a two-character code, a space and a path. */
  datatype Entry = Entry(code: string, path: string)

  /** A code of two characters and a path on one line that does not end in white space. */
  predicate WellFormedEntry(e: Entry) {
    && |e.code| == 2 && '\n' !in e.code
    && |e.path| > 0 && '\n' !in e.path && !IsWhite(e.path[|e.path| - 1])
  }

  function EntryLine(e: Entry): string {
    e.code + " " + e.path
  }

  function EntryLines(entries: seq<Entry>): (ls: seq<string>)
    ensures |ls| == |entries| && forall i :: 0 <= i < |ls| ==> ls[i] == EntryLine(entries[i])
  {
    seq(|entries|, i requires 0 <= i < |entries| => EntryLine(entries[i]))
  }

  /** What git prints for `entries`: their lines, each ended by a line feed. */
  function PorcelainOutput(entries: seq<Entry>): string
    requires |entries| > 0
  {
    JoinLines(EntryLines(entries)) + "\n"
  }

  /** The paths of the entries whose code means `kind`, in order. */
  function PathsOfKind(entries: seq<Entry>, kind: ChangeKind): seq<string> {
    if entries == [] then []
    else (if KindOf(entries[0].code) == Some(kind) then [entries[0].path] else []) + PathsOfKind(entries[1..], kind)
  }

  /** A well-formed entry's line is not blank, and its code and path are read back exactly. */
  lemma EntryLineParts(e: Entry)
    requires WellFormedEntry(e)
    ensures ReadLine(EntryLine(e)) == EntryReading(e)
  {
    var line := EntryLine(e);
    assert line[|line| - 1] == e.path[|e.path| - 1];
    assert line[..2] == e.code && line[3..] == e.path;
  }

  /** What reading an entry's line gives: its path, under its code's list and its path's area. */
  function EntryReading(e: Entry): Reading {
    Path(e.path, KindOf(e.code), CategoryOf(e.path))
  }

  /** Readings that are those of the entries file each entry's path under its own code. */
  lemma {:induction false} FilesOfEntryReadings(rs: seq<Reading>, entries: seq<Entry>, kind: ChangeKind)
    requires |rs| == |entries| && forall i :: 0 <= i < |rs| ==> rs[i] == EntryReading(entries[i])
    ensures FilesOfKind(rs, kind) == PathsOfKind(entries, kind)
    decreases |rs|
  {
    if rs != [] {
      FilesOfEntryReadings(rs[1..], entries[1..], kind);
    }
  }

  /** Removing trailing white space after a text that ends in a non-white character gives that text. */
  lemma TrimEndWhiteSuffix(s: string, w: string)
    requires |s| > 0 && !IsWhite(s[|s| - 1])
    requires forall i :: 0 <= i < |w| ==> IsWhite(w[i])
    ensures TrimEnd(s + w) == s
  {
    var t := s + w;
    var end := SkipWhiteBack(t, |t|);
    assert t[|s| - 1] == s[|s| - 1];
    assert t[..|s|] == s;
  }

  /** Git's output for well-formed entries, with trailing white space removed, is their lines joined. */
  lemma CorrectedOutputIsLines(entries: seq<Entry>)
    requires |entries| > 0 && forall i :: 0 <= i < |entries| ==> WellFormedEntry(entries[i])
    ensures CorrectedStatus(Some(PorcelainOutput(entries))) == Some(JoinLines(EntryLines(entries)))
    ensures JoinLines(EntryLines(entries)) != ""
  {
    var lines := EntryLines(entries);
    var text := JoinLines(lines);
    var last := lines[|lines| - 1];
    var e := entries[|entries| - 1];
    JoinLinesEnd(lines);
    assert last[|last| - 1] == e.path[|e.path| - 1];
    assert text[|text| - 1] == last[|last| - 1];
    TrimEndWhiteSuffix(text, "\n");
  }

  /** The lines of well-formed entries split apart again and read as the entries' readings. */
  lemma EntryLinesReadBack(entries: seq<Entry>)
    requires |entries| > 0 && forall i :: 0 <= i < |entries| ==> WellFormedEntry(entries[i])
    ensures var rs := ReadLines(SplitLines(JoinLines(EntryLines(entries))));
      |rs| == |entries| && forall i :: 0 <= i < |rs| ==> rs[i] == EntryReading(entries[i])
  {
    var lines := EntryLines(entries);
    forall i | 0 <= i < |lines| ensures '\n' !in lines[i] {
      assert lines[i] == entries[i].code + " " + entries[i].path;
    }
    SplitJoin(lines);
    forall i | 0 <= i < |lines| ensures ReadLine(lines[i]) == EntryReading(entries[i]) {
      EntryLineParts(entries[i]);
    }
  }

  /**
   * With only trailing white space removed, every path git reports lands in
   * the list its code names, exactly as git printed it and in git's order.
   */
  lemma CorrectedStatusRoundTrip(entries: seq<Entry>)
    requires |entries| > 0 && forall i :: 0 <= i < |entries| ==> WellFormedEntry(entries[i])
    ensures var c := GitChanges(CorrectedStatus(Some(PorcelainOutput(entries))));
      && c.Some?
      && c.value.added == PathsOfKind(entries, Added)
      && c.value.modified == PathsOfKind(entries, Modified)
      && c.value.deleted == PathsOfKind(entries, Deleted)
  {
    CorrectedOutputIsLines(entries);
    EntryLinesReadBack(entries);
    var rs := ReadLines(SplitLines(JoinLines(EntryLines(entries))));
    SummarizeContents(rs);
    FilesOfEntryReadings(rs, entries, Added);
    FilesOfEntryReadings(rs, entries, Modified);
    FilesOfEntryReadings(rs, entries, Deleted);
  }

  /** Git's output for one unstaged modification of `app.go`, trimmed at both ends. */
  lemma TrimmedExampleOutput()
    ensures PorcelainOutput([Entry(" M", "app.go")]) == " M app.go\n"
    ensures Trim(" M app.go\n") == "M app.go"
  {
    var entries := [Entry(" M", "app.go")];
    assert EntryLine(entries[0]) == " M app.go";
    assert EntryLines(entries) == [" M app.go"];
    var output := " M app.go\n";
    assert SkipWhite(output, 0) == 1 by { assert IsWhite(output[0]) && !IsWhite(output[1]); }
    assert SkipWhiteBack(output, |output|) == 9 by { assert IsWhite(output[9]) && !IsWhite(output[8]); }
    assert output[1..9] == "M app.go";
  }

  /** The trimmed line `M app.go` reads as a modification of `pp.go`. */
  lemma TrimmedExampleReading()
    ensures ReadLine("M app.go") == Path("pp.go", Some(Modified), CategoryOf("pp.go"))
  {
    var line := "M app.go";
    assert StatusCode(line) == "M ";
    assert Trim("M ") == "M" by {
      assert SkipWhite("M ", 0) == 0 && SkipWhiteBack("M ", 2) == 1;
      assert "M "[0..1] == "M";
    }
    assert FilePath(line) == "pp.go";
    assert !IsBlank(line);
  }

  /** A single modified path is the only modified path of its summary. */
  lemma OneModification(file: string, category: Option<Category>)
    ensures Summarize([Path(file, Some(Modified), category)]).modified == [file]
  {
    var r := Path(file, Some(Modified), category);
    assert [r][..0] == [];
    AddReadingParts(NoChanges, r);
  }

  /** Git's `app.go` entry, read without the trim, is a modification of `app.go`. */
  lemma ExampleEntryPaths()
    ensures PathsOfKind([Entry(" M", "app.go")], Modified) == ["app.go"]
  {
    assert Trim(" M") == "M" by {
      assert SkipWhite(" M", 0) == 1 && SkipWhiteBack(" M", 2) == 2;
      assert " M"[1..2] == "M";
    }
    assert KindOf(" M") == Some(Modified);
    assert [Entry(" M", "app.go")][1..] == [];
  }

  /**
   * As written, the trim also removes the leading space of a first line
   * whose index column is blank: git's ` M app.go` is read as code `M ` and
   * path `pp.go`.
   */
  lemma TrimmedStatusLosesFirstPathCharacter()
    ensures var entries := [Entry(" M", "app.go")];
      var c := GitChanges(TrimmedStatus(Some(PorcelainOutput(entries))));
      && PathsOfKind(entries, Modified) == ["app.go"]
      && c.Some? && c.value.modified == ["pp.go"]
  {
    var status := "M app.go";
    TrimmedExampleOutput();
    SplitJoin([status]);
    TrimmedExampleReading();
    ExampleEntryPaths();
    var r := Path("pp.go", Some(Modified), CategoryOf("pp.go"));
    assert ReadLines([status]) == [r];
    OneModification("pp.go", CategoryOf("pp.go"));
  }

  /**
   * The message `main` proposes from git's output as the script reads it
   * (trimmed at both ends): none (the script exits) when there are no
   * changes, else the command-line argument when one is given, else the
   * generated message.
   */
  function ProposedMessage(output: Option<string>, argument: Option<string>): (m: Option<string>)
    ensures m.None? <==> GitChanges(TrimmedStatus(output)).None?
    ensures m.Some? && argument.Some? && argument.value != "" ==> m.value == argument.value
    ensures m.Some? && (argument.None? || argument.value == "") ==>
      ParseMessage(m.value) == Some((CommitType(GitChanges(TrimmedStatus(output)).value),
                                     Description(GitChanges(TrimmedStatus(output)).value)))
  {
    match GitChanges(TrimmedStatus(output))
    case None => None
    case Some(changes) =>
      if argument.Some? && argument.value != "" then argument else Some(GenerateCommitMessage(changes))
  }

  /** The message `main` would propose if git's output lost only its trailing white space. */
  function CorrectedProposedMessage(output: Option<string>, argument: Option<string>): (m: Option<string>)
    ensures m.None? <==> GitChanges(CorrectedStatus(output)).None?
    ensures m.Some? && argument.Some? && argument.value != "" ==> m.value == argument.value
    ensures m.Some? && (argument.None? || argument.value == "") ==>
      ParseMessage(m.value) == Some((CommitType(GitChanges(CorrectedStatus(output)).value),
                                     Description(GitChanges(CorrectedStatus(output)).value)))
  {
    match GitChanges(CorrectedStatus(output))
    case None => None
    case Some(changes) =>
      if argument.Some? && argument.value != "" then argument else Some(GenerateCommitMessage(changes))
  }
}
