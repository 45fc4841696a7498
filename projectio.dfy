/** The project tools of bin/llm_call_tools/projectio/__init__.py:
    project_reader (a directory tree or the head of a file), code_searcher
    (the passages or lines holding a keyword) and code_modifier (has the
    coder model rewrite a file and saves the code block of its reply). */
module ProjectIO {
  import opened PyStr
  import opened Json
  import opened World
  import opened Registry
  import Gateway

  // ---------------------------------------------------------------- project_reader

  /** `os.sep` on the POSIX systems the relay runs on. */
  const Sep := '/'

  /** `'    ' * level`. */
  function Indent(level: nat): (r: string)
    ensures |r| == 4 * level && forall i :: 0 <= i < |r| ==> r[i] == ' '
  {
    if level == 0 then "" else "    " + Indent(level - 1)
  }

  /** `os.path.basename(p)`: what follows the last separator. */
  function Basename(p: string): (r: string)
    ensures |r| <= |p| && r == p[|p| - |r|..]
    ensures forall i :: 0 <= i < |r| ==> r[i] != Sep
    ensures |r| < |p| ==> p[|p| - |r| - 1] == Sep
  {
    match RFindChar(p, Sep)
    case Some(i) => p[i + 1..]
    case None => p
  }

  /** `root.replace(path, '').count(os.sep)`: how deep a walked directory is drawn. */
  function Level(root: string, top: string): nat {
    CountChar(RemoveAll(root, top), Sep)
  }

  /** The lines of the files of one walked directory, one level deeper. */
  function FileLines(files: seq<string>, level: nat): (r: seq<string>)
    ensures |r| == |files|
    ensures forall k :: 0 <= k < |files| ==> r[k] == Indent(level + 1) + files[k]
  {
    seq(|files|, k requires 0 <= k < |files| => Indent(level + 1) + files[k])
  }

  /** The lines drawn for one `(root, dirs, files)` triple. */
  function EntryLines(e: WalkEntry, top: string): (r: seq<string>)
    ensures |r| == 1 + |e.files|
  {
    var level := Level(e.root, top);
    [Indent(level) + Basename(e.root) + "/"] + FileLines(e.files, level)
  }

  /** The tree, listing the walk's directories in the order os.walk yields them. */
  function TreeLines(entries: seq<WalkEntry>, top: string): seq<string> {
    if entries == [] then [] else EntryLines(entries[0], top) + TreeLines(entries[1..], top)
  }

  /** The tree of a walk that runs on is the tree of what was walked so far,
      followed by the lines of what comes next. */
  lemma {:induction false} TreeLinesAppend(a: seq<WalkEntry>, b: seq<WalkEntry>, top: string)
    ensures TreeLines(a + b, top) == TreeLines(a, top) + TreeLines(b, top)
  {
    if a == [] {
      assert a + b == b;
    } else {
      assert (a + b)[0] == a[0];
      assert (a + b)[1..] == a[1..] + b;
      TreeLinesAppend(a[1..], b, top);
    }
  }

  /** Every walked directory and every file in it is drawn, each file one
      level below its directory. */
  lemma {:induction false} TreeShowsEveryFile(entries: seq<WalkEntry>, top: string, e: nat, k: nat)
    requires e < |entries| && k < |entries[e].files|
    ensures var level := Level(entries[e].root, top);
      Indent(level) + Basename(entries[e].root) + "/" in TreeLines(entries, top)
      && Indent(level + 1) + entries[e].files[k] in TreeLines(entries, top)
  {
    assert entries == entries[..e] + [entries[e]] + entries[e + 1..];
    TreeLinesAppend(entries[..e] + [entries[e]], entries[e + 1..], top);
    TreeLinesAppend(entries[..e], [entries[e]], top);
    var lines := EntryLines(entries[e], top);
    assert TreeLines([entries[e]], top) == lines by {
      assert [entries[e]][1..] == [];
    }
    assert lines[1 + k] == Indent(Level(entries[e].root, top) + 1) + entries[e].files[k];
  }

  /** The top directory is drawn at level 0, and when the requested path
      holds no separator, a directory's level is the number of separators
      in its path. */
  lemma LevelCountsSeparators(root: string, top: string)
    requires forall i :: 0 <= i < |top| ==> top[i] != Sep
    ensures Level(root, top) == CountChar(root, Sep)
  {
    RemoveAllKeepsCount(root, top, Sep);
  }

  /** The loop of `handle_project_reader` over `os.walk(path)`. */
  method BuildTree(entries: seq<WalkEntry>, top: string) returns (tree: seq<string>)
    ensures tree == TreeLines(entries, top)
  {
    tree := [];
    for i := 0 to |entries|
      invariant tree == TreeLines(entries[..i], top)
    {
      var e := entries[i];
      var level := Level(e.root, top);
      var indent := Indent(level);
      ghost var before := tree;
      var head := indent + Basename(e.root) + "/";
      tree := AddFileLines(tree + [head], e.files, level);
      EntryAppended(before, head, e, top);
      EntryStep(entries, i, top);
    }
    assert entries[..|entries|] == entries;
  }

  lemma EntryAppended(before: seq<string>, head: string, e: WalkEntry, top: string)
    requires head == Indent(Level(e.root, top)) + Basename(e.root) + "/"
    ensures (before + [head]) + FileLines(e.files, Level(e.root, top)) == before + EntryLines(e, top)
  {
    assert EntryLines(e, top) == [head] + FileLines(e.files, Level(e.root, top));
  }

  /** One more walked directory adds its lines at the end of the tree. */
  lemma {:induction false} EntryStep(entries: seq<WalkEntry>, i: nat, top: string)
    requires i < |entries|
    ensures TreeLines(entries[..i + 1], top) == TreeLines(entries[..i], top) + EntryLines(entries[i], top)
  {
    var x := entries[i];
    var pre := entries[..i];
    var all := entries[..i + 1];
    assert all == pre + [x];
    TreeLinesAppend(pre, [x], top);
    assert TreeLines(all, top) == TreeLines(pre, top) + TreeLines([x], top);
    TreeOfOne(x, top);
  }

  lemma TreeOfOne(x: WalkEntry, top: string)
    ensures TreeLines([x], top) == EntryLines(x, top)
  {
    assert [x][1..] == [];
    assert TreeLines([x][1..], top) == [];
  }

  /** The inner loop: one line per file, one level below the directory. */
  method AddFileLines(tree: seq<string>, files: seq<string>, level: nat) returns (out: seq<string>)
    ensures out == tree + FileLines(files, level)
  {
    out := tree;
    var subindent := Indent(level + 1);
    for k := 0 to |files|
      invariant out == tree + FileLines(files, level)[..k]
    {
      assert FileLines(files, level)[..k + 1] == FileLines(files, level)[..k] + [subindent + files[k]];
      out := out + [subindent + files[k]];
    }
    assert FileLines(files, level)[..|files|] == FileLines(files, level);
  }

  /** `int(v)`: integers, booleans and decimal strings; `None` where Python
      raises ValueError or TypeError. */
  function IntOf(v: Value): (r: Option<int>)
    ensures v.Int? ==> r == Some(v.i)
    ensures v.Str? ==> r == ParseInt(v.s)
    ensures v.Bool? ==> r == Some(if v.b then 1 else 0)
    ensures v.Null? || v.Arr? || v.Obj? ==> r.None?
  {
    match v
    case Int(i) => Some(i)
    case Bool(b) => Some(if b then 1 else 0)
    case Str(s) => ParseInt(s)
    case _ => None
  }

  /** `''.join(f.readlines()[:max_lines])`. */
  function Preview(content: string, maxLines: int): string {
    Concat(Take(ReadLines(content), maxLines))
  }

  /** The preview is the start of the file, at most `max_lines` lines of it,
      and the whole file when it has no more lines than that. */
  lemma PreviewIsPrefix(content: string, maxLines: int)
    ensures var p := Preview(content, maxLines);
      |p| <= |content| && content[..|p|] == p
    ensures maxLines >= |ReadLines(content)| ==> Preview(content, maxLines) == content
    ensures maxLines >= 0 ==> |Take(ReadLines(content), maxLines)| <= maxLines
  {
    var lines := ReadLines(content);
    var taken := Take(lines, maxLines);
    assert lines == taken + lines[|taken|..];
    ConcatAppend(taken, lines[|taken|..]);
  }

  /** `handle_project_reader`: parameters `path` (default ".") and
      `max_lines` (default 50); a directory is drawn as a tree, a file is
      previewed. Nothing is changed. */
  function ProjectReader(p: Value, env: Env, host: Host): (r: Reply)
    ensures r.env == env
    ensures !p.Obj? ==> r.Raised?
    ensures p.Obj? && !HasKey(p.fields, "path") && !HasKey(p.fields, "max_lines") && IsDir(env.disk, ".") ==>
      r == Returned(Join("\n", TreeLines(env.disk.walks["."], ".")), env)
    ensures p.Obj? ==> var path := GetOr(p.fields, "path", Str("."));
      var limit := IntOf(GetOr(p.fields, "max_lines", Int(50)));
      limit.Some? && path.Str? ==>
        (IsDir(env.disk, path.s) ==> r == Returned(Join("\n", TreeLines(env.disk.walks[path.s], path.s)), env))
        && (IsFile(env.disk, path.s) ==> r == Returned(FilePreview(path.s, env.disk.files[path.s], limit.value), env))
        && (!Exists(env.disk, path.s) ==> r == Returned(ReaderMissing(path.s), env))
    ensures p.Obj? && r.Raised? ==> IntOf(GetOr(p.fields, "max_lines", Int(50))).None? || !GetOr(p.fields, "path", Str(".")).Str?
  {
    if !p.Obj? then Raised("AttributeError", env)
    else
      var path := GetOr(p.fields, "path", Str("."));
      var limit := GetOr(p.fields, "max_lines", Int(50));
      match IntOf(limit)
      case None => Raised(if limit.Str? then "ValueError" else "TypeError", env)
      case Some(maxLines) =>
        if !path.Str? then Raised("TypeError", env)
        else if IsDir(env.disk, path.s) then Returned(Join("\n", TreeLines(env.disk.walks[path.s], path.s)), env)
        else if IsFile(env.disk, path.s) then
          Returned(FilePreview(path.s, env.disk.files[path.s], maxLines), env)
        else Returned(ReaderMissing(path.s), env)
  }

  function FilePreview(path: string, content: string, maxLines: int): string {
    "【檔案預覽】" + path + "\n" + Preview(content, maxLines)
  }

  function ReaderMissing(path: string): string {
    "[-] project_reader: 找不到路徑 " + path
  }

  /** Without `max_lines` a file is previewed by its first 50 lines: the
      report is the heading and the start of the file, the whole file when
      it is no longer than that. */
  lemma ReaderPreviewsFifty(p: Value, env: Env, host: Host, path: string)
    requires p.Obj? && !HasKey(p.fields, "max_lines") && GetOr(p.fields, "path", Str(".")) == Str(path)
    requires IsFile(env.disk, path)
    ensures var content := env.disk.files[path];
      ProjectReader(p, env, host) == Returned(FilePreview(path, content, 50), env)
      && (|ReadLines(content)| <= 50 ==> ProjectReader(p, env, host).text == "【檔案預覽】" + path + "\n" + content)
  {
    PreviewIsPrefix(env.disk.files[path], 50);
  }

  // ---------------------------------------------------------------- code_searcher

  const SearchMissingParams := "[-] code_searcher: 缺少 file 或 keyword 參數。"

  /** The lines that hold `keyword`, in file order. */
  function KeywordLines(lines: seq<string>, keyword: string): (r: seq<string>)
    ensures |r| <= |lines|
    ensures forall i :: 0 <= i < |r| ==> Contains(r[i], keyword) && r[i] in lines
    ensures forall l :: l in lines && Contains(l, keyword) ==> l in r
  {
    if lines == [] then []
    else
      var rest := KeywordLines(lines[1..], keyword);
      assert forall l :: l in lines[1..] ==> l in lines;
      if Contains(lines[0], keyword) then [lines[0]] + rest else rest
  }

  /** Filtering keeps the file's order: the lines found in `a + b` are those
      of `a` followed by those of `b`. */
  lemma {:induction false} KeywordLinesAppend(a: seq<string>, b: seq<string>, keyword: string)
    ensures KeywordLines(a + b, keyword) == KeywordLines(a, keyword) + KeywordLines(b, keyword)
  {
    if a == [] {
      assert a + b == b;
    } else {
      assert (a + b)[0] == a[0];
      assert (a + b)[1..] == a[1..] + b;
      KeywordLinesAppend(a[1..], b, keyword);
    }
  }

  function SegmentsFound(n: nat, segments: seq<string>): string {
    "【搜尋結果】共 " + IntToStr(n) + " 段\n" + Join("\n---\n", segments)
  }

  function LinesFound(n: nat, lines: seq<string>): string {
    "【搜尋結果】共 " + IntToStr(n) + " 行\n" + Join("\n", lines)
  }

  /** What code_searcher reports for the text of a file: the paragraphs the
      pattern finds; failing that, the lines holding the keyword. */
  function SearchReport(content: string, keyword: string, host: Host): (r: string)
    ensures host.segments(content, keyword) == [] && KeywordLines(SplitLines(content), keyword) == [] ==>
      r == "[-] code_searcher: 未找到關鍵字 " + keyword
  {
    var segments := host.segments(content, keyword);
    if segments != [] then SegmentsFound(|segments|, segments)
    else
      var lines := KeywordLines(SplitLines(content), keyword);
      if lines != [] then LinesFound(|lines|, lines)
      else "[-] code_searcher: 未找到關鍵字 " + keyword
  }

  /** `handle_code_searcher`: parameters `file` and `keyword`; read only. */
  function CodeSearcher(p: Value, env: Env, host: Host): (r: Reply)
    ensures r.env == env
    ensures p.Obj? && !(Truthy(GetOr(p.fields, "file", Null)) && Truthy(GetOr(p.fields, "keyword", Null))) ==>
      r == Returned(SearchMissingParams, env)
    ensures p.Obj? ==> var file := GetOr(p.fields, "file", Null);
      var keyword := GetOr(p.fields, "keyword", Null);
      file.Str? && file.s != "" && keyword.Str? && keyword.s != "" ==>
        (IsFile(env.disk, file.s) ==> r == Returned(SearchReport(env.disk.files[file.s], keyword.s, host), env))
        && (!IsFile(env.disk, file.s) ==> r == Returned(SearchNoFile(file.s), env))
    ensures r.Raised? <==> !p.Obj? || (var file := GetOr(p.fields, "file", Null);
      var keyword := GetOr(p.fields, "keyword", Null);
      Truthy(file) && Truthy(keyword) && (!file.Str? || (IsFile(env.disk, file.s) && !keyword.Str?)))
    ensures r.Raised? ==> r.error == (if p.Obj? then "TypeError" else "AttributeError")
  {
    if !p.Obj? then Raised("AttributeError", env)
    else
      var file := GetOr(p.fields, "file", Null);
      var keyword := GetOr(p.fields, "keyword", Null);
      if !Truthy(file) || !Truthy(keyword) then Returned(SearchMissingParams, env)
      else if !file.Str? then Raised("TypeError", env)
      else if !IsFile(env.disk, file.s) then Returned(SearchNoFile(file.s), env)
      // `re.escape` accepts only text
      else if !keyword.Str? then Raised("TypeError", env)
      else Returned(SearchReport(env.disk.files[file.s], keyword.s, host), env)
  }

  function SearchNoFile(file: string): string {
    "[-] code_searcher: 找不到檔案 " + file
  }

  /** When the paragraph pattern finds nothing, every line holding the
      keyword is reported, and the count given is the number of them. */
  lemma SearchFallsBackToLines(content: string, keyword: string, host: Host, line: string)
    requires host.segments(content, keyword) == []
    requires line in SplitLines(content) && Contains(line, keyword)
    ensures var lines := KeywordLines(SplitLines(content), keyword);
      line in lines && SearchReport(content, keyword, host) == LinesFound(|lines|, lines)
  {
  }

  // ---------------------------------------------------------------- code_modifier

  const ModifierMissingParams := "[-] code_modifier: 缺少 file 或 instruction 參數。"

  const ModifierSystem := "你是一個專業工程師，請直接輸出修改後完整程式碼。"

  function ModifierPrompt(instruction: string, original: string): string {
    "請根據以下需求修改程式碼：\n需求：" + instruction + "\n原始程式碼：\n" + original + "\n請直接輸出修改後完整程式碼，不要解釋。"
  }

  /** `\w`; it never matches a line break. */
  predicate WordChar(host: Host, c: char) {
    c != '\n' && host.isWordChar(c)
  }

  /** The end of the run of word characters that starts at `i`. */
  function WordRunEnd(s: string, i: nat, host: Host): (r: nat)
    requires i <= |s|
    ensures i <= r <= |s|
    ensures forall j :: i <= j < r ==> WordChar(host, s[j])
    ensures r < |s| ==> !WordChar(host, s[r])
    decreases |s| - i
  {
    if i < |s| && WordChar(host, s[i]) then WordRunEnd(s, i + 1, host) else i
  }

  /** Three backticks, a fence, start at `i`. */
  predicate TicksAt(s: string, i: nat) {
    i + 3 <= |s| && s[i] == '`' && s[i + 1] == '`' && s[i + 2] == '`'
  }

  /** The first fence at or after `from`. */
  function NextTicks(s: string, from: nat): (r: Option<nat>)
    ensures r.Some? ==> from <= r.value && TicksAt(s, r.value)
    ensures r.Some? ==> forall j :: from <= j < r.value ==> !TicksAt(s, j)
    ensures r.None? ==> forall j :: from <= j ==> !TicksAt(s, j)
    decreases |s| - from
  {
    if from + 3 > |s| then None
    else if TicksAt(s, from) then Some(from)
    else NextTicks(s, from + 1)
  }

  /** A fence is an occurrence of the text "```". */
  lemma TicksAreFence(s: string, i: nat)
    ensures TicksAt(s, i) <==> OccursAt(s, "```", i)
  {
    if i + 3 <= |s| {
      assert s[i..i + 3][0] == s[i] && s[i..i + 3][1] == s[i + 1] && s[i..i + 3][2] == s[i + 2];
      if TicksAt(s, i) {
        assert s[i..i + 3] == "```";
      }
    }
  }

  /** The body the pattern ```` ```(?:\w+)?\n([\s\S]+?)``` ```` captures when
      it matches at `i`: an opening fence, an optional language word, a line
      break, and then at least one character up to the nearest closing fence. */
  function FenceAt(s: string, i: nat, host: Host): (r: Option<string>)
    requires i <= |s|
    ensures r.Some? ==> TicksAt(s, i)
  {
    if !TicksAt(s, i) then None
    else
      var k := WordRunEnd(s, i + 3, host);
      if k >= |s| || s[k] != '\n' then None
      else match NextTicks(s, k + 2)
        case None => None
        case Some(m) => Some(s[k + 1..m])
  }

  /** `re.search` of the fence pattern from position `i` on: the first
      position where it matches. */
  function FirstFence(s: string, i: nat, host: Host): (r: Option<string>)
    requires i <= |s|
    ensures r.None? ==> forall j :: i <= j <= |s| ==> FenceAt(s, j, host).None?
    decreases |s| - i
  {
    match FenceAt(s, i, host)
    case Some(body) => Some(body)
    case None => if i == |s| then None else FirstFence(s, i + 1, host)
  }

  /** The search finds the match at the least position where there is one. */
  lemma {:induction false} FirstFenceAt(s: string, i: nat, j: nat, host: Host)
    requires i <= j <= |s| && FenceAt(s, j, host).Some?
    requires forall k :: i <= k < j ==> FenceAt(s, k, host).None?
    ensures FirstFence(s, i, host) == FenceAt(s, j, host)
    decreases j - i
  {
    if i < j {
      FirstFenceAt(s, i + 1, j, host);
    }
  }

  /** The fenced body of a reply, stripped; the whole reply when it has none. */
  function ExtractCode(reply: string, host: Host): (r: string)
    ensures FirstFence(reply, 0, host).None? ==> r == reply
    ensures FirstFence(reply, 0, host).Some? ==> r == Strip(FirstFence(reply, 0, host).value)
  {
    match FirstFence(reply, 0, host)
    case Some(body) => Strip(body)
    case None => reply
  }

  /** A body with no fence inside it, not even one running into the
      closing fence. */
  predicate Unfenced(body: string) {
    forall j :: 0 <= j < |body| ==> !TicksAt(body + "```", j)
  }

  /** A reply holding a fenced block after some prose without a backtick
      yields that block's body: a fence, a language word, a line break, a
      body with no fence of its own, and the closing fence. */
  lemma FenceRoundTrip(before: string, lang: string, body: string, after: string, host: Host)
    requires forall j :: 0 <= j < |before| ==> before[j] != '`'
    requires forall j :: 0 <= j < |lang| ==> WordChar(host, lang[j])
    requires body != [] && Unfenced(body)
    ensures FirstFence(before + "```" + lang + "\n" + body + "```" + after, 0, host) == Some(body)
  {
    var s := before + "```" + lang + "\n" + body + "```" + after;
    var b := |before|;
    var k := b + 3 + |lang|;
    OpeningFence(s, before, lang, body, after, host);
    FenceAtBody(s, b, k, body, host);
    FirstFenceIsAt(s, b, body, host);
  }

  /** The opening fence after `before`, its language word and line break,
      and the body with the closing fence after them. */
  lemma OpeningFence(s: string, before: string, lang: string, body: string, after: string, host: Host)
    requires s == before + "```" + lang + "\n" + body + "```" + after
    requires forall j :: 0 <= j < |before| ==> before[j] != '`'
    requires forall j :: 0 <= j < |lang| ==> WordChar(host, lang[j])
    ensures var b, k := |before|, |before| + 3 + |lang|;
      && k + 1 + |body| + 3 <= |s| && TicksAt(s, b) && s[k] == '\n' && WordRunEnd(s, b + 3, host) == k
      && (forall j :: 0 <= j < b ==> s[j] != '`')
      && (forall j :: 0 <= j < |body| + 3 ==> s[k + 1 + j] == (body + "```")[j])
  {
    var b := |before|;
    var k := b + 3 + |lang|;
    forall j | 0 <= j < b ensures s[j] == before[j] { }
    forall j | b + 3 <= j < k ensures WordChar(host, s[j]) {
      assert s[j] == lang[j - b - 3];
    }
    WordRunEndAt(s, b + 3, k, host);
    forall j | 0 <= j < |body| + 3 ensures s[k + 1 + j] == (body + "```")[j] { }
  }

  /** The match at `b` captures `body`. */
  lemma FenceAtBody(s: string, b: nat, k: nat, body: string, host: Host)
    requires b + 3 <= k && k + 1 + |body| + 3 <= |s| && TicksAt(s, b) && s[k] == '\n'
    requires WordRunEnd(s, b + 3, host) == k
    requires forall j :: 0 <= j < |body| + 3 ==> s[k + 1 + j] == (body + "```")[j]
    requires body != [] && Unfenced(body)
    ensures FenceAt(s, b, host) == Some(body)
  {
    ClosingFence(s, k + 1, body);
    FenceAtParts(s, b, k, body, host);
  }

  /** With no backtick before `b`, the search finds the match at `b`. */
  lemma FirstFenceIsAt(s: string, b: nat, body: string, host: Host)
    requires b <= |s| && FenceAt(s, b, host) == Some(body)
    requires forall j :: 0 <= j < b ==> s[j] != '`'
    ensures FirstFence(s, 0, host) == Some(body)
  {
    forall j | 0 <= j < b ensures FenceAt(s, j, host).None? { }
    FirstFenceAt(s, 0, b, host);
  }

  /** A body without a fence of its own, followed by the closing fence. */
  lemma ClosingFence(s: string, c: nat, body: string)
    requires c + |body| + 3 <= |s| && body != [] && Unfenced(body)
    requires forall j :: 0 <= j < |body| + 3 ==> s[c + j] == (body + "```")[j]
    ensures NextTicks(s, c + 1) == Some(c + |body|)
    ensures s[c..c + |body|] == body
  {
    var m := c + |body|;
    var tail := body + "```";
    forall j | c + 1 <= j < m ensures !TicksAt(s, j) {
      assert !TicksAt(tail, j - c);
      assert s[j] == tail[j - c] && s[j + 1] == tail[j - c + 1] && s[j + 2] == tail[j - c + 2];
    }
    assert s[m] == tail[|body|] && s[m + 1] == tail[|body| + 1] && s[m + 2] == tail[|body| + 2];
    assert TicksAt(s, m);
    assert s[c..m] == body by {
      forall j | 0 <= j < |body| ensures s[c..m][j] == body[j] {
        assert s[c + j] == tail[j];
      }
    }
  }

  /** A fence at `b`, the line break ending its word at `k`, and the next
      fence from `k + 2` on right after `body`: the pattern captures `body`. */
  lemma FenceAtParts(s: string, b: nat, k: nat, body: string, host: Host)
    requires b + 3 <= k < |s| && TicksAt(s, b) && s[k] == '\n'
    requires WordRunEnd(s, b + 3, host) == k
    requires NextTicks(s, k + 2) == Some(k + 1 + |body|)
    requires s[k + 1..k + 1 + |body|] == body
    ensures FenceAt(s, b, host) == Some(body)
  {
  }

  /** A run of word characters ending at a non-word character ends there. */
  lemma {:induction false} WordRunEndAt(s: string, i: nat, k: nat, host: Host)
    requires i <= k < |s| && !WordChar(host, s[k])
    requires forall j :: i <= j < k ==> WordChar(host, s[j])
    ensures WordRunEnd(s, i, host) == k
    decreases k - i
  {
    if i < k {
      WordRunEndAt(s, i + 1, k, host);
    }
  }

  /** `handle_code_modifier`: parameters `file` and `instruction`; the coder
      model's rewrite of the file is saved over it. */
  function CodeModifier(p: Value, env: Env, host: Host): (r: Reply)
    ensures r.env.context == env.context
    ensures r.env.disk.walks == env.disk.walks
    ensures p.Obj? && !(Truthy(GetOr(p.fields, "file", Null)) && Truthy(GetOr(p.fields, "instruction", Null))) ==>
      r == Returned(ModifierMissingParams, env)
    ensures p.Obj? ==> var file := GetOr(p.fields, "file", Null);
      var instruction := GetOr(p.fields, "instruction", Null);
      file.Str? && file.s != "" && Truthy(instruction) ==>
        (IsFile(env.disk, file.s) ==>
           r == ApplyRewrite(file.s, ModifierReply(file.s, Text(instruction), env, host), env, host))
        && (!IsFile(env.disk, file.s) ==> r == Returned(ModifierNoFile(file.s), env))
    ensures r.Raised? <==> !p.Obj? || (var file := GetOr(p.fields, "file", Null);
      Truthy(file) && Truthy(GetOr(p.fields, "instruction", Null)) && !file.Str?)
    ensures r.Raised? ==> r.error == (if p.Obj? then "TypeError" else "AttributeError")
  {
    if !p.Obj? then Raised("AttributeError", env)
    else
      var file := GetOr(p.fields, "file", Null);
      var instruction := GetOr(p.fields, "instruction", Null);
      if !Truthy(file) || !Truthy(instruction) then Returned(ModifierMissingParams, env)
      else if !file.Str? then Raised("TypeError", env)
      else if !IsFile(env.disk, file.s) then Returned(ModifierNoFile(file.s), env)
      else ApplyRewrite(file.s, ModifierReply(file.s, Text(instruction), env, host), env, host)
  }

  function ModifierNoFile(file: string): string {
    "[-] code_modifier: 找不到檔案 " + file
  }

  /** The coder model's reply to the request to rewrite `file`. */
  function ModifierReply(file: string, instruction: string, env: Env, host: Host): string
    requires file in env.disk.files
  {
    Gateway.CallLlm(host, env.disk, "coder", ModifierPrompt(instruction, env.disk.files[file]),
                    ModifierSystem, 4096, "0.2", None)
  }

  /** What code_modifier does with the model's reply: code shorter than ten
      characters is refused and nothing changes; otherwise it replaces the
      file, and the report previews its first 100 characters on one line. */
  function ApplyRewrite(file: string, reply: string, env: Env, host: Host): (r: Reply)
    ensures r.Returned? && r.env.context == env.context && r.env.disk.walks == env.disk.walks
    ensures |ExtractCode(reply, host)| < 10 ==> r.env == env
    ensures |ExtractCode(reply, host)| >= 10 ==> r.env.disk == Write(env.disk, file, ExtractCode(reply, host))
    ensures |ExtractCode(reply, host)| < 10 ==> r.text == RewriteRefused(reply)
    ensures |ExtractCode(reply, host)| >= 10 ==> r.text == RewriteDone(file, OneLinePreview(ExtractCode(reply, host)))
  {
    var code := ExtractCode(reply, host);
    if |code| < 10 then Returned(RewriteRefused(reply), env)
    else
      assert Write(env.disk, file, code).files[file] == code;
      Returned(RewriteDone(file, OneLinePreview(code)), env.(disk := Write(env.disk, file, code)))
  }

  function RewriteRefused(reply: string): string {
    "[-] code_modifier: LLM 未產生有效程式碼。原始回應：\n" + reply
  }

  function RewriteDone(file: string, preview: string): string {
    "【程式碼修改成功】已寫入至 " + file + "。預覽：" + preview + "..."
  }

  /** `code[:100].replace("\n", " ")`: the first 100 characters of the code
      on one line. */
  function OneLinePreview(code: string): (r: string)
    ensures |r| == if |code| < 100 then |code| else 100
    ensures forall j :: 0 <= j < |r| ==> r[j] == if code[j] == '\n' then ' ' else code[j]
    ensures forall j :: 0 <= j < |r| ==> r[j] != '\n'
  {
    ReplaceChar(Take(code, 100), '\n', ' ')
  }

  /** A reply holding a fenced block with enough code in it, after prose
      without a backtick, puts exactly that code, stripped, into the file. */
  lemma RewriteSavesFencedCode(file: string, before: string, lang: string, body: string, after: string, env: Env, host: Host)
    requires forall j :: 0 <= j < |before| ==> before[j] != '`'
    requires forall j :: 0 <= j < |lang| ==> WordChar(host, lang[j])
    requires body != [] && Unfenced(body)
    requires |Strip(body)| >= 10
    ensures var r := ApplyRewrite(file, before + "```" + lang + "\n" + body + "```" + after, env, host);
      r.env.disk == Write(env.disk, file, Strip(body)) && r.env.disk.files[file] == Strip(body)
  {
    var reply := before + "```" + lang + "\n" + body + "```" + after;
    FenceRoundTrip(before, lang, body, after, host);
    FencedCode(reply, body, host);
    RewriteWrites(file, reply, Strip(body), env, host);
  }

  lemma FencedCode(reply: string, body: string, host: Host)
    requires FirstFence(reply, 0, host) == Some(body)
    ensures ExtractCode(reply, host) == Strip(body)
  {
  }

  lemma RewriteWrites(file: string, reply: string, code: string, env: Env, host: Host)
    requires ExtractCode(reply, host) == code && |code| >= 10
    ensures ApplyRewrite(file, reply, env, host).env.disk == Write(env.disk, file, code)
    ensures Write(env.disk, file, code).files[file] == code
  {
  }

  // ---------------------------------------------------------------- registration

  /** The prompts the tools are registered with. */
  const ProjectReaderDescription := "讀取專案目錄結構或檔案內容，支援 path 參數指定目錄或檔案。"
  const CodeSearcherDescription := "根據關鍵字搜尋程式片段，支援 file 與 keyword 參數。"
  const CodeModifierDescription := "根據需求自動修改程式碼，支援 file 與 instruction 參數。"

  /** The module's tools in declaration order: name, prompt and the tags
      given to the decorator, and the handler. */
  const Tools: seq<(string, string, seq<string>, Handler)> := [
    ("project_reader", ProjectReaderDescription,
     ["project", "reader", "file"], ProjectReader),
    ("code_searcher", CodeSearcherDescription,
     ["search", "code", "project"], CodeSearcher),
    ("code_modifier", CodeModifierDescription,
     ["modify", "code", "project"], CodeModifier)
  ]
}
