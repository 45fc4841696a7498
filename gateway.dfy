/** The model gateway of `PiAiRelaySystem` (bin/chatcall.py): `strip_noise`
    and `call_llm`. The inference process is `Host.run`; what the gateway
    itself decides is whether a model file is there, the argument vector,
    and how the captured output is cleaned. */
module Gateway {
  import opened PyStr
  import Json
  import opened World

  /** `LLAMA_BIN` of the configuration. */
  const LlamaBin := "./llama.bin/llama-completion"

  /** Substrings that mark a line of the engine's own log. */
  const NoiseMarkers: seq<string> := ["load_tensors:", "llama_", "main:", "build:", "repeat_last_n", "dry_multiplier"]

  /** Chat-template sentinels removed from a reply, in this order. */
  const SentinelTags: seq<string> := ["assistant", "<|im_start|>", "<|im_end|>", "[end of text]", "Assistant:", "User:"]

  predicate IsNoise(line: string) {
    exists m :: m in NoiseMarkers && Contains(line, m)
  }

  /** The lines that carry none of the noise markers. */
  function CleanLines(lines: seq<string>): (r: seq<string>)
    ensures |r| <= |lines|
    ensures forall i :: 0 <= i < |r| ==> !IsNoise(r[i]) && r[i] in lines
    ensures forall l :: l in lines && !IsNoise(l) ==> l in r
  {
    if lines == [] then []
    else
      var rest := CleanLines(lines[1..]);
      assert forall l :: l in lines[1..] ==> l in lines;
      if IsNoise(lines[0]) then rest else [lines[0]] + rest
  }

  /** Filtering line by line: the clean lines of `a + b` are those of `a`
      followed by those of `b`, so the original order is kept. */
  lemma {:induction false} CleanLinesAppend(a: seq<string>, b: seq<string>)
    ensures CleanLines(a + b) == CleanLines(a) + CleanLines(b)
  {
    if a == [] {
      assert a + b == b;
    } else {
      assert (a + b)[0] == a[0];
      assert (a + b)[1..] == a[1..] + b;
      CleanLinesAppend(a[1..], b);
    }
  }

  /** `strip_noise`: the engine log lines dropped, the rest joined by `\n`
      and stripped. */
  function StripNoise(text: string): (r: string)
    ensures exists i :: StrippedAt(Join("\n", CleanLines(SplitLines(text))), r, i)
    ensures r == [] || (!IsSpace(r[0]) && !IsSpace(r[|r| - 1]))
  {
    var joined := Join("\n", CleanLines(SplitLines(text)));
    StripSpec(joined);
    Strip(joined)
  }

  /** `text` after `output = output.replace(tag, "")` for each tag in turn. */
  function RemoveTags(text: string, tags: seq<string>): (r: string)
    ensures |r| <= |text|
    ensures (forall k, i :: 0 <= k < |tags| ==> !OccursAt(text, tags[k], i)) ==> r == text
  {
    if tags == [] then text
    else RemoveAll(RemoveTags(text, tags[..|tags| - 1]), tags[|tags| - 1])
  }

  /** `MODELS.get(model_key)`. */
  function ModelPath(host: Host, key: string): Option<string> {
    if key in host.models then Some(host.models[key]) else None
  }

  /** The guard of `call_llm`: a non-empty configured path that exists. */
  predicate ModelAvailable(host: Host, disk: FileSystem, key: string) {
    key in host.models && host.models[key] != "" && Exists(disk, host.models[key])
  }

  /** The error string for a missing model; Python shows a missing key as `None`. */
  function MissingModelMessage(path: Option<string>): (r: string)
    ensures StartsWith(r, "Error:")
  {
    "Error: 找不到模型檔案 " + (match path case Some(p) => p case None => "None")
  }

  /** The argument vector of the inference run; the system prompt is passed
      only when non-empty and the schema only when truthy. */
  function Command(host: Host, path: string, prompt: string, systemPrompt: string,
                   nTokens: nat, temp: string, schema: Option<Json.Value>): (r: seq<string>)
    ensures |r| >= 12 && r[0] == LlamaBin && r[2] == path && r[11] == prompt
    ensures systemPrompt != "" ==> |r| >= 14 && r[12..14] == ["-sys", systemPrompt]
    ensures systemPrompt == "" ==> |r| == 12 || r[12] == "-j"
  {
    [LlamaBin, "-m", path, "-st", "--no-display-prompt", "--simple-io",
     "--temp", temp, "-n", IntToStr(nTokens), "-p", prompt]
    + (if systemPrompt != "" then ["-sys", systemPrompt] else [])
    + (if schema.Some? && Json.Truthy(schema.value) then ["-j", host.dumpCompact(schema.value)] else [])
  }

  /** `call_llm(model_key, prompt, system_prompt, n_tokens, temp, schema)`;
      `temp` is the text `str()` gives for the temperature. */
  function CallLlm(host: Host, disk: FileSystem, key: string, prompt: string, systemPrompt: string,
                   nTokens: nat, temp: string, schema: Option<Json.Value>): (r: string)
    ensures !ModelAvailable(host, disk, key) ==> r == MissingModelMessage(ModelPath(host, key))
    ensures !ModelAvailable(host, disk, key) ==> StartsWith(r, "Error:")
    ensures ModelAvailable(host, disk, key) ==>
      match host.run(Command(host, host.models[key], prompt, systemPrompt, nTokens, temp, schema))
      case Failed(m) => r == "Error: " + m
      case Completed(out) => |r| <= |out| && (r == [] || (!IsSpace(r[0]) && !IsSpace(r[|r| - 1])))
  {
    if !ModelAvailable(host, disk, key) then MissingModelMessage(ModelPath(host, key))
    else
      match host.run(Command(host, host.models[key], prompt, systemPrompt, nTokens, temp, schema))
      case Failed(m) => "Error: " + m
      case Completed(out) =>
        var clean := StripNoise(out);
        assert |clean| <= |out| by { SplitJoinBound(out); }
        Strip(RemoveTags(clean, SentinelTags))
  }

  /** Cleaning never lengthens the output. */
  lemma SplitJoinBound(out: string)
    ensures |StripNoise(out)| <= |out|
  {
    CleanJoinBound(SplitLines(out), out);
  }

  lemma {:induction false} CleanJoinBound(lines: seq<string>, out: string)
    requires lines == SplitLines(out)
    ensures |Join("\n", CleanLines(lines))| <= |out|
    decreases |out|
  {
    JoinSubBound(lines, out);
    CleanJoinLe(lines);
  }

  /** Joining a filtered list is no longer than joining the list. */
  lemma {:induction false} CleanJoinLe(lines: seq<string>)
    ensures |Join("\n", CleanLines(lines))| <= |Join("\n", lines)|
  {
    if lines != [] {
      CleanJoinLe(lines[1..]);
      var rest := CleanLines(lines[1..]);
      if !IsNoise(lines[0]) {
        assert CleanLines(lines) == [lines[0]] + rest;
        if rest != [] {
          assert ([lines[0]] + rest)[1..] == rest;
        }
      }
    }
  }

  /** The lines of `out`, joined by `\n`, are no longer than `out`. */
  lemma {:induction false} JoinSubBound(lines: seq<string>, out: string)
    requires lines == SplitLines(out)
    ensures |Join("\n", lines)| <= |out|
    decreases |out|
  {
    match FirstBreak(out)
    case None =>
    case Some(i) =>
      var next := if out[i] == '\r' && i + 1 < |out| && out[i + 1] == '\n' then i + 2 else i + 1;
      JoinSubBound(SplitLines(out[next..]), out[next..]);
  }

  /** `call_llm` with the tag-removal loop as the source writes it; the
      result is the one `CallLlm` describes. */
  method CallModel(host: Host, disk: FileSystem, key: string, prompt: string, systemPrompt: string,
                   nTokens: nat, temp: string, schema: Option<Json.Value>) returns (r: string)
    ensures r == CallLlm(host, disk, key, prompt, systemPrompt, nTokens, temp, schema)
  {
    if !ModelAvailable(host, disk, key) {
      return MissingModelMessage(ModelPath(host, key));
    }
    var result := host.run(Command(host, host.models[key], prompt, systemPrompt, nTokens, temp, schema));
    match result
    case Failed(m) =>
      r := "Error: " + m;
    case Completed(out) =>
      var output := RemoveEach(StripNoise(out), SentinelTags);
      r := Strip(output);
  }

  /** The loop `for tag in [...]: output = output.replace(tag, "")`. */
  method RemoveEach(text: string, tags: seq<string>) returns (output: string)
    ensures output == RemoveTags(text, tags)
  {
    output := text;
    for i := 0 to |tags|
      invariant output == RemoveTags(text, tags[..i])
    {
      RemoveTagsStep(text, tags, i);
      output := RemoveAll(output, tags[i]);
    }
    assert tags[..|tags|] == tags;
  }

  lemma RemoveTagsStep(text: string, tags: seq<string>, i: nat)
    requires i < |tags|
    ensures RemoveTags(text, tags[..i + 1]) == RemoveAll(RemoveTags(text, tags[..i]), tags[i])
  {
    assert tags[..i + 1][..i] == tags[..i];
  }

  /** A missing model is reported before any process runs: the result does
      not depend on the inference service at all. */
  lemma MissingModelRunsNothing(h1: Host, h2: Host, disk: FileSystem, key: string, prompt: string,
                                systemPrompt: string, nTokens: nat, temp: string, schema: Option<Json.Value>)
    requires h1.models == h2.models
    requires !ModelAvailable(h1, disk, key)
    ensures CallLlm(h1, disk, key, prompt, systemPrompt, nTokens, temp, schema)
         == CallLlm(h2, disk, key, prompt, systemPrompt, nTokens, temp, schema)
  {
  }
}
