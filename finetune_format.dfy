/**
  Prompt formatting and output naming of the LoRA fine-tuning script
  (ai_models_training/finetune_model.py): how one training example becomes
  the instruction prompt the model is trained on, and how the fine-tuned
  model directory and its documentation file are named.
 */
module FinetuneFormat {
  import opened Wrappers

  /** One training example as read from a .jsonl line: field name to text. */
  type Example = map<string, string>

  const InstructionHeader := "### Instruction:\n"
  const InputHeader := "### Input:\n"
  const ResponseHeader := "### Response:\n"
  /** The blank line that separates two sections of a prompt. */
  const Separator := "\n\n"

  /** The infix between model name and version in an output name. */
  const FtTag := "_ft_"
  const DocExtension := ".md"

  predicate IsPrefix(p: string, s: string) {
    |p| <= |s| && s[..|p|] == p
  }

  predicate IsSuffix(p: string, s: string) {
    |p| <= |s| && s[|s| - |p|..] == p
  }

  /** `example.get(key, "")`: a missing field reads as the empty string. */
  function Field(example: Example, key: string): string {
    if key in example then example[key] else ""
  }

  /**
    `format_instruction`: the prompt is the instruction section, then the
    input section only when the input is non-empty, then the response
    section. The result is a record with the single field "text".
   */
  function FormatInstruction(example: Example): (r: map<string, string>)
    ensures r.Keys == {"text"}
    ensures IsPrefix(InstructionHeader + Field(example, "instruction"), r["text"])
    ensures IsSuffix(ResponseHeader + Field(example, "output"), r["text"])
  {
    var instruction := Field(example, "instruction");
    var inputText := Field(example, "input");
    var outputText := Field(example, "output");
    var head := InstructionHeader + instruction;
    var middle := if inputText != "" then Separator + InputHeader + inputText + Separator else Separator;
    var tail := ResponseHeader + outputText;
    var prompt := head + middle + tail;
    PrefixAndSuffix(head, middle, tail);
    map["text" := prompt]
  }

  /** The two ends of a three-part concatenation. */
  lemma PrefixAndSuffix(head: string, middle: string, tail: string)
    ensures IsPrefix(head, head + middle + tail) && IsSuffix(tail, head + middle + tail)
  {
    var t := head + middle + tail;
    assert t[..|head|] == head;
    assert t[|t| - |tail|..] == tail;
  }

  /** The prompt text of an example. */
  function Prompt(example: Example): string {
    FormatInstruction(example)["text"]
  }

  /**
    The two shapes of the prompt, one per branch of the template; the
    header and separator constants are the literal pieces of its f-strings.
   */
  lemma PromptTemplate(example: Example)
    ensures var i, n, o := Field(example, "instruction"), Field(example, "input"), Field(example, "output");
      if n != "" then
        Prompt(example) == InstructionHeader + i + Separator + InputHeader + n + Separator + ResponseHeader + o
      else
        Prompt(example) == InstructionHeader + i + Separator + ResponseHeader + o
  {
    var i, n, o := Field(example, "instruction"), Field(example, "input"), Field(example, "output");
    if n != "" {
      var middle := Separator + InputHeader + n + Separator;
      assert InstructionHeader + i + middle == InstructionHeader + i + Separator + InputHeader + n + Separator;
    }
  }

  /** An example with none of the three fields formats as the bare template. */
  lemma EmptyExamplePrompt(example: Example)
    requires "instruction" !in example && "input" !in example && "output" !in example
    ensures Prompt(example) == "### Instruction:\n\n\n### Response:\n"
  {
  }

  /**
    Right after the instruction, the prompt continues with the input
    section exactly when the input is non-empty; otherwise the response
    section follows at once.
   */
  lemma InputSectionIffNonEmpty(example: Example)
    ensures var at := |InstructionHeader| + |Field(example, "instruction")|;
      IsPrefix(Separator + InputHeader, Prompt(example)[at..])
      <==> Field(example, "input") != ""
  {
    var i, n, o := Field(example, "instruction"), Field(example, "input"), Field(example, "output");
    var t := Prompt(example);
    var at := |InstructionHeader| + |i|;
    if n != "" {
      var rest := Separator + InputHeader + n + Separator + ResponseHeader + o;
      assert t == InstructionHeader + i + rest;
      assert t[at..] == rest;
    } else {
      var rest := Separator + ResponseHeader + o;
      assert t == InstructionHeader + i + rest;
      assert t[at..] == rest;
      assert rest[6] == 'R' && (Separator + InputHeader)[6] == 'I';
    }
  }

  /**
    Each field can be read back from the prompt at the position the
    template puts it: the instruction after the instruction header, the
    input (when present) after the input header, and the output at the end.
   */
  lemma PromptFieldsRecoverable(example: Example)
    ensures var i, n, o := Field(example, "instruction"), Field(example, "input"), Field(example, "output");
      var t := Prompt(example);
      var a := |InstructionHeader|;
      var b := a + |i| + |Separator| + |InputHeader|;
      && a + |i| <= |t| && t[a..a + |i|] == i
      && |o| <= |t| && t[|t| - |o|..] == o
      && (n != "" ==> b + |n| <= |t| && t[b..b + |n|] == n)
  {
  }

  /**
    Output directory name of a fine-tuned model, `{model_name}_ft_{version}`;
    the version can be stripped again to recover the model name.
   */
  function OutputName(modelName: string, version: string): (r: string)
    ensures |r| == |modelName| + |FtTag| + |version|
    ensures StripOutputSuffix(r, version) == Some(modelName)
  {
    var r := modelName + FtTag + version;
    assert r[|r| - |FtTag + version|..] == FtTag + version;
    assert r[..|r| - |FtTag + version|] == modelName;
    r
  }

  /** Inverse of OutputName for a known version: the model name, if `name` ends in `_ft_{version}`. */
  function StripOutputSuffix(name: string, version: string): Option<string> {
    var tag := FtTag + version;
    if IsSuffix(tag, name) then Some(name[..|name| - |tag|]) else None
  }

  /** Two different model names fine-tuned to the same version never share an output name. */
  lemma OutputNameInjective(m1: string, m2: string, version: string)
    requires OutputName(m1, version) == OutputName(m2, version)
    ensures m1 == m2
  {
    assert StripOutputSuffix(OutputName(m1, version), version) == Some(m1);
  }

  /**
    Documentation file name, `{model_name}_ft_{version}.md`, written out
    separately in the source: it is the output directory name plus ".md".
   */
  function DocFilename(modelName: string, version: string): (r: string)
    ensures r == OutputName(modelName, version) + DocExtension
  {
    modelName + "_ft_" + version + ".md"
  }

  /** `path` without its trailing '/' characters. */
  function TrimTrailingSlashes(path: string): (r: string)
    ensures IsPrefix(r, path)
    ensures r == [] || r[|r| - 1] != '/'
    ensures forall k :: |r| <= k < |path| ==> path[k] == '/'
    decreases |path|
  {
    if |path| > 0 && path[|path| - 1] == '/' then TrimTrailingSlashes(path[..|path| - 1]) else path
  }

  /** The characters after the last '/' of `path` (all of it when there is none). */
  function LastComponent(path: string): (r: string)
    ensures '/' !in r
    ensures IsSuffix(r, path)
    ensures |r| < |path| ==> path[|path| - |r| - 1] == '/'
    decreases |path|
  {
    if path == [] || path[|path| - 1] == '/' then []
    else
      var init := path[..|path| - 1];
      var r := LastComponent(init) + [path[|path| - 1]];
      assert path == init + [path[|path| - 1]];
      r
  }

  /** `Path(model_path).name`: the last component, trailing separators ignored. */
  function BaseName(path: string): (r: string)
    ensures '/' !in r
  {
    LastComponent(TrimTrailingSlashes(path))
  }

  /** The last component of `dir/name` is `name`. */
  lemma {:induction false} LastComponentOfJoin(dir: string, name: string)
    requires '/' !in name
    ensures LastComponent(dir + "/" + name) == name
    decreases |name|
  {
    var path := dir + "/" + name;
    if name != [] {
      var init := name[..|name| - 1];
      assert path[..|path| - 1] == dir + "/" + init;
      LastComponentOfJoin(dir, init);
      assert name == init + [name[|name| - 1]];
    }
  }

  /** `Path(dir + "/" + name).name` is `name` for a non-empty name without '/'. */
  lemma BaseNameOfJoin(dir: string, name: string)
    requires name != [] && '/' !in name
    ensures BaseName(dir + "/" + name) == name
  {
    LastComponentOfJoin(dir, name);
  }
}
