/**
 * JSON values as `json.dump` receives them, and the lookups that read a
 * document back. The byte layout `json.dump` produces is not modelled.
 */
module JsonValues {
  import opened Wrappers

  datatype Json =
    | JString(s: string)
    | JArray(items: seq<Json>)
    | JObject(fields: seq<(string, Json)>)

  /** `obj.get(key)` on an object, in key order; `None` on anything else or a missing key. */
  function Get(j: Json, key: string): Option<Json>
  {
    if !j.JObject? then None else Find(j.fields, key)
  }

  function Find(fields: seq<(string, Json)>, key: string): Option<Json>
  {
    if fields == [] then None
    else if fields[0].0 == key then Some(fields[0].1)
    else Find(fields[1..], key)
  }

  /** The list of strings a JSON array of strings holds; `None` for anything else. */
  function Strings(j: Json): Option<seq<string>>
  {
    if !j.JArray? then None
    else if forall i :: 0 <= i < |j.items| ==> j.items[i].JString? then
      Some(seq(|j.items|, i requires 0 <= i < |j.items| && j.items[i].JString? => j.items[i].s))
    else None
  }

  /** `[s for s in strings]` as a JSON array. */
  function StringArray(strings: seq<string>): Json
  {
    JArray(seq(|strings|, i requires 0 <= i < |strings| => JString(strings[i])))
  }

  /** An array of strings reads back as the same list. */
  lemma StringsOfStringArray(strings: seq<string>)
    ensures Strings(StringArray(strings)) == Some(strings)
  {
    var j := StringArray(strings);
    assert forall i :: 0 <= i < |j.items| ==> j.items[i].JString?;
    var back := Strings(j).value;
    assert |back| == |strings|;
    assert forall i :: 0 <= i < |back| ==> back[i] == j.items[i].s == strings[i];
    assert back == strings;
  }

  /** Looking up a key in a list of fields answers with the first field of that name. */
  lemma FindCons(field: (string, Json), rest: seq<(string, Json)>, key: string)
    ensures Find([field] + rest, key) == if field.0 == key then Some(field.1) else Find(rest, key)
  {
    assert ([field] + rest)[1..] == rest;
  }
}

/**
 * core/output.py: the name of a batch file, what each output format writes
 * into it, and the ledger of prompt digests that every saved prompt extends.
 *
 * SHA-256 is a deterministic function `sha256` from a prompt to its hex
 * digest; `datetime.now()` is the timestamp string each call read. The
 * output directory maps file names to what was last written to them; the
 * ledger is a text file that only grows.
 */
module Output {
  import opened PrefixMaps
  import opened Wrappers
  import opened PyStrings
  import opened JsonValues

  /** What a batch file holds: a JSON document or plain text. */
  datatype FileContent = JsonDoc(doc: Json) | Text(text: string)

  datatype SaveError = UnsupportedFormat

  /** The model name `gpt` records use when none is given. */
  const DefaultModel := "gpt-4o"

  /** `if model:` for a `str | None` argument: present and non-empty. */
  predicate Truthy(model: Option<string>)
  {
    model.Some? && model.value != ""
  }

  /** `f"batch_{stamp}_{tag}.{format}"`. */
  function FileName(stamp: string, tag: string, format: string): string
  {
    "batch_" + stamp + "_" + tag + "." + format
  }

  /** The text after the last '.' of a name, or the whole name when it has none. */
  function Extension(name: string): string
  {
    if name == [] then []
    else if name[|name| - 1] == '.' then []
    else Extension(name[..|name| - 1]) + [name[|name| - 1]]
  }

  /** A format without a dot is what the file name's extension reads back as. */
  lemma {:induction false} FileNameExtension(stamp: string, tag: string, format: string)
    requires '.' !in format
    ensures Extension(FileName(stamp, tag, format)) == format
  {
    var prefix := "batch_" + stamp + "_" + tag + ".";
    assert FileName(stamp, tag, format) == prefix + format;
    ExtensionAfterDot(prefix, format);
  }

  lemma {:induction false} ExtensionAfterDot(prefix: string, ext: string)
    requires prefix != [] && prefix[|prefix| - 1] == '.' && '.' !in ext
    ensures Extension(prefix + ext) == ext
    decreases |ext|
  {
    if ext == [] {
      assert prefix + ext == prefix;
    } else {
      var init := ext[..|ext| - 1];
      assert (prefix + ext)[..|prefix + ext| - 1] == prefix + init;
      ExtensionAfterDot(prefix, init);
      assert init + [ext[|ext| - 1]] == ext;
    }
  }

  /** The "json" document: `{"prompts": prompts}`, with `"model"` added when the model is truthy. */
  function JsonPayload(prompts: seq<string>, model: Option<string>): Json
  {
    JObject([("prompts", StringArray(prompts))] + (if Truthy(model) then [("model", JString(model.value))] else []))
  }

  /** The "json" document reads back as the prompts, and has a model exactly when one was truthy. */
  lemma JsonPayloadReadBack(prompts: seq<string>, model: Option<string>)
    ensures var doc := JsonPayload(prompts, model);
            && Get(doc, "prompts").Some? && Strings(Get(doc, "prompts").value) == Some(prompts)
            && (Get(doc, "model").Some? <==> Truthy(model))
            && (Truthy(model) ==> Get(doc, "model") == Some(JString(model.value)))
  {
    StringsOfStringArray(prompts);
    var tail: seq<(string, Json)> := if Truthy(model) then [("model", JString(model.value))] else [];
    FindCons(("prompts", StringArray(prompts)), tail, "prompts");
    FindCons(("prompts", StringArray(prompts)), tail, "model");
    if Truthy(model) {
      FindCons(("model", JString(model.value)), [], "model");
    }
  }

  /** `model or "gpt-4o"`. */
  function GptModel(model: Option<string>): string
  {
    if Truthy(model) then model.value else DefaultModel
  }

  /** One "gpt" record: the model and a single user message carrying the prompt. */
  function GptRecord(model: Option<string>, prompt: string): Json
  {
    JObject([("model", JString(GptModel(model))),
             ("messages", JArray([JObject([("role", JString("user")), ("content", JString(prompt))])]))])
  }

  /** The "gpt" document: one record per prompt, in order. */
  function GptPayload(prompts: seq<string>, model: Option<string>): Json
  {
    JArray(seq(|prompts|, i requires 0 <= i < |prompts| => GptRecord(model, prompts[i])))
  }

  /**
   * Record i of the "gpt" document names the given model, or "gpt-4o" when
   * there is none, and its one message is the user's i-th prompt.
   */
  lemma GptPayloadReadBack(prompts: seq<string>, model: Option<string>, i: nat)
    requires i < |prompts|
    ensures var items := GptPayload(prompts, model).items;
            && |items| == |prompts|
            && Get(items[i], "model") == Some(JString(if Truthy(model) then model.value else DefaultModel))
            && Get(items[i], "messages").Some?
            && Get(items[i], "messages").value == JArray([JObject([("role", JString("user")),
                                                                  ("content", JString(prompts[i]))])])
            && Get(Get(items[i], "messages").value.items[0], "content") == Some(JString(prompts[i]))
  {
    var model_ := ("model", JString(GptModel(model)));
    var role, content := ("role", JString("user")), ("content", JString(prompts[i]));
    var messages := ("messages", JArray([JObject([role, content])]));
    FindCons(model_, [messages], "model");
    FindCons(model_, [messages], "messages");
    FindCons(messages, [], "messages");
    FindCons(role, [content], "content");
    FindCons(content, [], "content");
  }

  /** The lines of a "txt" file: `# model: m` when the model is truthy, then one line per prompt. */
  function TxtLines(prompts: seq<string>, model: Option<string>): seq<string>
  {
    (if Truthy(model) then ["# model: " + model.value] else []) + prompts
  }

  /** One "csv" row: the prompt in double quotes, unescaped, after `model,` when the model is truthy. */
  function CsvRow(model: Option<string>, prompt: string): string
  {
    if Truthy(model) then model.value + ",\"" + prompt + "\"" else "\"" + prompt + "\""
  }

  /** The lines of a "csv" file: the header, then one row per prompt. */
  function CsvLines(prompts: seq<string>, model: Option<string>): seq<string>
  {
    [if Truthy(model) then "model,prompt" else "prompt"]
      + seq(|prompts|, i requires 0 <= i < |prompts| => CsvRow(model, prompts[i]))
  }

  /** The quotes of a row enclose exactly the prompt, whatever characters it holds. */
  lemma CsvRowQuotesPrompt(model: Option<string>, prompt: string)
    ensures var row := CsvRow(model, prompt);
            var start := if Truthy(model) then |model.value| + 2 else 1;
            && start <= |row| - 1 && row[start - 1] == '"' && row[|row| - 1] == '"'
            && row[start..|row| - 1] == prompt
            && (Truthy(model) ==> row[..|model.value| + 1] == model.value + ",")
  {
  }

  /** Writing lines one by one, each followed by "\n", into a freshly truncated file. */
  method WriteLines(lines: seq<string>) returns (text: string)
    ensures text == Lines(lines)
  {
    text := "";
    for i := 0 to |lines|
      invariant text == Lines(lines[..i])
    {
      assert lines[..i + 1][..i] == lines[..i];
      text := text + lines[i] + "\n";
    }
    assert lines[..|lines|] == lines;
  }

  /** A "txt" file reads back as its header, if any, and then the prompts, one per line. */
  lemma TxtReadBack(prompts: seq<string>, model: Option<string>)
    requires forall i :: 0 <= i < |prompts| ==> '\n' !in prompts[i]
    requires Truthy(model) ==> '\n' !in model.value
    ensures var header := if Truthy(model) then ["# model: " + model.value] else [];
            Split(Lines(TxtLines(prompts, model)), "\n") == header + prompts + [""]
  {
    var ls := TxtLines(prompts, model);
    forall i | 0 <= i < |ls| ensures '\n' !in ls[i] {
      if Truthy(model) && i == 0 {
        assert ls[0] == "# model: " + model.value;
      } else {
        assert ls[i] == prompts[if Truthy(model) then i - 1 else i];
      }
    }
    LinesSplit(ls);
  }

  /** A "csv" file reads back as the header and then one quoted row per prompt, in order. */
  lemma CsvReadBack(prompts: seq<string>, model: Option<string>)
    requires forall i :: 0 <= i < |prompts| ==> '\n' !in prompts[i]
    requires Truthy(model) ==> '\n' !in model.value
    ensures var rows := Split(Lines(CsvLines(prompts, model)), "\n");
            && |rows| == |prompts| + 2
            && rows[0] == (if Truthy(model) then "model,prompt" else "prompt")
            && (forall i :: 0 <= i < |prompts| ==> rows[i + 1] == CsvRow(model, prompts[i]))
            && rows[|prompts| + 1] == ""
  {
    var ls := CsvLines(prompts, model);
    forall i | 0 <= i < |ls| ensures '\n' !in ls[i] {
      if i > 0 {
        assert ls[i] == CsvRow(model, prompts[i - 1]);
      }
    }
    LinesSplit(ls);
  }

  /** What `save_prompts` writes for a format, or `None` when the format is not supported. */
  function Rendered(format: string, prompts: seq<string>, model: Option<string>): Option<FileContent>
  {
    if format == "json" then Some(JsonDoc(JsonPayload(prompts, model)))
    else if format == "txt" then Some(Text(Lines(TxtLines(prompts, model))))
    else if format == "csv" then Some(Text(Lines(CsvLines(prompts, model))))
    else if format == "gpt" then Some(JsonDoc(GptPayload(prompts, model)))
    else None
  }

  /** Exactly the four formats are supported. */
  lemma RenderedFormats(format: string, prompts: seq<string>, model: Option<string>)
    ensures Rendered(format, prompts, model).Some? <==> format in ["json", "txt", "csv", "gpt"]
  {
  }

  /** The text of one ledger record: `f"{ts} | {hash} | {prompt}"`. */
  function LedgerText(stamp: string, hash: string, prompt: string): string
  {
    stamp + " | " + hash + " | " + prompt
  }

  /** The ledger records for the prompts, each with the timestamp its call read. */
  function LedgerTexts(stamps: seq<string>, prompts: seq<string>, sha256: string -> string): (texts: seq<string>)
    requires |stamps| == |prompts|
    ensures |texts| == |prompts|
  {
    seq(|prompts|, i requires 0 <= i < |prompts| => LedgerText(stamps[i], sha256(prompts[i]), prompts[i]))
  }

  /** The arguments of the successive `save_prompt_hash` calls: each prompt with the time its call reads. */
  function Calls(stamps: seq<string>, prompts: seq<string>): seq<(string, string)>
    requires |stamps| == |prompts|
  {
    seq(|prompts|, i requires 0 <= i < |prompts| => (stamps[i], prompts[i]))
  }

  /** The record one call writes, as a function of its arguments. */
  ghost function LedgerLine(sha256: string -> string): ((string, string)) -> string
  {
    (call: (string, string)) => LedgerText(call.0, sha256(call.1), call.1)
  }

  /** Records written call by call, one per prompt, are the batch's ledger records. */
  lemma LedgerTextsMapped(stamps: seq<string>, prompts: seq<string>, sha256: string -> string, written: seq<string>)
    requires |stamps| == |prompts| == |written|
    requires MapsPrefix(written, Calls(stamps, prompts), LedgerLine(sha256))
    ensures written == LedgerTexts(stamps, prompts, sha256)
  {
    var calls := Calls(stamps, prompts);
    forall i | 0 <= i < |written| ensures written[i] == LedgerTexts(stamps, prompts, sha256)[i] {
      assert written[i] == LedgerLine(sha256)(calls[i]);
    }
  }

  /**
   * The records appended for a batch read back, line by line, as one record
   * per prompt in prompt order, each starting with its timestamp and digest
   * and ending with its prompt.
   */
  lemma LedgerReadBack(stamps: seq<string>, prompts: seq<string>, sha256: string -> string)
    requires |stamps| == |prompts|
    requires forall i :: 0 <= i < |prompts| ==> '\n' !in stamps[i] && '\n' !in sha256(prompts[i]) && '\n' !in prompts[i]
    ensures var lines := Split(Lines(LedgerTexts(stamps, prompts, sha256)), "\n");
            && |lines| == |prompts| + 1 && lines[|prompts|] == ""
            && forall i :: 0 <= i < |prompts| ==>
                 var prefix := stamps[i] + " | " + sha256(prompts[i]) + " | ";
                 && prefix <= lines[i]
                 && lines[i][|prefix|..] == prompts[i]
  {
    var ts := LedgerTexts(stamps, prompts, sha256);
    forall i | 0 <= i < |ts| ensures '\n' !in ts[i] {
      assert ts[i] == stamps[i] + " | " + sha256(prompts[i]) + " | " + prompts[i];
    }
    LinesSplit(ts);
  }

  /** A text file opened for appending. */
  class TextFile {
    var content: string

    constructor (content: string)
      ensures this.content == content
    {
      this.content := content;
    }

    method Append(s: string)
      modifies this
      ensures content == old(content) + s
    {
      content := content + s;
    }
  }

  /** The output directory: each file name with what was last written to it. */
  class OutputDir {
    var files: map<string, FileContent>

    constructor (files: map<string, FileContent>)
      ensures this.files == files
    {
      this.files := files;
    }

    /** `open(name, "w")` and write: the file now holds exactly `content`. */
    method Write(name: string, content: FileContent)
      modifies this
      ensures files == old(files)[name := content]
    {
      files := files[name := content];
    }
  }

  /** `save_prompt_hash(prompt)`: one ledger line with the time, the prompt's digest and the prompt. */
  method SavePromptHash(prompt: string, stamp: string, sha256: string -> string, ledger: TextFile)
    returns (line: string)
    modifies ledger
    ensures line == LedgerText(stamp, sha256(prompt), prompt)
    ensures ledger.content == old(ledger.content) + line + "\n"
  {
    line := LedgerText(stamp, sha256(prompt), prompt);
    ledger.Append(line + "\n");
  }

  /** `for p in prompts: save_prompt_hash(p)`. */
  method SavePromptHashes(prompts: seq<string>, stamps: seq<string>, sha256: string -> string, ledger: TextFile)
    requires |stamps| == |prompts|
    modifies ledger
    ensures ledger.content == old(ledger.content) + Lines(LedgerTexts(stamps, prompts, sha256))
  {
    ghost var calls := Calls(stamps, prompts);
    ghost var written: seq<string> := [];
    for i := 0 to |prompts|
      invariant |written| == i
      invariant MapsPrefix(written, calls, LedgerLine(sha256))
      invariant ledger.content == old(ledger.content) + Lines(written)
    {
      var line := SavePromptHash(prompts[i], stamps[i], sha256, ledger);
      LinesSnoc(written, line);
      assert calls[i] == (stamps[i], prompts[i]);
      MapsPrefixSnoc(written, calls, LedgerLine(sha256), line);
      written := written + [line];
    }
    LedgerTextsMapped(stamps, prompts, sha256, written);
  }

  /**
   * `save_prompts(prompts, format, tag=tag, model=model)`: the batch file
   * `batch_<stamp>_<tag>.<format>` is written with the format's content and
   * one ledger line is appended per prompt, in order. Any other format fails
   * before the file or the ledger is touched.
   */
  method SavePrompts(prompts: seq<string>, format: string, tag: string, model: Option<string>,
                     stamp: string, hashStamps: seq<string>, sha256: string -> string,
                     dir: OutputDir, ledger: TextFile)
    returns (r: Result<string, SaveError>)
    requires |hashStamps| == |prompts|
    modifies dir, ledger
    ensures r.Failure? <==> format !in ["json", "txt", "csv", "gpt"]
    ensures r.Failure? ==> dir.files == old(dir.files) && ledger.content == old(ledger.content)
    ensures r.Success? ==>
              && r.value == FileName(stamp, tag, format)
              && dir.files == old(dir.files)[r.value := Rendered(format, prompts, model).value]
              && ledger.content == old(ledger.content) + Lines(LedgerTexts(hashStamps, prompts, sha256))
  {
    var name := FileName(stamp, tag, format);
    var content: FileContent;
    if format == "json" {
      content := JsonDoc(JsonPayload(prompts, model));
    } else if format == "txt" {
      var text := WriteLines(TxtLines(prompts, model));
      content := Text(text);
    } else if format == "csv" {
      var text := WriteLines(CsvLines(prompts, model));
      content := Text(text);
    } else if format == "gpt" {
      content := JsonDoc(GptPayload(prompts, model));
    } else {
      return Failure(UnsupportedFormat);
    }
    dir.Write(name, content);
    SavePromptHashes(prompts, hashStamps, sha256, ledger);
    r := Success(name);
  }
}
