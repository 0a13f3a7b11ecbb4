/**
 * core/template_engine.py: a fixed table of three named format patterns and
 * the renderer that fills `{baseline}`, `{content}` and `{sep}` into one of
 * them and strips the result.
 */
module TemplateEngine {
  import opened Wrappers
  import opened PyStrings

  /** The names a pattern may mention between braces. */
  datatype Field = BaselineField | ContentField | SepField

  /** One piece of a format pattern: literal text or a `{field}` to fill. */
  datatype Piece = Text(text: string) | Hole(field: Field)

  type Pattern = seq<Piece>

  /** `pattern.format(baseline=..., content=..., sep=...)`. */
  function Format(pattern: Pattern, baseline: string, content: string, sep: string): string
  {
    if pattern == [] then ""
    else
      var head :=
        match pattern[0]
        case Text(t) => t
        case Hole(BaselineField) => baseline
        case Hole(ContentField) => content
        case Hole(SepField) => sep;
      head + Format(pattern[1..], baseline, content, sep)
  }

  lemma FormatCons(p: Piece, rest: Pattern, baseline: string, content: string, sep: string)
    ensures Format([p] + rest, baseline, content, sep)
         == Format([p], baseline, content, sep) + Format(rest, baseline, content, sep)
  {
    assert ([p] + rest)[1..] == rest;
    assert [p][1..] == [];
  }

  /** "{baseline}{sep}{content}" */
  const PlainPattern: Pattern := [Hole(BaselineField), Hole(SepField), Hole(ContentField)]
  /** "Instruction: {baseline}\nPrompt: {content}" */
  const InstructionPattern: Pattern :=
    [Text("Instruction: "), Hole(BaselineField), Text("\nPrompt: "), Hole(ContentField)]
  /** The sentence the "cot" pattern puts between baseline and content. */
  const CotSentence := "Let's think step by step."
  /** "{baseline} Let's think step by step. {content}" */
  const CotPattern: Pattern := [Hole(BaselineField), Text(" " + CotSentence + " "), Hole(ContentField)]

  lemma FormatPlain(baseline: string, content: string, sep: string)
    ensures Format(PlainPattern, baseline, content, sep) == baseline + sep + content
  {
    var b, c, s := Hole(BaselineField), Hole(ContentField), Hole(SepField);
    FormatCons(c, [], baseline, content, sep);
    FormatCons(s, [c], baseline, content, sep);
    FormatCons(b, [s, c], baseline, content, sep);
    assert PlainPattern == [b] + ([s] + [c]);
  }

  lemma FormatInstruction(baseline: string, content: string, sep: string)
    ensures Format(InstructionPattern, baseline, content, sep)
         == "Instruction: " + baseline + "\nPrompt: " + content
  {
    var b, c := Hole(BaselineField), Hole(ContentField);
    var t1, t2 := Text("Instruction: "), Text("\nPrompt: ");
    FormatCons(c, [], baseline, content, sep);
    FormatCons(t2, [c], baseline, content, sep);
    FormatCons(b, [t2, c], baseline, content, sep);
    FormatCons(t1, [b, t2, c], baseline, content, sep);
    assert InstructionPattern == [t1] + ([b] + ([t2] + [c]));
  }

  lemma FormatCot(baseline: string, content: string, sep: string)
    ensures Format(CotPattern, baseline, content, sep)
         == baseline + " " + CotSentence + " " + content
  {
    var b, c := Hole(BaselineField), Hole(ContentField);
    var t3 := Text(" " + CotSentence + " ");
    FormatCons(c, [], baseline, content, sep);
    FormatCons(t3, [c], baseline, content, sep);
    FormatCons(b, [t3, c], baseline, content, sep);
    assert CotPattern == [b] + ([t3] + [c]);
  }

  /** `TEMPLATES`, in insertion order. */
  const Templates: seq<(string, Pattern)> :=
    [("plain", PlainPattern), ("instruction", InstructionPattern), ("cot", CotPattern)]

  /** `TEMPLATES.get(name)`. */
  function Lookup(name: string): Option<Pattern>
  {
    if name == Templates[0].0 then Some(Templates[0].1)
    else if name == Templates[1].0 then Some(Templates[1].1)
    else if name == Templates[2].0 then Some(Templates[2].1)
    else None
  }

  /** `available_templates()`: the table's keys, in order. */
  function AvailableTemplates(): (names: seq<string>)
    ensures names == ["plain", "instruction", "cot"]
  {
    seq(|Templates|, i requires 0 <= i < |Templates| => Templates[i].0)
  }

  /** The names `available_templates()` lists are exactly the names the table resolves. */
  lemma AvailableAreKnown(name: string)
    ensures name in AvailableTemplates() <==> Lookup(name).Some?
  {
  }

  /** `sep = ", " if baseline and content else ""`. */
  function Sep(baseline: string, content: string): string
  {
    if baseline != "" && content != "" then ", " else ""
  }

  /** `TemplateRenderer.render(content, baseline, template)`. */
  function Render(content: string, baseline: string, template: string): string
  {
    var pattern := Lookup(template).GetOr(PlainPattern);
    Strip(Format(pattern, baseline, content, Sep(baseline, content)))
  }

  /** A rendered prompt neither starts nor ends with whitespace, and stripping it again changes nothing. */
  lemma RenderTrimmed(content: string, baseline: string, template: string)
    ensures var r := Render(content, baseline, template);
            (r == [] || (!IsSpace(r[0]) && !IsSpace(r[|r| - 1]))) && Strip(r) == r
  {
    var r := Render(content, baseline, template);
    StripEnds(Format(Lookup(template).GetOr(PlainPattern), baseline, content, Sep(baseline, content)));
    StripFixpoint(r);
  }

  /** An unknown template name renders exactly as "plain" does. */
  lemma UnknownRendersPlain(content: string, baseline: string, template: string)
    requires template !in AvailableTemplates()
    ensures Render(content, baseline, template) == Render(content, baseline, "plain")
  {
    AvailableAreKnown(template);
  }

  /**
   * ... and the two other names never do: whatever the baseline and the
   * content, their render is at least 19 characters longer than the "plain" one.
   */
  lemma KnownDiffersFromPlain(template: string, content: string, baseline: string)
    requires template == "instruction" || template == "cot"
    ensures |Render(content, baseline, "plain")| + 19 <= |Render(content, baseline, template)|
    ensures Render(content, baseline, template) != Render(content, baseline, "plain")
  {
    PlainLength(content, baseline);
    if template == "instruction" {
      InstructionLength(content, baseline);
      TrimStartSpec(baseline);
    } else {
      CotLength(content, baseline);
    }
  }

  /** "plain" keeps at most the stripped baseline, the separator and the right-stripped content. */
  lemma PlainLength(content: string, baseline: string)
    ensures |Render(content, baseline, "plain")| <= |TrimStart(baseline)| + 2 + |TrimEnd(content)|
  {
    var sep := Sep(baseline, content);
    FormatPlain(baseline, content, sep);
    assert Lookup("plain") == Some(PlainPattern);
    StripLength(baseline, sep, content);
  }

  /**
   * "instruction" renders as its labels and the whole baseline, then the
   * content with its trailing whitespace stripped: only the blank after
   * "Prompt:" can go with it, when the content is blank.
   */
  lemma InstructionRender(content: string, baseline: string)
    ensures Render(content, baseline, "instruction")
         == "Instruction: " + baseline + "\nPrompt:" + TrimEnd(" " + content)
  {
    var x := "Instruction: " + baseline + "\nPrompt:";
    var tail := " " + content;
    FormatInstruction(baseline, content, Sep(baseline, content));
    assert Lookup("instruction") == Some(InstructionPattern);
    assert "Instruction: " + baseline + "\nPrompt: " + content == [] + x + tail;
    assert x[0] == 'I' && x[|x| - 1] == ':';
    StripAround([], x, tail);
    assert TrimStart([]) + x == x;
  }

  /** So "instruction" is at least as long as its labels, the whole baseline and the right-stripped content. */
  lemma InstructionLength(content: string, baseline: string)
    ensures |Render(content, baseline, "instruction")| >= |baseline| + 21 + |TrimEnd(content)|
  {
    InstructionRender(content, baseline);
    TrimEndGrows(" ", content);
  }

  /**
   * "cot" renders as the left-stripped baseline with its blank, the whole
   * sentence, then the right-stripped content with its blank.
   */
  lemma CotRender(content: string, baseline: string)
    ensures Render(content, baseline, "cot") == TrimStart(baseline + " ") + CotSentence + TrimEnd(" " + content)
  {
    FormatCot(baseline, content, Sep(baseline, content));
    assert Lookup("cot") == Some(CotPattern);
    assert baseline + " " + CotSentence + " " + content == (baseline + " ") + CotSentence + (" " + content);
    assert CotSentence[0] == 'L' && CotSentence[|CotSentence| - 1] == '.';
    StripAround(baseline + " ", CotSentence, " " + content);
  }

  /** So "cot" is at least as long as the stripped baseline, the whole sentence and the right-stripped content. */
  lemma CotLength(content: string, baseline: string)
    ensures |Render(content, baseline, "cot")| >= |TrimStart(baseline)| + |CotSentence| + |TrimEnd(content)|
  {
    CotRender(content, baseline);
    TrimStartGrows(baseline, " ");
    TrimEndGrows(" ", content);
  }

  /** The separator is ", " exactly when both baseline and content are non-empty. */
  lemma SepOnlyBetweenNonEmpty(baseline: string, content: string)
    ensures Sep(baseline, content) == ", " <==> baseline != "" && content != ""
    ensures Sep(baseline, content) != ", " ==> Sep(baseline, content) == ""
  {
  }

  /** Without a baseline, "plain" renders the stripped content: no separator leaks in. */
  lemma PlainWithoutBaseline(content: string)
    ensures Render(content, "", "plain") == Strip(content)
  {
    FormatPlain("", content, "");
    assert Lookup("plain") == Some(PlainPattern);
    assert Sep("", content) == "";
    assert "" + "" + content == content;
  }

  /** With both parts present, "plain" renders the stripped `baseline, content`. */
  lemma PlainWithBaseline(content: string, baseline: string)
    requires content != "" && baseline != ""
    ensures Render(content, baseline, "plain") == Strip(baseline + ", " + content)
  {
    FormatPlain(baseline, content, ", ");
  }

  /**
   * "instruction" never uses the separator; its leading text survives the
   * strip, and only trailing whitespace of the content is removed when the
   * content has a visible character.
   */
  lemma InstructionLayout(content: string, baseline: string)
    ensures Render(content, baseline, "instruction")
         == TrimEnd("Instruction: " + baseline + "\nPrompt: " + content)
    ensures !AllSpace(content) ==>
              Render(content, baseline, "instruction")
              == "Instruction: " + baseline + "\nPrompt: " + TrimEnd(content)
    ensures '\n' in Render(content, baseline, "instruction")
  {
    var head := "Instruction: " + baseline + "\nPrompt: ";
    var f := head + content;
    FormatInstruction(baseline, content, Sep(baseline, content));
    assert TrimStart(f) == f;
    if !AllSpace(content) {
      TrimEndAppend(head, content);
    }
    var colon := |head| - 2;
    assert f[colon] == ':' && f[colon - 7] == '\n';
    TrimEndKeeps(f, colon);
    TrimEndSpec(f);
    assert TrimEnd(f)[colon - 7] == '\n';
  }

  /** "cot" without a baseline: the leading blank is stripped away. */
  lemma CotStripsLeadingBlank(content: string)
    ensures Render(content, "", "cot") == TrimEnd(CotSentence + " " + content)
  {
    var x := CotSentence + " " + content;
    FormatCot("", content, "");
    assert Lookup("cot") == Some(CotPattern);
    assert "" + " " + CotSentence + " " + content == " " + x;
    StripAfterBlank(" ", x);
  }

  /**
   * "cot" without a baseline renders as the sentence followed by the
   * right-stripped content, or as the bare sentence when the content is blank.
   */
  lemma CotWithoutBaseline(content: string)
    ensures !AllSpace(content) ==>
              Render(content, "", "cot") == CotSentence + " " + TrimEnd(content)
    ensures AllSpace(content) ==> Render(content, "", "cot") == CotSentence
  {
    CotStripsLeadingBlank(content);
    if !AllSpace(content) {
      TrimEndAppend(CotSentence + " ", content);
    } else {
      TrimEndBlankTail(CotSentence + " ", content);
      TrimEndBlankTail(CotSentence, " ");
      assert CotSentence[|CotSentence| - 1] == '.';
    }
  }
}
