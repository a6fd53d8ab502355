/**
 Prompt resolution: system base, company override, trial override and run context, each a titled
 section when it is not blank. The snapshot freezes the first three; the context comes later.
 */
module PromptLayers {
  import opened Values
  import Text

  datatype Override = Override(instructions: Value, rubric: Value) | NotAnOverride

  /** An overrides payload; None when it is not an object. */
  type Overrides = Option<map<string, Override>>

  datatype Prompt = Prompt(instructions: string, rubric: string)

  datatype Layers = Layers(instructions: Option<string>, rubric: Option<string>)

  function StrippedText(v: Value): Option<string> {
    if v.Str? then Some(Text.Strip(v.s)) else None
  }

  /** `_read_override_markdown` */
  function ReadOverride(overrides: Overrides, key: string): Layers {
    if overrides.Some? && key in overrides.value && overrides.value[key].Override?
    then Layers(StrippedText(overrides.value[key].instructions), StrippedText(overrides.value[key].rubric))
    else Layers(None, None)
  }

  const GAP := "\n\n"
  const BASE := "System Base"
  const COMPANY := "Company Override"
  const TRIAL := "Trial Override"
  const CONTEXT := "Run Context"

  predicate Present(value: Option<string>) {
    value.Some? && !Text.Blank(value.value)
  }

  function SectionText(title: string, value: string): string {
    "## " + title + "\n" + Text.Strip(value)
  }

  function Section(title: string, value: Option<string>): seq<string> {
    if Present(value) then [SectionText(title, value.value)] else []
  }

  function Sections(base: string, company: Option<string>, trial: Option<string>): seq<string> {
    Section(BASE, Some(base)) + Section(COMPANY, company) + Section(TRIAL, trial)
  }

  function Joined(sections: seq<string>): string {
    Text.Strip(Text.Join(GAP, sections))
  }

  /** What `resolve_prompt_layers` resolves to. */
  function Resolved(key: string, base: Prompt, company: Overrides, trial: Overrides, context: Option<string>): Prompt {
    var c, t := ReadOverride(company, key), ReadOverride(trial, key);
    Prompt(Joined(Sections(base.instructions, c.instructions, t.instructions) + Section(CONTEXT, context)),
           Joined(Sections(base.rubric, c.rubric, t.rubric)))
  }

  method Append(sections: seq<string>, title: string, value: Option<string>) returns (r: seq<string>)
    ensures r == sections + Section(title, value)
  {
    r := sections;
    if value.Some? && Text.Strip(value.value) != "" {
      r := r + [SectionText(title, value.value)];
    }
  }

  /** `resolve_prompt_layers` */
  method ResolvePromptLayers(key: string, base: Prompt, company: Overrides, trial: Overrides, context: Option<string>)
    returns (r: Prompt)
    ensures r == Resolved(key, base, company, trial, context)
  {
    var sections := Append([], BASE, Some(base.instructions));
    var rubrics := Append([], BASE, Some(base.rubric));
    var c, t := ReadOverride(company, key), ReadOverride(trial, key);
    sections := Append(sections, COMPANY, c.instructions);
    rubrics := Append(rubrics, COMPANY, c.rubric);
    sections := Append(sections, TRIAL, t.instructions);
    rubrics := Append(rubrics, TRIAL, t.rubric);
    assert sections == Sections(base.instructions, c.instructions, t.instructions);
    assert rubrics == Sections(base.rubric, c.rubric, t.rubric);
    sections := Append(sections, CONTEXT, context);
    return Prompt(Joined(sections), Joined(rubrics));
  }

  /** What `append_run_context_to_resolved_prompt` makes of a frozen prompt. */
  function WithContext(frozen: Prompt, context: Option<string>): Prompt {
    Prompt(Joined([Text.Strip(frozen.instructions)] + Section(CONTEXT, context)),
           Joined(if Text.Blank(frozen.rubric) then [] else [Text.Strip(frozen.rubric)]))
  }

  // Appending the context later makes no difference.

  /** Text that stripping leaves alone and that is not empty. */
  predicate Solid(s: string) {
    s != "" && Text.Trimmed(s)
  }

  lemma SectionIsSolid(title: string, value: string)
    requires !Text.Blank(value)
    ensures Solid(SectionText(title, value))
  {
    var s, stripped := SectionText(title, value), Text.Strip(value);
    assert s[0] == "## "[0] == '#';
    assert s[|s| - 1] == stripped[|stripped| - 1];
  }

  lemma SectionsAreSolid(base: string, company: Option<string>, trial: Option<string>)
    ensures forall s | s in Sections(base, company, trial) :: Solid(s)
  {
    if !Text.Blank(base) { SectionIsSolid(BASE, base); }
    if Present(company) { SectionIsSolid(COMPANY, company.value); }
    if Present(trial) { SectionIsSolid(TRIAL, trial.value); }
  }

  lemma {:induction false} JoinIsSolid(parts: seq<string>)
    requires parts != [] && forall s | s in parts :: Solid(s)
    ensures Solid(Text.Join(GAP, parts))
  {
    assert Solid(parts[0]);
    if |parts| > 1 {
      JoinIsSolid(parts[1..]);
      var joined, rest := Text.Join(GAP, parts), Text.Join(GAP, parts[1..]);
      assert joined[0] == parts[0][0] && joined[|joined| - 1] == rest[|rest| - 1];
    }
  }

  lemma {:induction false} JoinOneMore(parts: seq<string>, last: string)
    requires parts != []
    ensures Text.Join(GAP, parts + [last]) == Text.Join(GAP, parts) + GAP + last
  {
    assert (parts + [last])[1..] == parts[1..] + [last];
    if |parts| > 1 {
      JoinOneMore(parts[1..], last);
      assert Text.Join(GAP, parts) == parts[0] + GAP + Text.Join(GAP, parts[1..]);
      assert Text.Join(GAP, parts + [last]) == parts[0] + GAP + (Text.Join(GAP, parts[1..]) + GAP + last);
    } else {
      assert parts[1..] + [last] == [last];
    }
  }

  /** A blank frozen prompt leaves a gap in front of the context, which stripping removes. */
  lemma StripLeadingGap(s: string)
    requires Solid(s)
    ensures Text.Strip("" + GAP + s) == s
  {
    var t := "" + GAP + s;
    assert t[0] == '\n' && t[1..][0] == '\n' && t[1..][1..] == s;
    assert Text.IsSpace('\n');
  }

  lemma JoinAgain(sections: seq<string>, context: Option<string>)
    requires forall s | s in sections :: Solid(s)
    ensures Joined([Text.Strip(Joined(sections))] + Section(CONTEXT, context))
              == Joined(sections + Section(CONTEXT, context))
  {
    var frozen := Joined(sections);
    if sections != [] {
      JoinIsSolid(sections);
    }
    if Present(context) {
      var last := SectionText(CONTEXT, context.value);
      SectionIsSolid(CONTEXT, context.value);
      JoinOneMore([frozen], last);
      if sections == [] {
        StripLeadingGap(last);
        assert sections + [last] == [last];
      } else {
        JoinOneMore(sections, last);
      }
    } else {
      assert sections + [] == sections && [frozen] + [] == [frozen];
    }
  }

  /** Freezing the prompt without the run context and appending the context later gives what
      resolving all layers at once gives, whichever of the texts are blank. */
  lemma StagedIsOneShot(key: string, base: Prompt, company: Overrides, trial: Overrides, context: Option<string>)
    ensures WithContext(Resolved(key, base, company, trial, None), context) == Resolved(key, base, company, trial,
              context)
  {
    var c, t := ReadOverride(company, key), ReadOverride(trial, key);
    var sections := Sections(base.instructions, c.instructions, t.instructions);
    var rubrics := Sections(base.rubric, c.rubric, t.rubric);
    SectionsAreSolid(base.instructions, c.instructions, t.instructions);
    SectionsAreSolid(base.rubric, c.rubric, t.rubric);
    assert sections + Section(CONTEXT, None) == sections;
    JoinAgain(sections, context);
    JoinAgain(rubrics, None);
    assert Text.Strip(Joined(rubrics)) == Joined(rubrics);
  }

  /** `append_run_context_to_resolved_prompt` */
  method AppendRunContext(frozen: Prompt, context: Option<string>) returns (r: Prompt)
    ensures r == WithContext(frozen, context)
    ensures forall key, base, company, trial | frozen == Resolved(key, base, company, trial, None) ::
              r == Resolved(key, base, company, trial, context)
  {
    var sections := [Text.Strip(frozen.instructions)];
    var rubrics := if Text.Strip(frozen.rubric) != "" then [Text.Strip(frozen.rubric)] else [];
    sections := Append(sections, CONTEXT, context);
    forall key, base, company, trial | frozen == Resolved(key, base, company, trial, None)
      ensures WithContext(frozen, context) == Resolved(key, base, company, trial, context)
    {
      StagedIsOneShot(key, base, company, trial, context);
    }
    return Prompt(Joined(sections), Joined(rubrics));
  }

  /** `build_ai_policy_snapshot`, then the run: resolved in two stages, as a reviewer gets it. */
  method ResolveInTwoStages(key: string, base: Prompt, company: Overrides, trial: Overrides, context: Option<string>)
    returns (r: Prompt)
    ensures r == Resolved(key, base, company, trial, context)
  {
    var frozen := ResolvePromptLayers(key, base, company, trial, None);
    r := AppendRunContext(frozen, context);
  }

  // Each layer in its place.

  /** The instructions an override gives for a key; none is as good as a blank one. */
  function InstructionsOf(overrides: Overrides, key: string): string {
    if overrides.Some? && key in overrides.value && overrides.value[key].Override?
       && overrides.value[key].instructions.Str?
    then overrides.value[key].instructions.s else ""
  }

  function RubricOf(overrides: Overrides, key: string): string {
    if overrides.Some? && key in overrides.value && overrides.value[key].Override? && overrides.value[key].rubric.Str?
    then overrides.value[key].rubric.s else ""
  }

  /** A text under its title, unless it is blank. */
  function Headed(title: string, text: string): string {
    if Text.Blank(text) then "" else "## " + title + "\n" + Text.Strip(text)
  }

  /** One text after another, an empty line between them. */
  function Above(a: string, b: string): string {
    if a == "" then b else if b == "" then a else a + "\n\n" + b
  }

  predicate AllSolid(parts: seq<string>) {
    forall s | s in parts :: Solid(s)
  }

  lemma JoinedIsSolid(parts: seq<string>)
    requires AllSolid(parts)
    ensures if parts == [] then Joined(parts) == "" else Solid(Joined(parts)) && Joined(parts) == Text.Join(GAP, parts)
  {
    if parts != [] {
      JoinIsSolid(parts);
    }
  }

  lemma JoinedMore(parts: seq<string>, last: seq<string>)
    requires AllSolid(parts) && AllSolid(last) && |last| <= 1
    ensures Joined(parts + last) == Above(Joined(parts), Joined(last))
    ensures AllSolid(parts + last)
  {
    JoinedIsSolid(parts);
    JoinedIsSolid(last);
    JoinedIsSolid(parts + last);
    if last == [] {
      assert parts + last == parts;
    } else if parts == [] {
      assert parts + last == last;
    } else {
      assert last == [last[0]];
      JoinOneMore(parts, last[0]);
    }
  }

  /** The optional text and the text come to the same prompt. */
  predicate SameText(value: Option<string>, text: string) {
    if Text.Blank(text) then !Present(value) else Present(value) && Text.Strip(value.value) == Text.Strip(text)
  }

  lemma SectionIsHeaded(title: string, value: Option<string>, text: string)
    requires SameText(value, text)
    ensures AllSolid(Section(title, value)) && Joined(Section(title, value)) == Headed(title, text)
    ensures |Section(title, value)| <= 1
  {
    if Present(value) {
      SectionIsSolid(title, value.value);
    }
  }

  /** Three texts under their titles, in the order of the layers. */
  function Layered(base: string, company: string, trial: string): string {
    Above(Above(Headed("System Base", base), Headed("Company Override", company)), Headed("Trial Override", trial))
  }

  lemma SectionsAreLayered(base: string, company: Option<string>, c: string, trial: Option<string>, t: string)
    requires SameText(company, c) && SameText(trial, t)
    ensures AllSolid(Sections(base, company, trial))
    ensures Joined(Sections(base, company, trial)) == Layered(base, c, t)
  {
    SectionIsHeaded(BASE, Some(base), base);
    SectionIsHeaded(COMPANY, company, c);
    SectionIsHeaded(TRIAL, trial, t);
    JoinedMore(Section(BASE, Some(base)), Section(COMPANY, company));
    JoinedMore(Section(BASE, Some(base)) + Section(COMPANY, company), Section(TRIAL, trial));
  }

  lemma OverrideIsRead(overrides: Overrides, key: string)
    ensures SameText(ReadOverride(overrides, key).instructions, InstructionsOf(overrides, key))
    ensures SameText(ReadOverride(overrides, key).rubric, RubricOf(overrides, key))
  {
  }

  /** The prompt is the base, the company's, the trial's and the run's text, each under its own title
      unless it is blank, and in that order; the rubric has no run context. */
  lemma LayersInOrder(key: string, base: Prompt, company: Overrides, trial: Overrides, context: Option<string>)
    ensures var r := Resolved(key, base, company, trial, context);
            && r.instructions ==
                 Above(Layered(base.instructions, InstructionsOf(company, key), InstructionsOf(trial, key)),
                       Headed("Run Context", if context.Some? then context.value else ""))
            && r.rubric == Layered(base.rubric, RubricOf(company, key), RubricOf(trial, key))
  {
    var c, t := ReadOverride(company, key), ReadOverride(trial, key);
    OverrideIsRead(company, key);
    OverrideIsRead(trial, key);
    SectionsAreLayered(base.instructions, c.instructions, InstructionsOf(company, key),
                       t.instructions, InstructionsOf(trial, key));
    SectionsAreLayered(base.rubric, c.rubric, RubricOf(company, key), t.rubric, RubricOf(trial, key));
    SectionIsHeaded(CONTEXT, context, if context.Some? then context.value else "");
    JoinedMore(Sections(base.instructions, c.instructions, t.instructions), Section(CONTEXT, context));
  }
}
