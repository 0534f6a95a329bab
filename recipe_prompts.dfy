/**
 * The recipe prompt templates (kitchen/domains/recipes/prompts): the template types, the
 * recipe-generation template and the prompt it formats, and the factory's registry of
 * template classes with its cache of template instances.
 */
module RecipePrompts {
  import opened Wrappers
  import opened Text

  /** `TemplateType`. */
  datatype TemplateType = RecipeGeneration | RecipeVariation | IngredientSubstitution
  {
    function Value(): string
    {
      match this
      case RecipeGeneration => "recipe_generation"
      case RecipeVariation => "recipe_variation"
      case IngredientSubstitution => "ingredient_substitution"
    }
  }

  /** `TemplateConfig`, frozen. */
  datatype TemplateConfig = TemplateConfig(version: string, templateType: TemplateType, description: string)

  /** `RecipeGenerationInput`; the defaults are applied by the caller. */
  datatype RecipeGenerationInput = RecipeGenerationInput(
    systemPrompt: string, userName: string,
    dietaryRestrictions: seq<string>, allergies: seq<string>, preferredCuisines: seq<string>,
    spiceLevel: Option<string>, additionalInfo: Option<string>, numberOfRecipes: int)

  /** Python truthiness of an optional string. */
  predicate Truthy(v: Option<string>)
  {
    v.Some? && v.value != ""
  }

  /** The preference lines the template can emit, in the order it emits them. */
  datatype PreferenceKind = DietaryRestrictions | Allergies | PreferredCuisines | SpiceLevel | AdditionalInformation
  {
    /** The label that opens the line, with its colon and space. */
    function Heading(): string
    {
      match this
      case DietaryRestrictions => "Dietary Restrictions: "
      case Allergies => "Allergies: "
      case PreferredCuisines => "Preferred Cuisines: "
      case SpiceLevel => "Spice Level: "
      case AdditionalInformation => "Additional Information: "
    }

    function Rank(): nat
    {
      match this
      case DietaryRestrictions => 0
      case Allergies => 1
      case PreferredCuisines => 2
      case SpiceLevel => 3
      case AdditionalInformation => 4
    }
  }

  /** The kinds in the order `format` considers them. */
  const KindOrder: seq<PreferenceKind> := [DietaryRestrictions, Allergies, PreferredCuisines, SpiceLevel, AdditionalInformation]

  datatype PreferenceLine = PreferenceLine(kind: PreferenceKind, text: string)
  {
    function Rendered(): string
    {
      kind.Heading() + text + "\n"
    }
  }

  /** Whether the input asks for the line of kind `k`: a non-empty list, or a truthy text. */
  predicate Present(input: RecipeGenerationInput, k: PreferenceKind)
  {
    match k
    case DietaryRestrictions => input.dietaryRestrictions != []
    case Allergies => input.allergies != []
    case PreferredCuisines => input.preferredCuisines != []
    case SpiceLevel => Truthy(input.spiceLevel)
    case AdditionalInformation => Truthy(input.additionalInfo)
  }

  /** What follows the heading of the line of kind `k`: a list joined by ", ", or the text itself. */
  function LineText(input: RecipeGenerationInput, k: PreferenceKind): string
  {
    match k
    case DietaryRestrictions => Join(input.dietaryRestrictions, ", ")
    case Allergies => Join(input.allergies, ", ")
    case PreferredCuisines => Join(input.preferredCuisines, ", ")
    case SpiceLevel => if input.spiceLevel.Some? then input.spiceLevel.value else ""
    case AdditionalInformation => if input.additionalInfo.Some? then input.additionalInfo.value else ""
  }

  /** The lines, among the kinds `ks` in that order, that the input asks for. */
  function LinesFor(input: RecipeGenerationInput, ks: seq<PreferenceKind>): seq<PreferenceLine>
  {
    if |ks| == 0 then []
    else
      var rest := LinesFor(input, ks[1..]);
      if Present(input, ks[0]) then [PreferenceLine(ks[0], LineText(input, ks[0]))] + rest else rest
  }

  /** The line of kind `k`, when the input asks for it. */
  function LineIf(input: RecipeGenerationInput, k: PreferenceKind): seq<PreferenceLine>
  {
    if Present(input, k) then [PreferenceLine(k, LineText(input, k))] else []
  }

  /** The preference lines of the prompt, in the template's order. */
  function PreferenceLines(input: RecipeGenerationInput): seq<PreferenceLine>
  {
    LineIf(input, DietaryRestrictions) + LineIf(input, Allergies) + LineIf(input, PreferredCuisines) +
    LineIf(input, SpiceLevel) + LineIf(input, AdditionalInformation)
  }

  function RenderAll(ls: seq<PreferenceLine>): string
  {
    if |ls| == 0 then "" else ls[0].Rendered() + RenderAll(ls[1..])
  }

  /** The request line, which states the number of recipes. */
  function RequestLine(numberOfRecipes: int): string
  {
    "I need to generate " + IntToString(numberOfRecipes) + " recipe(s) based on the following preferences:\n\n"
  }

/** The lines of the fixed instruction block; a blank line is the empty string. */
  const InstructionLines: seq<string> := [
    "Please generate a detailed recipe that matches these preferences. The recipe should include:",
    "",
    "1. A creative name",
    "2. A detailed description explaining what the dish is and its flavor profile",
    "3. Total cooking time in minutes",
    "4. Difficulty level (Easy, Medium, or Difficult)",
    "5. A list of all ingredients with precise quantities and measurements",
    "6. Relevant tags for the recipe",
    "",
    "Make sure the recipe:",
    "- Takes into account all dietary restrictions and allergies",
    "- Matches preferred cuisines when possible",
    "- Adjusts to the specified spice level",
    "- Provides measurements in standard units (cups, tablespoons, grams, etc.)"]

  /** The indentation of the triple-quoted literal the block is written as. */
  const Indent := "        "

  /** Each line indented and ended, then the indentation of the closing quotes. */
  function IndentedBlock(ls: seq<string>): string
  {
    if |ls| == 0 then Indent else Indent + ls[0] + "\n" + IndentedBlock(ls[1..])
  }

  /** The fixed instruction block that closes the prompt. */
  const Instructions: string := "\n" + IndentedBlock(InstructionLines)

  /** The opening of the prompt: the system prompt, a blank line and the request line. */
  function PromptHead(input: RecipeGenerationInput): string
  {
    input.systemPrompt + "\n\n" + RequestLine(input.numberOfRecipes)
  }

  /** The prompt `RecipeGenerationTemplate.format` returns. */
  function FormattedPrompt(input: RecipeGenerationInput): string
  {
    PromptHead(input) + RenderAll(PreferenceLines(input)) + Instructions
  }

  /** The prompt opens with the system prompt, a blank line and the request line, and closes with the instructions. */
  lemma PromptFrame(input: RecipeGenerationInput)
    ensures StartsWith(FormattedPrompt(input), input.systemPrompt + "\n\n" + RequestLine(input.numberOfRecipes))
    ensures var p := FormattedPrompt(input);
      |Instructions| <= |p| && p[|p| - |Instructions|..] == Instructions
  {
    Framed(PromptHead(input), RenderAll(PreferenceLines(input)), Instructions);
  }

  /** `RecipeGenerationTemplate.format`: the prompt built by successive appends, one per line the input asks for. */
  method Format(input: RecipeGenerationInput) returns (prompt: string)
    ensures prompt == FormattedPrompt(input)
  {
    prompt := input.systemPrompt + "\n\n";
    prompt := prompt + RequestLine(input.numberOfRecipes);
    ghost var start, section, before := prompt, "", prompt;
    assert prompt == start + section;
    if input.dietaryRestrictions != [] {
      prompt := prompt + PreferenceLine(DietaryRestrictions, Join(input.dietaryRestrictions, ", ")).Rendered();
    }
    Emitted(input, DietaryRestrictions, start, section, before, prompt);
    assert section + RenderedIf(input, DietaryRestrictions) == RenderedIf(input, DietaryRestrictions);
    section, before := RenderedIf(input, DietaryRestrictions), prompt;
    if input.allergies != [] {
      prompt := prompt + PreferenceLine(Allergies, Join(input.allergies, ", ")).Rendered();
    }
    Emitted(input, Allergies, start, section, before, prompt);
    section, before := section + RenderedIf(input, Allergies), prompt;
    if input.preferredCuisines != [] {
      prompt := prompt + PreferenceLine(PreferredCuisines, Join(input.preferredCuisines, ", ")).Rendered();
    }
    Emitted(input, PreferredCuisines, start, section, before, prompt);
    section, before := section + RenderedIf(input, PreferredCuisines), prompt;
    if Truthy(input.spiceLevel) {
      prompt := prompt + PreferenceLine(SpiceLevel, input.spiceLevel.value).Rendered();
    }
    Emitted(input, SpiceLevel, start, section, before, prompt);
    section, before := section + RenderedIf(input, SpiceLevel), prompt;
    if Truthy(input.additionalInfo) {
      prompt := prompt + PreferenceLine(AdditionalInformation, input.additionalInfo.value).Rendered();
    }
    Emitted(input, AdditionalInformation, start, section, before, prompt);
    section := section + RenderedIf(input, AdditionalInformation);
    PreferenceSection(input);
    assert section == RenderAll(PreferenceLines(input));
    prompt := prompt + Instructions;
  }
  lemma {:induction false} RenderAllAppend(xs: seq<PreferenceLine>, ys: seq<PreferenceLine>)
    ensures RenderAll(xs + ys) == RenderAll(xs) + RenderAll(ys)
  {
    if |xs| == 0 {
      assert xs + ys == ys;
    } else {
      assert (xs + ys)[1..] == xs[1..] + ys;
      RenderAllAppend(xs[1..], ys);
    }
  }

  /** The rendered line of kind `k`, or nothing when the input does not ask for it. */
  function RenderedIf(input: RecipeGenerationInput, k: PreferenceKind): string
  {
    if Present(input, k) then PreferenceLine(k, LineText(input, k)).Rendered() else ""
  }

  /** Appending the line of kind `k`, when the input asks for it, extends the section rendered so far by that line. */
  lemma Emitted(input: RecipeGenerationInput, k: PreferenceKind, start: string, section: string, before: string, after: string)
    requires before == start + section
    requires after == if Present(input, k) then before + PreferenceLine(k, LineText(input, k)).Rendered() else before
    ensures after == start + (section + RenderedIf(input, k))
  {
    if !Present(input, k) {
      assert section + "" == section;
    }
  }

  lemma RenderAllLineIf(input: RecipeGenerationInput, k: PreferenceKind)
    ensures RenderAll(LineIf(input, k)) == RenderedIf(input, k)
  {
    if Present(input, k) {
      assert LineIf(input, k)[1..] == [];
    }
  }

  /** The rendered preference section is the kinds' rendered lines, one after another. */
  lemma PreferenceSection(input: RecipeGenerationInput)
    ensures RenderAll(PreferenceLines(input)) == RenderedIf(input, DietaryRestrictions) + RenderedIf(input, Allergies) +
      RenderedIf(input, PreferredCuisines) + RenderedIf(input, SpiceLevel) + RenderedIf(input, AdditionalInformation)
  {
    var d, a, c, s, i := LineIf(input, DietaryRestrictions), LineIf(input, Allergies), LineIf(input, PreferredCuisines),
      LineIf(input, SpiceLevel), LineIf(input, AdditionalInformation);
    RenderAllAppend(d + a + c + s, i);
    RenderAllAppend(d + a + c, s);
    RenderAllAppend(d + a, c);
    RenderAllAppend(d, a);
    RenderAllLineIf(input, DietaryRestrictions);
    RenderAllLineIf(input, Allergies);
    RenderAllLineIf(input, PreferredCuisines);
    RenderAllLineIf(input, SpiceLevel);
    RenderAllLineIf(input, AdditionalInformation);
  }

  /** The explicit sequence of conditional lines is the kinds' lines taken in `KindOrder`. */
  lemma PreferenceLinesInKindOrder(input: RecipeGenerationInput)
    ensures PreferenceLines(input) == LinesFor(input, KindOrder)
  {
    var d, a, c, s, i := LineIf(input, DietaryRestrictions), LineIf(input, Allergies), LineIf(input, PreferredCuisines),
      LineIf(input, SpiceLevel), LineIf(input, AdditionalInformation);
    var k4 := [AdditionalInformation];
    var k3 := [SpiceLevel] + k4;
    var k2 := [PreferredCuisines] + k3;
    var k1 := [Allergies] + k2;
    assert KindOrder == [DietaryRestrictions] + k1;
    LinesForCons(input, AdditionalInformation, []);
    assert LinesFor(input, []) == [];
    assert i + [] == i;
    LinesForCons(input, SpiceLevel, k4);
    LinesForCons(input, PreferredCuisines, k3);
    LinesForCons(input, Allergies, k2);
    LinesForCons(input, DietaryRestrictions, k1);
    ConcatFive(d, a, c, s, i);
  }

  /** The first kind contributes its line ahead of the rest. */
  lemma LinesForCons(input: RecipeGenerationInput, k: PreferenceKind, ks: seq<PreferenceKind>)
    ensures LinesFor(input, [k] + ks) == LineIf(input, k) + LinesFor(input, ks)
  {
    assert ([k] + ks)[1..] == ks;
  }

  /**
   * Among the kinds `ks`, a line of kind `k` is emitted exactly when `k` is one of them and
   * the input asks for it; every emitted line carries its kind's text.
   */
  lemma {:induction false} LinesForIff(input: RecipeGenerationInput, ks: seq<PreferenceKind>, k: PreferenceKind)
    ensures (exists i :: 0 <= i < |LinesFor(input, ks)| && LinesFor(input, ks)[i].kind == k) <==> (k in ks && Present(input, k))
    ensures forall i :: 0 <= i < |LinesFor(input, ks)| ==>
      LinesFor(input, ks)[i].text == LineText(input, LinesFor(input, ks)[i].kind)
  {
    if |ks| > 0 {
      LinesForIff(input, ks[1..], k);
      var rest := LinesFor(input, ks[1..]);
      var ls := LinesFor(input, ks);
      assert k in ks <==> k == ks[0] || k in ks[1..];
      if Present(input, ks[0]) {
        assert ls == [PreferenceLine(ks[0], LineText(input, ks[0]))] + rest;
        forall i | 0 <= i < |ls| && ls[i].kind == k
          ensures k in ks && Present(input, k)
        {
          if i > 0 {
            assert ls[i] == rest[i - 1];
            assert 0 <= i - 1 < |LinesFor(input, ks[1..])| && LinesFor(input, ks[1..])[i - 1].kind == k;
            assert k in ks[1..];
          } else {
            assert k == ks[0];
          }
        }
        if k in ks[1..] && Present(input, k) {
          var j :| 0 <= j < |rest| && rest[j].kind == k;
          assert ls[j + 1].kind == k;
        }
        assert ls[0].kind == ks[0];
      }
    }
  }

  /** A line of kind `k` is in the prompt's preference section exactly when the input asks for it, with its text. */
  lemma PreferenceLineIff(input: RecipeGenerationInput, k: PreferenceKind)
    ensures (exists i :: 0 <= i < |PreferenceLines(input)| && PreferenceLines(input)[i].kind == k) <==> Present(input, k)
    ensures forall i :: 0 <= i < |PreferenceLines(input)| && PreferenceLines(input)[i].kind == k ==>
      PreferenceLines(input)[i].text == LineText(input, k)
  {
    PreferenceLinesInKindOrder(input);
    LinesForIff(input, KindOrder, k);
    assert k in KindOrder by {
      match k
      case DietaryRestrictions => assert KindOrder[0] == k;
      case Allergies => assert KindOrder[1] == k;
      case PreferredCuisines => assert KindOrder[2] == k;
      case SpiceLevel => assert KindOrder[3] == k;
      case AdditionalInformation => assert KindOrder[4] == k;
    }
  }

  /** Lines drawn from kinds of increasing rank come out in increasing rank. */
  lemma {:induction false} LinesForOrdered(input: RecipeGenerationInput, ks: seq<PreferenceKind>)
    requires forall i, j :: 0 <= i < j < |ks| ==> ks[i].Rank() < ks[j].Rank()
    ensures forall i :: 0 <= i < |LinesFor(input, ks)| ==> LinesFor(input, ks)[i].kind in ks
    ensures forall i, j :: 0 <= i < j < |LinesFor(input, ks)| ==>
      LinesFor(input, ks)[i].kind.Rank() < LinesFor(input, ks)[j].kind.Rank()
  {
    if |ks| > 0 {
      LinesForOrdered(input, ks[1..]);
      var rest := LinesFor(input, ks[1..]);
      forall i | 0 <= i < |rest|
        ensures ks[0].Rank() < rest[i].kind.Rank()
      {
        var m :| 0 <= m < |ks[1..]| && ks[1..][m] == rest[i].kind;
        assert ks[m + 1] == rest[i].kind;
      }
    }
  }

  /** The lines come in the fixed order dietary restrictions, allergies, cuisines, spice level, additional information. */
  lemma PreferencesOrdered(input: RecipeGenerationInput)
    ensures forall i, j :: 0 <= i < j < |PreferenceLines(input)| ==>
      PreferenceLines(input)[i].kind.Rank() < PreferenceLines(input)[j].kind.Rank()
  {
    PreferenceLinesInKindOrder(input);
    LinesForOrdered(input, KindOrder);
  }

  /** Each line of the preference section occurs in the rendered section, after the lines before it. */
  lemma {:induction false} RenderedAt(ls: seq<PreferenceLine>, i: int)
    requires 0 <= i < |ls|
    ensures OccursAt(RenderAll(ls), ls[i].Rendered(), |RenderAll(ls[..i])|)
  {
    var first := ls[0].Rendered();
    var rest := ls[1..];
    assert RenderAll(ls) == first + RenderAll(rest);
    if i == 0 {
      assert RenderAll(ls[..0]) == "";
      assert RenderAll(ls)[0..|first|] == first;
    } else {
      RenderedAt(rest, i - 1);
      assert rest[i - 1] == ls[i];
      assert ls[..i][1..] == rest[..i - 1];
      assert RenderAll(ls[..i]) == first + RenderAll(rest[..i - 1]);
      OccursAtExtended(first, RenderAll(rest), "", ls[i].Rendered(), |RenderAll(rest[..i - 1])|);
      assert first + RenderAll(rest) + "" == RenderAll(ls);
    }
  }

  /** A rendered line occurs in the prompt assembled around the rendered section. */
  lemma ContainsAssembled(head: string, ls: seq<PreferenceLine>, tail: string, i: int)
    requires 0 <= i < |ls|
    ensures Contains(head + RenderAll(ls) + tail, ls[i].Rendered())
  {
    RenderedAt(ls, i);
    OccursAtExtended(head, RenderAll(ls), tail, ls[i].Rendered(), |RenderAll(ls[..i])|);
  }

  /** Every preference line the input asks for appears in the prompt, whatever closes it. */
  lemma PreferenceLineBeforeTail(input: RecipeGenerationInput, k: PreferenceKind, tail: string)
    requires Present(input, k)
    ensures Contains(PromptHead(input) + RenderAll(PreferenceLines(input)) + tail, k.Heading() + LineText(input, k) + "\n")
  {
    var ls := PreferenceLines(input);
    PreferenceLineIff(input, k);
    var i :| 0 <= i < |ls| && ls[i].kind == k;
    ContainsAssembled(PromptHead(input), ls, tail, i);
  }

  /**
   * Every preference line the input asks for appears in the prompt, for instance
   * "Dietary Restrictions: Vegetarian, Gluten-free\n" for those two restrictions.
   */
  lemma PreferenceLineInPrompt(input: RecipeGenerationInput, k: PreferenceKind)
    requires Present(input, k)
    ensures Contains(FormattedPrompt(input), k.Heading() + LineText(input, k) + "\n")
  {
    PreferenceLineBeforeTail(input, k, Instructions);
  }

  // ---------------------------------------------------------------------------
  // Template classes and the factory
  // ---------------------------------------------------------------------------

  /** A template class, named, with the configuration its constructor builds. */
  datatype TemplateClass = TemplateClass(name: string, config: TemplateConfig)

  const RecipeGenerationTemplate: TemplateClass := TemplateClass("RecipeGenerationTemplate",
    TemplateConfig("1.0.0", RecipeGeneration, "Prompt template for generating recipes based on user preferences"))

  /** A template instance. */
  class PromptTemplate {
    const cls: TemplateClass

    constructor (cls: TemplateClass)
      ensures this.cls == cls
    {
      this.cls := cls;
    }

    /** The `version` property. */
    function Version(): string
    {
      cls.config.version
    }

    /** The `template_type` property: the type's value. */
    function TemplateTypeValue(): string
    {
      cls.config.templateType.Value()
    }
  }

  /** The recipe-generation template reports version "1.0.0" and type "recipe_generation". */
  lemma RecipeTemplateIdentity(t: PromptTemplate)
    requires t.cls == RecipeGenerationTemplate
    ensures t.Version() == "1.0.0" && t.TemplateTypeValue() == "recipe_generation"
  {
  }

  /** The module state `_TEMPLATE_REGISTRY` and `_TEMPLATE_CACHE`. */
  class TemplateFactory {
    var registry: map<string, TemplateClass>
    var cache: map<string, PromptTemplate>

    /** Every cached instance is of a registered type, and of the class registered for it. */
    predicate Valid()
      reads this
    {
      forall k :: k in cache ==> k in registry && cache[k].cls == registry[k]
    }

    /** The import-time state: only the recipe-generation template is registered, nothing is cached. */
    constructor ()
      ensures registry == map[RecipeGeneration.Value() := RecipeGenerationTemplate] && cache == map[]
      ensures Valid()
    {
      registry := map[RecipeGeneration.Value() := RecipeGenerationTemplate];
      cache := map[];
    }

    /**
     * `get_prompt_template`: an unregistered type is refused; otherwise the instance is
     * created and cached on first use, and a requested version must match it. The cache
     * is filled even when the version then does not match.
     */
    method GetPromptTemplate(t: TemplateType, version: Option<string>) returns (r: Result<PromptTemplate, string>)
      requires Valid()
      modifies this
      ensures Valid()
      ensures registry == old(registry)
      ensures t.Value() !in registry ==> (cache == old(cache) &&
        r == Err("Template type '" + t.Value() + "' is not registered"))
      ensures t.Value() in registry ==> t.Value() in cache
      ensures t.Value() in old(cache) ==> cache == old(cache)
      ensures t.Value() in registry && t.Value() !in old(cache) ==>
        fresh(cache[t.Value()]) && cache == old(cache)[t.Value() := cache[t.Value()]]
      ensures r.Ok? <==> t.Value() in registry && (version.None? || cache[t.Value()].Version() == version.value)
      ensures r.Ok? ==> r.value == cache[t.Value()] && r.value.cls == registry[t.Value()]
    {
      var key := t.Value();
      if key !in registry {
        return Err("Template type '" + key + "' is not registered");
      }
      if key !in cache {
        var instance := new PromptTemplate(registry[key]);
        cache := cache[key := instance];
      }
      var template := cache[key];
      if version.Some? && template.Version() != version.value {
        return Err("Template version '" + version.value + "' not available for type '" + key + "'");
      }
      return Ok(template);
    }

    /**
     * `register_template`: a registered type is refused and nothing changes; otherwise the
     * class is added. The cache entry it would drop never exists, since only registered
     * types are cached.
     */
    method RegisterTemplate(key: string, cls: TemplateClass) returns (r: Result<(), string>)
      requires Valid()
      modifies this
      ensures Valid()
      ensures key in old(registry) ==> (r == Err("Template type '" + key + "' is already registered") &&
        registry == old(registry) && cache == old(cache))
      ensures key !in old(registry) ==> (r.Ok? && registry == old(registry)[key := cls] && cache == old(cache))
    {
      if key in registry {
        return Err("Template type '" + key + "' is already registered");
      }
      registry := registry[key := cls];
      cache := cache - {key};
      return Ok(());
    }
  }

  /**
   * At import time, RECIPE_VARIATION is declared but not registered, so asking for it
   * fails, while the recipe-generation template is created once and then reused.
   */
  method ImportTimeLookups() returns (variation: Result<PromptTemplate, string>,
                                      first: Result<PromptTemplate, string>, second: Result<PromptTemplate, string>)
    ensures variation == Err("Template type '" + RecipeVariation.Value() + "' is not registered")
    ensures first.Ok? && second.Ok? && first.value == second.value
    ensures first.value.Version() == "1.0.0"
  {
    var f := new TemplateFactory();
    assert RecipeVariation.Value() !in f.registry;
    variation := f.GetPromptTemplate(RecipeVariation, None);
    first := f.GetPromptTemplate(RecipeGeneration, None);
    second := f.GetPromptTemplate(RecipeGeneration, Some("1.0.0"));
  }
}
