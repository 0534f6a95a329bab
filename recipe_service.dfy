/**
 * The data preparation of kitchen/domains/recipes/services.py: `generate_recipe` groups the
 * user's food preferences by type, fills the recipe-generation template, runs one extraction
 * per requested recipe, keeps the ones that succeeded and rewraps every failure as a
 * RecipeGenerationError; `_save_recipe` turns an extracted recipe into the rows it stores.
 * The repositories, the provider and the extraction are parameters.
 */
module RecipeService {
  import opened Wrappers
  import opened Text
  import P = RecipePrompts

  /** The values of `PreferenceType`, which are also the keys `generate_recipe` reads back. */
  const DietaryRestrictionsKey := "dietary_restrictions"
  const AllergiesKey := "allergies"
  const PreferredCuisinesKey := "preferred_cuisines"

  /** A stored food preference row. */
  datatype FoodPreference = FoodPreference(preferenceType: string, preferenceValue: string)

  // ---------------------------------------------------------------------------
  // Grouping preferences by type
  // ---------------------------------------------------------------------------

  /** The values of the rows of type `t`, in fetch order, duplicates kept. */
  function ValuesOf(prefs: seq<FoodPreference>, t: string): seq<string>
  {
    if |prefs| == 0 then []
    else
      var last := prefs[|prefs| - 1];
      ValuesOf(prefs[..|prefs| - 1], t) + (if last.preferenceType == t then [last.preferenceValue] else [])
  }

  /** The preference types that occur among the rows. */
  function TypesOf(prefs: seq<FoodPreference>): set<string>
  {
    set i | 0 <= i < |prefs| :: prefs[i].preferenceType
  }

  /** `preferences_by_type`: every type that occurs, with its values. */
  function Grouped(prefs: seq<FoodPreference>): (g: map<string, seq<string>>)
    ensures g.Keys == TypesOf(prefs)
    ensures forall t :: t in g ==> g[t] != []
  {
    forall t | t in TypesOf(prefs) ensures ValuesOf(prefs, t) != [] {
      ValuesOfNonEmpty(prefs, t);
    }
    map t | t in TypesOf(prefs) :: ValuesOf(prefs, t)
  }

  /** Rows fetched later come after the rows fetched earlier. */
  lemma {:induction false} ValuesOfAppend(a: seq<FoodPreference>, b: seq<FoodPreference>, t: string)
    ensures ValuesOf(a + b, t) == ValuesOf(a, t) + ValuesOf(b, t)
  {
    if |b| == 0 {
      assert a + b == a;
    } else {
      var ab := a + b;
      assert ab[..|ab| - 1] == a + b[..|b| - 1];
      ValuesOfAppend(a, b[..|b| - 1], t);
    }
  }

  /** A value is listed under a type exactly when some row has that type and value. */
  lemma {:induction false} ValuesOfMembership(prefs: seq<FoodPreference>, t: string, v: string)
    ensures v in ValuesOf(prefs, t) <==> exists i :: 0 <= i < |prefs| && prefs[i] == FoodPreference(t, v)
  {
    if |prefs| > 0 {
      var init := prefs[..|prefs| - 1];
      ValuesOfMembership(init, t, v);
      if v in ValuesOf(init, t) {
        var i :| 0 <= i < |init| && init[i] == FoodPreference(t, v);
        assert prefs[i] == FoodPreference(t, v);
      }
      if i :| 0 <= i < |prefs| && prefs[i] == FoodPreference(t, v) {
        if i < |init| {
          assert init[i] == FoodPreference(t, v);
        }
      }
    }
  }

  /** A type has values exactly when some row has that type. */
  lemma {:induction false} ValuesOfNonEmpty(prefs: seq<FoodPreference>, t: string)
    ensures ValuesOf(prefs, t) != [] <==> t in TypesOf(prefs)
  {
    if |prefs| > 0 {
      var init := prefs[..|prefs| - 1];
      ValuesOfNonEmpty(init, t);
      assert prefs == init + [prefs[|prefs| - 1]];
      TypesOfSnoc(init, prefs[|prefs| - 1]);
    }
  }

  /** Taking one more row adds its type to the types that occur. */
  lemma TypesOfSnoc(prefs: seq<FoodPreference>, p: FoodPreference)
    ensures TypesOf(prefs + [p]) == TypesOf(prefs) + {p.preferenceType}
  {
    var ext := prefs + [p];
    forall u | u in TypesOf(ext) ensures u in TypesOf(prefs) + {p.preferenceType} {
      var i :| 0 <= i < |ext| && ext[i].preferenceType == u;
      if i < |prefs| {
        assert prefs[i].preferenceType == u;
      }
    }
    forall u | u in TypesOf(prefs) ensures u in TypesOf(ext) {
      var i :| 0 <= i < |prefs| && prefs[i].preferenceType == u;
      assert ext[i].preferenceType == u;
    }
    assert ext[|prefs|] == p;
  }

  /** Taking one more row extends the values of its own type only. */
  lemma ValuesOfSnoc(prefs: seq<FoodPreference>, p: FoodPreference, t: string)
    ensures ValuesOf(prefs + [p], t) == ValuesOf(prefs, t) + (if p.preferenceType == t then [p.preferenceValue] else [])
  {
    var ext := prefs + [p];
    assert ext[..|ext| - 1] == prefs;
    assert ext[|ext| - 1] == p;
  }

  /** Taking one more row: its value goes at the end of its type's list, which is created when new. */
  lemma GroupedAppend(prefs: seq<FoodPreference>, p: FoodPreference)
    ensures Grouped(prefs + [p]) ==
      Grouped(prefs)[p.preferenceType := (if p.preferenceType in Grouped(prefs) then Grouped(prefs)[p.preferenceType] else []) + [p.preferenceValue]]
  {
    var ext := prefs + [p];
    var g := Grouped(prefs);
    var t0 := p.preferenceType;
    var expected := g[t0 := (if t0 in g then g[t0] else []) + [p.preferenceValue]];
    TypesOfSnoc(prefs, p);
    assert Grouped(ext).Keys == expected.Keys;
    forall t | t in TypesOf(ext) ensures Grouped(ext)[t] == expected[t] {
      ValuesOfSnoc(prefs, p, t);
      if t == t0 && t0 !in TypesOf(prefs) {
        ValuesOfNonEmpty(prefs, t0);
      }
    }
  }

  /** The grouping loop of `generate_recipe`. */
  method GroupPreferences(prefs: seq<FoodPreference>) returns (groups: map<string, seq<string>>)
    ensures groups == Grouped(prefs)
  {
    groups := map[];
    var i := 0;
    while i < |prefs|
      invariant 0 <= i <= |prefs|
      invariant groups == Grouped(prefs[..i])
    {
      var pref := prefs[i];
      GroupedAppend(prefs[..i], pref);
      assert prefs[..i + 1] == prefs[..i] + [pref];
      if pref.preferenceType !in groups {
        groups := groups[pref.preferenceType := []];
      }
      groups := groups[pref.preferenceType := groups[pref.preferenceType] + [pref.preferenceValue]];
      i := i + 1;
    }
    assert prefs[..|prefs|] == prefs;
  }

  /** `preferences_by_type.get(key, [])`. */
  function TemplateList(groups: map<string, seq<string>>, key: string): seq<string>
  {
    if key in groups then groups[key] else []
  }

  /** The list the template receives for a type holds exactly that type's values, in fetch order, and is empty when there are none. */
  lemma TemplateListOfGrouped(prefs: seq<FoodPreference>, key: string)
    ensures TemplateList(Grouped(prefs), key) == ValuesOf(prefs, key)
  {
    if key !in TypesOf(prefs) {
      ValuesOfNonEmpty(prefs, key);
    }
  }

  // ---------------------------------------------------------------------------
  // Filling the template
  // ---------------------------------------------------------------------------

  /** The profile fields `generate_recipe` reads. */
  datatype Profile = Profile(name: string, systemPrompt: Option<string>)

  /** The user's preference settings. */
  datatype PreferenceSettings = PreferenceSettings(spiceLevel: Option<string>, additionalInfo: Option<string>)

  /** The arguments `generate_recipe` passes to `format`. */
  function TemplateInput(profile: Profile, groups: map<string, seq<string>>, settings: Option<PreferenceSettings>,
                         numberOfRecipes: int): (input: P.RecipeGenerationInput)
    ensures input.userName == profile.name && input.numberOfRecipes == numberOfRecipes
    ensures input.systemPrompt == "" <==> !P.Truthy(profile.systemPrompt)
    ensures P.Truthy(profile.systemPrompt) ==> input.systemPrompt == profile.systemPrompt.value
    ensures DietaryRestrictionsKey !in groups ==> input.dietaryRestrictions == []
    ensures AllergiesKey !in groups ==> input.allergies == []
    ensures PreferredCuisinesKey !in groups ==> input.preferredCuisines == []
    ensures settings.None? ==> input.spiceLevel.None? && input.additionalInfo.None?
    ensures settings.Some? ==>
      input.spiceLevel == settings.value.spiceLevel && input.additionalInfo == settings.value.additionalInfo
  {
    P.RecipeGenerationInput(
      if P.Truthy(profile.systemPrompt) then profile.systemPrompt.value else "",
      profile.name,
      TemplateList(groups, DietaryRestrictionsKey),
      TemplateList(groups, AllergiesKey),
      TemplateList(groups, PreferredCuisinesKey),
      if settings.Some? then settings.value.spiceLevel else None,
      if settings.Some? then settings.value.additionalInfo else None,
      numberOfRecipes)
  }

  /** The preference type whose rows feed the template line of a list kind. */
  function KeyOf(k: P.PreferenceKind): string
    requires k.DietaryRestrictions? || k.Allergies? || k.PreferredCuisines?
  {
    match k
    case DietaryRestrictions => DietaryRestrictionsKey
    case Allergies => AllergiesKey
    case PreferredCuisines => PreferredCuisinesKey
  }

  /**
   * The template input has a line for a list kind exactly when the user has a preference
   * of its type, and that line lists the type's values in fetch order; by
   * `P.PreferenceLineInPrompt` the line then appears in the prompt.
   */
  lemma PreferenceReachesPrompt(profile: Profile, prefs: seq<FoodPreference>, settings: Option<PreferenceSettings>,
                                n: int, k: P.PreferenceKind)
    requires k.DietaryRestrictions? || k.Allergies? || k.PreferredCuisines?
    ensures var input := TemplateInput(profile, Grouped(prefs), settings, n);
      P.Present(input, k) <==> KeyOf(k) in TypesOf(prefs)
    ensures P.LineText(TemplateInput(profile, Grouped(prefs), settings, n), k) == Join(ValuesOf(prefs, KeyOf(k)), ", ")
  {
    TemplateListOfGrouped(prefs, KeyOf(k));
    ValuesOfNonEmpty(prefs, KeyOf(k));
  }

  /** Without settings, neither the spice line nor the additional-information line appears. */
  lemma NoSettingsNoSettingLines(profile: Profile, groups: map<string, seq<string>>, n: int)
    ensures !P.Present(TemplateInput(profile, groups, None, n), P.SpiceLevel)
    ensures !P.Present(TemplateInput(profile, groups, None, n), P.AdditionalInformation)
  {
  }

  // ---------------------------------------------------------------------------
  // Generation outcome
  // ---------------------------------------------------------------------------

  /** An exception raised inside the `try`: a ValueError (or a subclass), or any other, with its text. */
  datatype Thrown = ValueError(text: string) | OtherError(text: string)

  /** `RecipeGenerationError`: a 500 of the "recipe" domain with code RECIPE_GENERATION_FAILED. */
  datatype GenerationError = GenerationError(message: string)
  {
    function ErrorCode(): string { "RECIPE_GENERATION_FAILED" }
    function Status(): int { 500 }
    function Domain(): string { "recipe" }
  }

  /** `raise_recipe_generation_error`: an empty or missing message takes the default. */
  function RaiseGenerationError(message: Option<string>): (e: GenerationError)
    ensures message.Some? && message.value != "" ==> e.message == message.value
    ensures message.None? || message.value == "" ==> e.message == "Failed to generate recipe"
  {
    GenerationError(if message.Some? && message.value != "" then message.value else "Failed to generate recipe")
  }

  /** The two `except` clauses of `generate_recipe`. */
  function Rewrapped(t: Thrown): (e: GenerationError)
    ensures t.ValueError? ==> e.message == "Value error: " + t.text
    ensures t.OtherError? ==> e.message == "Unexpected error: " + t.text
  {
    match t
    case ValueError(s) => RaiseGenerationError(Some("Value error: " + s))
    case OtherError(s) => RaiseGenerationError(Some("Unexpected error: " + s))
  }

  /** The results of the `number_of_recipes` generations, in task order; None for one that failed. */
  function Attempts<R>(prompt: string, numberOfRecipes: int, generate: (string, nat) -> Option<R>): (rs: seq<Option<R>>)
    ensures |rs| == if numberOfRecipes > 0 then numberOfRecipes else 0
  {
    seq(if numberOfRecipes > 0 then numberOfRecipes else 0, i requires 0 <= i => generate(prompt, i))
  }

  /** The comprehension that drops the failed generations. */
  function Successes<R>(results: seq<Option<R>>): seq<R>
  {
    if |results| == 0 then []
    else (if results[0].Some? then [results[0].value] else []) + Successes(results[1..])
  }

  /**
   * The successes keep their order: each one comes from a result that succeeded, and the
   * ones from earlier results come first; they are empty exactly when every generation failed.
   */
  lemma {:induction false} SuccessesSpec<R>(results: seq<Option<R>>)
    ensures |Successes(results)| <= |results|
    ensures Successes(results) == [] <==> forall i :: 0 <= i < |results| ==> results[i].None?
    ensures forall i :: 0 <= i < |results| && results[i].Some? ==> results[i].value in Successes(results)
    ensures forall x :: x in Successes(results) ==> exists i :: 0 <= i < |results| && results[i] == Some(x)
  {
    if |results| > 0 {
      var rest := results[1..];
      SuccessesSpec(rest);
      forall i | 0 < i < |results| && results[i].Some?
        ensures results[i].value in Successes(results)
      {
        assert rest[i - 1] == results[i];
      }
      forall x | x in Successes(results)
        ensures exists i :: 0 <= i < |results| && results[i] == Some(x)
      {
        if x in Successes(rest) {
          var j :| 0 <= j < |rest| && rest[j] == Some(x);
          assert results[j + 1] == Some(x);
        } else {
          assert results[0] == Some(x);
        }
      }
      if Successes(results) == [] {
        forall i | 0 <= i < |results| ensures results[i].None? {
          if i > 0 {
            assert rest[i - 1] == results[i];
          }
        }
      }
    }
  }

  /** A generation result the filter keeps. */
  predicate Succeeded<R>(result: Option<R>)
  {
    result.Some?
  }

  /**
   * The filter keeps the successful results in task order and nothing else: the `k`-th
   * recipe is the value of the `k`-th successful result.
   */
  lemma {:induction false} SuccessesInOrder<R>(results: seq<Option<R>>)
    ensures |Successes(results)| == |Positions(results, Succeeded<R>)|
    ensures forall k :: 0 <= k < |Successes(results)| ==>
      Positions(results, Succeeded<R>)[k] < |results| && results[Positions(results, Succeeded<R>)[k]].Some? &&
      Successes(results)[k] == results[Positions(results, Succeeded<R>)[k]].value
  {
    if |results| > 0 {
      var rest := results[1..];
      SuccessesInOrder(rest);
      var ps := Positions(rest, Succeeded<R>);
      var sh := Shifted(ps);
      forall k | 0 <= k < |ps|
        ensures sh[k] < |results| && results[sh[k]] == rest[ps[k]]
      {
      }
      if results[0].Some? {
        assert Successes(results) == [results[0].value] + Successes(rest);
        assert Positions(results, Succeeded<R>) == [0] + sh;
      } else {
        assert Successes(results) == Successes(rest);
        assert Positions(results, Succeeded<R>) == sh;
      }
    }
  }

  /** Splitting the results splits the successes. */
  lemma {:induction false} SuccessesAppend<R>(a: seq<Option<R>>, b: seq<Option<R>>)
    ensures Successes(a + b) == Successes(a) + Successes(b)
  {
    if |a| == 0 {
      assert a + b == b;
    } else {
      var head := if a[0].Some? then [a[0].value] else [];
      assert (a + b)[0] == a[0];
      assert (a + b)[1..] == a[1..] + b;
      SuccessesAppend(a[1..], b);
      assert Successes(a + b) == head + (Successes(a[1..]) + Successes(b));
      assert Successes(a) == head + Successes(a[1..]);
    }
  }

  /** The message of the error the empty result list turns into, after the catch-all rewraps it. */
  const NoRecipesMessage := "Failed to generate any recipes"

  /**
   * The prompt `generate_recipe` builds from the profile, the grouped preferences and the
   * settings; `format` is the `format` of the template the factory returns, which for the
   * registered recipe-generation template is `P.FormattedPrompt`.
   */
  function PromptOf(profile: Profile, prefs: seq<FoodPreference>, settings: Option<PreferenceSettings>,
                    numberOfRecipes: int, format: P.RecipeGenerationInput -> string): string
  {
    format(TemplateInput(profile, Grouped(prefs), settings, numberOfRecipes))
  }

  /**
   * The part of `generate_recipe` after the prompt is built: run the generations, keep
   * the successes, and raise when there are none (which the catch-all then rewraps).
   */
  function Collected<R>(prompt: string, numberOfRecipes: int, generate: (string, nat) -> Option<R>): Result<seq<R>, GenerationError>
  {
    var recipes := Successes(Attempts(prompt, numberOfRecipes, generate));
    if recipes == [] then Err(Rewrapped(OtherError(RaiseGenerationError(Some(NoRecipesMessage)).message)))
    else Ok(recipes)
  }

  /**
   * The generations succeed exactly when at least one of them does, and then give every
   * successful recipe, each from one generation, at most one per requested recipe; when
   * none succeeds (for instance when fewer than one recipe is asked for) the error raised
   * inside the `try` is caught again by its catch-all and rewrapped.
   */
  lemma CollectedSpec<R>(prompt: string, numberOfRecipes: int, generate: (string, nat) -> Option<R>)
    ensures Collected(prompt, numberOfRecipes, generate).Ok? <==>
      exists i :: 0 <= i < numberOfRecipes && generate(prompt, i).Some?
    ensures Collected(prompt, numberOfRecipes, generate).Ok? ==>
      0 < |Collected(prompt, numberOfRecipes, generate).value| <= numberOfRecipes &&
      (forall i :: 0 <= i < numberOfRecipes && generate(prompt, i).Some? ==>
        generate(prompt, i).value in Collected(prompt, numberOfRecipes, generate).value) &&
      (forall x :: x in Collected(prompt, numberOfRecipes, generate).value ==>
        exists i :: 0 <= i < numberOfRecipes && generate(prompt, i) == Some(x))
    ensures Collected(prompt, numberOfRecipes, generate).Err? ==>
      Collected(prompt, numberOfRecipes, generate).error.message == "Unexpected error: " + NoRecipesMessage
  {
    var results := Attempts(prompt, numberOfRecipes, generate);
    SuccessesSpec(results);
    if exists i :: 0 <= i < numberOfRecipes && generate(prompt, i).Some? {
      var i :| 0 <= i < numberOfRecipes && generate(prompt, i).Some?;
      assert results[i].Some?;
    }
    forall i | 0 <= i < numberOfRecipes && generate(prompt, i).Some?
      ensures generate(prompt, i).value in Successes(results)
    {
      assert results[i] == generate(prompt, i);
    }
    forall x | x in Successes(results)
      ensures exists i :: 0 <= i < numberOfRecipes && generate(prompt, i) == Some(x)
    {
      var i :| 0 <= i < |results| && results[i] == Some(x);
      assert generate(prompt, i) == Some(x);
    }
  }

  /** The ValueError `generate_recipe` raises when the user has no profile. */
  function ProfileMissing(userId: int): string
  {
    "User profile not found for user ID " + IntToString(userId)
  }

  /**
   * `generate_recipe`. The profile, the food preferences and the preference settings are
   * what the repositories returned (or the exception they raised); `providerLookup` is
   * the exception `get_llm_provider` raised, if any; `format` fills the template and
   * `generate(prompt, i)` is the `i`-th generation, None when it failed. This is the
   * corrected definition, in which a profile carries an optional system prompt; the code as
   * written is `GenerationOutcomeAsWritten`.
   */
  function GenerationOutcome<R>(userId: int, profile: Result<Option<Profile>, Thrown>,
                                prefs: Result<seq<FoodPreference>, Thrown>,
                                settings: Result<Option<PreferenceSettings>, Thrown>,
                                providerLookup: Option<Thrown>, numberOfRecipes: int,
                                format: P.RecipeGenerationInput -> string,
                                generate: (string, nat) -> Option<R>): (r: Result<seq<R>, GenerationError>)
    ensures r.Ok? ==> LookupsSucceeded(profile, prefs, settings, providerLookup) && r.value != []
    ensures profile == Ok(None) ==> r == Err(Rewrapped(ValueError(ProfileMissing(userId))))
  {
    if profile.Err? then Err(Rewrapped(profile.error))
    else if profile.value.None? then
      Err(Rewrapped(ValueError(ProfileMissing(userId))))
    else if prefs.Err? then Err(Rewrapped(prefs.error))
    else if settings.Err? then Err(Rewrapped(settings.error))
    else if providerLookup.Some? then Err(Rewrapped(providerLookup.value))
    else Collected(PromptOf(profile.value.value, prefs.value, settings.value, numberOfRecipes, format), numberOfRecipes, generate)
  }

  /** Every lookup succeeded: a profile exists and no repository or the provider lookup raised. */
  predicate LookupsSucceeded(profile: Result<Option<Profile>, Thrown>, prefs: Result<seq<FoodPreference>, Thrown>,
                             settings: Result<Option<PreferenceSettings>, Thrown>, providerLookup: Option<Thrown>)
  {
    profile.Ok? && profile.value.Some? && prefs.Ok? && settings.Ok? && providerLookup.None?
  }

  /**
   * Recipes come back only when every lookup succeeded, and then the outcome is that of
   * the generations for the prompt built from the user's profile, grouped preferences and
   * settings: by `CollectedSpec`, success exactly when one generation succeeds.
   */
  lemma GenerationNeedsEveryLookup<R>(userId: int, profile: Result<Option<Profile>, Thrown>,
                                      prefs: Result<seq<FoodPreference>, Thrown>,
                                      settings: Result<Option<PreferenceSettings>, Thrown>,
                                      providerLookup: Option<Thrown>, numberOfRecipes: int,
                                      format: P.RecipeGenerationInput -> string,
                                      generate: (string, nat) -> Option<R>)
    ensures GenerationOutcome(userId, profile, prefs, settings, providerLookup, numberOfRecipes, format, generate).Ok? ==>
      LookupsSucceeded(profile, prefs, settings, providerLookup)
    ensures LookupsSucceeded(profile, prefs, settings, providerLookup) ==>
      GenerationOutcome(userId, profile, prefs, settings, providerLookup, numberOfRecipes, format, generate) ==
        Collected(PromptOf(profile.value.value, prefs.value, settings.value, numberOfRecipes, format), numberOfRecipes, generate)
  {
  }

  /**
   * A failed lookup is reported in the order the code performs them, as a
   * RecipeGenerationError whose message is the exception's text after "Value error: " for
   * a ValueError and "Unexpected error: " for any other; a missing profile is a ValueError.
   */
  lemma LookupFailuresRewrapped<R>(userId: int, profile: Result<Option<Profile>, Thrown>,
                                   prefs: Result<seq<FoodPreference>, Thrown>,
                                   settings: Result<Option<PreferenceSettings>, Thrown>,
                                   providerLookup: Option<Thrown>, numberOfRecipes: int,
                                   format: P.RecipeGenerationInput -> string,
                                   generate: (string, nat) -> Option<R>)
    ensures profile.Err? ==>
      GenerationOutcome(userId, profile, prefs, settings, providerLookup, numberOfRecipes, format, generate) == Err(Rewrapped(profile.error))
    ensures profile == Ok(None) ==>
      GenerationOutcome(userId, profile, prefs, settings, providerLookup, numberOfRecipes, format, generate).error.message ==
        "Value error: " + ("User profile not found for user ID " + IntToString(userId))
    ensures profile.Ok? && profile.value.Some? && prefs.Err? ==>
      GenerationOutcome(userId, profile, prefs, settings, providerLookup, numberOfRecipes, format, generate) == Err(Rewrapped(prefs.error))
    ensures profile.Ok? && profile.value.Some? && prefs.Ok? && settings.Err? ==>
      GenerationOutcome(userId, profile, prefs, settings, providerLookup, numberOfRecipes, format, generate) == Err(Rewrapped(settings.error))
    ensures profile.Ok? && profile.value.Some? && prefs.Ok? && settings.Ok? && providerLookup.Some? ==>
      GenerationOutcome(userId, profile, prefs, settings, providerLookup, numberOfRecipes, format, generate) == Err(Rewrapped(providerLookup.value))
  {
  }

  /** The text of the AttributeError Python raises for `profile.system_prompt` on a `Profile` row. */
  const NoSystemPromptText := "'Profile' object has no attribute 'system_prompt'"

  /**
   * `generate_recipe` as written. The `Profile` model (kitchen/domains/profiles/models.py)
   * has the columns id, name and dob and no `system_prompt`, so reading
   * `profile.system_prompt` while filling the template raises an AttributeError as soon as
   * the profile, the preferences and the settings are found; the generic `except` rewraps
   * it, and neither the provider lookup nor any generation is reached. `GenerationOutcome`
   * is the corrected definition, where a profile without a system prompt gives "".
   */
  function GenerationOutcomeAsWritten<R>(userId: int, profile: Result<Option<Profile>, Thrown>,
                                         prefs: Result<seq<FoodPreference>, Thrown>,
                                         settings: Result<Option<PreferenceSettings>, Thrown>,
                                         providerLookup: Option<Thrown>, numberOfRecipes: int,
                                         format: P.RecipeGenerationInput -> string,
                                         generate: (string, nat) -> Option<R>): (r: Result<seq<R>, GenerationError>)
    ensures r.Err?
    ensures profile.Ok? && profile.value.Some? && prefs.Ok? && settings.Ok? ==>
      r.error.message == "Unexpected error: " + NoSystemPromptText
    ensures !(profile.Ok? && profile.value.Some? && prefs.Ok? && settings.Ok?) ==>
      r == GenerationOutcome(userId, profile, prefs, settings, providerLookup, numberOfRecipes, format, generate)
  {
    if profile.Err? then Err(Rewrapped(profile.error))
    else if profile.value.None? then
      Err(Rewrapped(ValueError(ProfileMissing(userId))))
    else if prefs.Err? then Err(Rewrapped(prefs.error))
    else if settings.Err? then Err(Rewrapped(settings.error))
    else Err(Rewrapped(OtherError(NoSystemPromptText)))
  }

  /**
   * The discrepancy: a user with a profile, no preferences and no settings, for whom the
   * one generation asked for succeeds, gets that recipe from the corrected definition and
   * the AttributeError from the code as written.
   */
  lemma SystemPromptAttributeErrorWitness()
    ensures GenerationOutcome(1, Ok(Some(Profile("Ann", None))), Ok([]), Ok(None), None, 1,
                              (input: P.RecipeGenerationInput) => "prompt", (prompt: string, i: nat) => Some(7)) == Ok([7])
    ensures GenerationOutcomeAsWritten(1, Ok(Some(Profile("Ann", None))), Ok([]), Ok(None), None, 1,
                                       (input: P.RecipeGenerationInput) => "prompt", (prompt: string, i: nat) => Some(7)).Err?
  {
    var generate := (prompt: string, i: nat) => Some(7);
    var results := Attempts("prompt", 1, generate);
    assert results == [Some(7)];
    assert Successes(results) == [7] by {
      assert Successes(results[1..]) == [];
    }
  }

  /** The generations, the filter and the guard against an empty result. */
  method CollectRecipes<R>(prompt: string, numberOfRecipes: int, generate: (string, nat) -> Option<R>)
    returns (r: Result<seq<R>, GenerationError>)
    ensures r == Collected(prompt, numberOfRecipes, generate)
  {
    var results := Attempts(prompt, numberOfRecipes, generate);
    var recipes := Successes(results);
    if recipes == [] {
      return Err(Rewrapped(OtherError(RaiseGenerationError(Some(NoRecipesMessage)).message)));
    }
    return Ok(recipes);
  }

  /**
   * `generate_recipe`, step by step: the grouping loop, the template, the generations and the filter.
   * `format` is the `format` of the template `get_prompt_template` returns; for the registered
   * recipe-generation template that is `P.FormattedPrompt`, which `P.Format` computes.
   * It follows the corrected `GenerationOutcome`.
   */
  method GenerateRecipe<R>(userId: int, profile: Result<Option<Profile>, Thrown>,
                           prefs: Result<seq<FoodPreference>, Thrown>,
                           settings: Result<Option<PreferenceSettings>, Thrown>,
                           providerLookup: Option<Thrown>, numberOfRecipes: int,
                           format: P.RecipeGenerationInput -> string,
                           generate: (string, nat) -> Option<R>) returns (r: Result<seq<R>, GenerationError>)
    ensures r == GenerationOutcome(userId, profile, prefs, settings, providerLookup, numberOfRecipes, format, generate)
  {
    if profile.Err? {
      return Err(Rewrapped(profile.error));
    }
    if profile.value.None? {
      return Err(Rewrapped(ValueError(ProfileMissing(userId))));
    }
    if prefs.Err? {
      return Err(Rewrapped(prefs.error));
    }
    var groups := GroupPreferences(prefs.value);
    if settings.Err? {
      return Err(Rewrapped(settings.error));
    }
    var prompt := format(TemplateInput(profile.value.value, groups, settings.value, numberOfRecipes));
    if providerLookup.Some? {
      return Err(Rewrapped(providerLookup.value));
    }
    r := CollectRecipes(prompt, numberOfRecipes, generate);
  }

  // ---------------------------------------------------------------------------
  // _save_recipe
  // ---------------------------------------------------------------------------

  datatype Difficulty = Easy | Medium | Difficult

  /** `LLMIngredient`; the quantity is a float the code only copies. */
  datatype LLMIngredient = LLMIngredient(name: string, quantity: real, measurement: string)

  /** `LLMRecipeSchema`. */
  datatype LLMRecipe = LLMRecipe(
    name: string, description: string, duration: int, difficulty: Difficulty,
    ingredients: seq<LLMIngredient>, tags: seq<string>,
    dietaryRestrictions: seq<string>, allergies: seq<string>, preferredCuisines: seq<string>,
    spiceLevel: Option<string>)

  /** An ingredient dictionary passed to `create_recipe`. */
  datatype IngredientRow = IngredientRow(name: string, quantity: real, measurement: string)

  /** The arguments `_save_recipe` passes to `create_recipe`. */
  datatype RecipeCreation = RecipeCreation(
    userId: int, name: string, description: string, duration: int, difficulty: Difficulty,
    ingredients: seq<IngredientRow>, tags: seq<string>,
    preferences: map<string, seq<string>>, preferenceSettings: map<string, map<string, string>>)

  function IngredientRows(ingredients: seq<LLMIngredient>): (rows: seq<IngredientRow>)
    ensures |rows| == |ingredients|
    ensures forall i :: 0 <= i < |rows| ==> (rows[i].name == ingredients[i].name &&
      rows[i].quantity == ingredients[i].quantity && rows[i].measurement == ingredients[i].measurement)
  {
    seq(|ingredients|, i requires 0 <= i < |ingredients| =>
      IngredientRow(ingredients[i].name, ingredients[i].quantity, ingredients[i].measurement))
  }

  /** `_save_recipe`'s preparation of the stored data. */
  function SaveRecipeData(userId: int, recipe: LLMRecipe): (c: RecipeCreation)
    ensures c.userId == userId && c.name == recipe.name && c.tags == recipe.tags
    ensures c.description == recipe.description && c.duration == recipe.duration && c.difficulty == recipe.difficulty
    ensures c.ingredients == IngredientRows(recipe.ingredients)
    ensures c.preferenceSettings != map[] <==> P.Truthy(recipe.spiceLevel)
  {
    assert P.Truthy(recipe.spiceLevel) ==>
      PreferredCuisinesKey in map[PreferredCuisinesKey := map["spice_level" := recipe.spiceLevel.value]];
    RecipeCreation(
      userId, recipe.name, recipe.description, recipe.duration, recipe.difficulty,
      IngredientRows(recipe.ingredients), recipe.tags,
      map[DietaryRestrictionsKey := recipe.dietaryRestrictions, AllergiesKey := recipe.allergies,
          PreferredCuisinesKey := recipe.preferredCuisines],
      if P.Truthy(recipe.spiceLevel) then map[PreferredCuisinesKey := map["spice_level" := recipe.spiceLevel.value]]
      else map[])
  }

  /**
   * The stored preferences are filed under exactly the three keys `generate_recipe` reads
   * back with `.get(key, [])`, so reading a saved recipe's preferences the same way gives
   * the extracted lists; the preference settings exist exactly when a spice level was
   * extracted, filed under "preferred_cuisines".
   */
  lemma SavedRecipeReadsBack(userId: int, recipe: LLMRecipe)
    ensures var c := SaveRecipeData(userId, recipe);
      c.preferences.Keys == {DietaryRestrictionsKey, AllergiesKey, PreferredCuisinesKey} &&
      TemplateList(c.preferences, DietaryRestrictionsKey) == recipe.dietaryRestrictions &&
      TemplateList(c.preferences, AllergiesKey) == recipe.allergies &&
      TemplateList(c.preferences, PreferredCuisinesKey) == recipe.preferredCuisines
    ensures var c := SaveRecipeData(userId, recipe);
      (c.preferenceSettings != map[] <==> P.Truthy(recipe.spiceLevel)) &&
      (P.Truthy(recipe.spiceLevel) ==> (c.preferenceSettings.Keys == {PreferredCuisinesKey} &&
        c.preferenceSettings[PreferredCuisinesKey] == map["spice_level" := recipe.spiceLevel.value]))
    ensures var c := SaveRecipeData(userId, recipe);
      |c.ingredients| == |recipe.ingredients| &&
      forall i :: 0 <= i < |c.ingredients| ==> c.ingredients[i].name == recipe.ingredients[i].name
  {
    var c := SaveRecipeData(userId, recipe);
    assert DietaryRestrictionsKey != AllergiesKey && AllergiesKey != PreferredCuisinesKey &&
      DietaryRestrictionsKey != PreferredCuisinesKey by {
      assert DietaryRestrictionsKey[0] != AllergiesKey[0];
      assert AllergiesKey[0] != PreferredCuisinesKey[0];
      assert DietaryRestrictionsKey[0] != PreferredCuisinesKey[0];
    }
    if P.Truthy(recipe.spiceLevel) {
      assert PreferredCuisinesKey in c.preferenceSettings;
    }
  }
}
