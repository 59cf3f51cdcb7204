/** The five chatbot intents and the first-match keyword classifier that
    both the browser (`determineIntent`) and the agent server
    (`auto_detect_intent`) use; the two differ only in their mood words. */
module Intents {
  import opened Wrappers
  import opened Text

  datatype Intent = LogCgm | LogMood | LogFood | GeneratePlan | GeneralQuery

  /** The wire name of an intent. */
  function Label(i: Intent): string {
    match i
    case LogCgm => "log_cgm"
    case LogMood => "log_mood"
    case LogFood => "log_food"
    case GeneratePlan => "generate_plan"
    case GeneralQuery => "general_query"
  }

  /** The intent a wire name stands for, if any. */
  function FromLabel(s: string): (r: Option<Intent>)
    ensures r.Some? ==> Label(r.value) == s
  {
    if s == "log_cgm" then Some(LogCgm)
    else if s == "log_mood" then Some(LogMood)
    else if s == "log_food" then Some(LogFood)
    else if s == "generate_plan" then Some(GeneratePlan)
    else if s == "general_query" then Some(GeneralQuery)
    else None
  }

  /** Every intent is sent under a name that reads back as itself, so no
      two intents share a name. */
  lemma LabelRoundTrip(i: Intent)
    ensures FromLabel(Label(i)) == Some(i)
  {
    match i
    case LogCgm =>
    case LogMood =>
    case LogFood =>
    case GeneratePlan => assert Label(i)[0] == 'g';
    case GeneralQuery => assert Label(i)[6] == 'l';
  }

  const CgmWords: seq<string> := ["glucose", "blood sugar"]
  /** The browser's mood words. */
  const BrowserMoodWords: seq<string> := ["mood", "feel", "happy", "sad", "tired", "excited"]
  /** The agent server's mood words: the browser's plus two more. */
  const ServerMoodWords: seq<string> := BrowserMoodWords + ["anxious", "stressed"]
  const FoodWords: seq<string> := ["eat", "food", "meal", "lunch", "dinner", "breakfast"]
  const PlanWords: seq<string> := ["plan", "meal plan", "generate", "suggest"]

  /** The glucose rule: a glucose phrase or a free-standing number. */
  predicate CgmRule(t: string) {
    ContainsAny(t, CgmWords) || HasStandaloneNumber(t)
  }

  /** The keyword decision list over already lower-cased text: the first
      rule that fires wins. */
  function Classify(t: string, moodWords: seq<string>): (r: Intent)
    ensures r == LogCgm <==> CgmRule(t)
    ensures r == LogMood <==> !CgmRule(t) && ContainsAny(t, moodWords)
    ensures r == LogFood <==> !CgmRule(t) && !ContainsAny(t, moodWords) && ContainsAny(t, FoodWords)
    ensures r == GeneratePlan <==>
      !CgmRule(t) && !ContainsAny(t, moodWords) && !ContainsAny(t, FoodWords) && ContainsAny(t, PlanWords)
  {
    if CgmRule(t) then LogCgm
    else if ContainsAny(t, moodWords) then LogMood
    else if ContainsAny(t, FoodWords) then LogFood
    else if ContainsAny(t, PlanWords) then GeneratePlan
    else GeneralQuery
  }

  /** `determineIntent`: the decision list over the lower-cased input with
      the browser's mood words; anything no rule catches is a general query. */
  function DetermineIntent(input: string): (r: Intent)
    ensures r == LogCgm <==> CgmRule(Lower(input))
    ensures r == LogMood <==> !CgmRule(Lower(input)) && ContainsAny(Lower(input), BrowserMoodWords)
    ensures r == LogFood <==> !CgmRule(Lower(input)) && !ContainsAny(Lower(input), BrowserMoodWords) && ContainsAny(Lower(input), FoodWords)
    ensures r == GeneralQuery <==>
      !CgmRule(Lower(input)) && !ContainsAny(Lower(input), BrowserMoodWords) && !ContainsAny(Lower(input), FoodWords) && !ContainsAny(Lower(input), PlanWords)
  {
    Classify(Lower(input), BrowserMoodWords)
  }

  /** `auto_detect_intent`: the same decision list with the server's mood
      words. */
  function AutoDetectIntent(message: string): (r: Intent)
    ensures r == LogCgm <==> CgmRule(Lower(message))
    ensures r == LogMood <==> !CgmRule(Lower(message)) && ContainsAny(Lower(message), ServerMoodWords)
    ensures r == LogFood <==> !CgmRule(Lower(message)) && !ContainsAny(Lower(message), ServerMoodWords) && ContainsAny(Lower(message), FoodWords)
    ensures r == GeneralQuery <==>
      !CgmRule(Lower(message)) && !ContainsAny(Lower(message), ServerMoodWords) && !ContainsAny(Lower(message), FoodWords) && !ContainsAny(Lower(message), PlanWords)
  {
    Classify(Lower(message), ServerMoodWords)
  }

  /** A text that mentions a meal is never a plan request, so "meal plan"
      is logged as food: the plan rule can only fire without any food word. */
  lemma MealPlanIsFood(t: string, moodWords: seq<string>)
    requires Contains(t, "meal plan")
    ensures Classify(t, moodWords) != GeneratePlan
    ensures !CgmRule(t) && !ContainsAny(t, moodWords) ==> Classify(t, moodWords) == LogFood
  {
    var i :| 0 <= i <= |t| && OccursAt(t, "meal plan", i);
    assert t[i..][..4] == "meal";
    assert OccursAt(t, "meal", i);
    assert "meal" in FoodWords;
  }

  /** The "meal plan" alternative of the plan rule is dead: "plan" alone
      decides the same. */
  lemma PlanRuleRedundancy(t: string)
    ensures ContainsAny(t, PlanWords) <==> ContainsAny(t, ["plan", "generate", "suggest"])
  {
    if Contains(t, "meal plan") {
      var i :| 0 <= i <= |t| && OccursAt(t, "meal plan", i);
      assert t[i + 5..][..4] == "plan";
      assert OccursAt(t, "plan", i + 5);
      assert "plan" in ["plan", "generate", "suggest"] && Contains(t, "plan");
    }
    if ContainsAny(t, PlanWords) {
      var w :| w in PlanWords && Contains(t, w);
      if w != "meal plan" {
        assert w in ["plan", "generate", "suggest"];
      }
    }
    if ContainsAny(t, ["plan", "generate", "suggest"]) {
      var w :| w in ["plan", "generate", "suggest"] && Contains(t, w);
      assert w == PlanWords[0] || w == PlanWords[2] || w == PlanWords[3];
      assert w in PlanWords && Contains(t, w);
    }
  }

  /** The two classifiers agree on every text without "anxious" or
      "stressed". */
  lemma ClassifiersAgree(input: string)
    requires !Contains(Lower(input), "anxious") && !Contains(Lower(input), "stressed")
    ensures DetermineIntent(input) == AutoDetectIntent(input)
  {
    var t := Lower(input);
    if ContainsAny(t, ServerMoodWords) {
      var w :| w in ServerMoodWords && Contains(t, w);
      assert w in BrowserMoodWords;
    }
  }

  /** ... and disagree on every text whose only mood cue is one of those
      two words: the server logs a mood, the browser does not. */
  lemma ClassifiersDisagree(input: string)
    requires !CgmRule(Lower(input)) && !ContainsAny(Lower(input), BrowserMoodWords)
    requires Contains(Lower(input), "anxious") || Contains(Lower(input), "stressed")
    ensures AutoDetectIntent(input) == LogMood
    ensures DetermineIntent(input) != LogMood
  {
    var t := Lower(input);
    if Contains(t, "anxious") {
      assert "anxious" in ServerMoodWords;
    } else {
      assert "stressed" in ServerMoodWords;
    }
  }

  /** Classification ignores ASCII case. */
  lemma ClassifyIgnoresCase(input: string)
    ensures DetermineIntent(Lower(input)) == DetermineIntent(input)
    ensures AutoDetectIntent(Lower(input)) == AutoDetectIntent(input)
  {
    assert HasNoUpper(Lower(input));
    LowerOfLowerCase(Lower(input));
  }
}
