/** The offline AI assistant: a keyword branch selector over the lower-cased
    query whose answer depends only on the query and the user's profile.
    Answers are modelled as tags carrying exactly the values the text
    interpolates: the low-glucose text, for one, shows no diet. */
module Assistant {
  import opened Wrappers
  import opened Text
  import opened Users
  import opened ChatSession
  import MealPlanner

  datatype GlucoseStatus = Elevated | Low | HealthyRange

  datatype Response =
    | GlucoseAdvice(status: GlucoseStatus, reading: Option<int>, dietShown: Option<string>)
    | MealAdvice(diet: string, latestCgm: string)
    | MoodAdvice(mood: string)
    | ConditionAdvice(conditions: Option<string>, limitations: Option<string>)
    | DefaultHelp(diet: string)

  const GlucoseWords: seq<string> := ["glucose", "sugar", "blood sugar"]
  const DietWords: seq<string> := ["meal", "food", "eat", "diet"]
  const MoodWords: seq<string> := ["mood", "stress", "anxious", "feeling"]
  const HealthWords: seq<string> := ["condition", "health", "medical"]

  /** The status of `parseInt(latest_cgm)`: above 140 elevated, below 70
      low, anything else, including 70, 140 and `NaN`, in the healthy range. */
  function ClassifyGlucose(reading: Option<int>): (s: GlucoseStatus)
    ensures s == Elevated <==> reading.Some? && reading.value > 140
    ensures s == Low <==> reading.Some? && reading.value < 70
  {
    match reading
    case None => HealthyRange
    case Some(g) => if g > 140 then Elevated else if g < 70 then Low else HealthyRange
  }

  /** The profile value shown unless it is the literal "None". */
  function UnlessNone(value: string): (r: Option<string>)
    ensures r.Some? <==> value != "None"
    ensures r.Some? ==> r.value == value
  {
    if value != "None" then Some(value) else None
  }

  /** `getContextualResponse`: glucose words, then diet words, then mood
      words, then health words, then the default; the first topic the
      lower-cased query mentions decides the answer. */
  function GetContextualResponse(query: string, user: UserData): (r: Response)
    ensures r.GlucoseAdvice? <==> ContainsAny(Lower(query), GlucoseWords)
    ensures r.MealAdvice? <==> !ContainsAny(Lower(query), GlucoseWords) && ContainsAny(Lower(query), DietWords)
    ensures r.MoodAdvice? <==>
      !ContainsAny(Lower(query), GlucoseWords) && !ContainsAny(Lower(query), DietWords) && ContainsAny(Lower(query), MoodWords)
    ensures r.ConditionAdvice? <==>
      && !ContainsAny(Lower(query), GlucoseWords) && !ContainsAny(Lower(query), DietWords)
      && !ContainsAny(Lower(query), MoodWords) && ContainsAny(Lower(query), HealthWords)
    ensures r.GlucoseAdvice? ==> r.reading == ParseIntJs(user.latestCgm) && r.status == ClassifyGlucose(r.reading)
    ensures r.GlucoseAdvice? ==> (r.dietShown.Some? <==> r.status != Low) && (r.dietShown.Some? ==> r.dietShown.value == user.dietaryPreference)
    ensures r.MealAdvice? ==> r.diet == user.dietaryPreference && r.latestCgm == user.latestCgm
    ensures r.MoodAdvice? ==> r.mood == Lower(user.mood)
    ensures r.ConditionAdvice? && r.conditions.Some? ==> r.conditions.value == user.medicalConditions
    ensures r.ConditionAdvice? && r.limitations.Some? ==> r.limitations.value == Lower(user.physicalLimitations)
    ensures r.DefaultHelp? ==> r.diet == user.dietaryPreference
    ensures r.ConditionAdvice? ==>
      && (r.conditions.Some? <==> user.medicalConditions != "None")
      && (r.limitations.Some? <==> user.physicalLimitations != "None")
  {
    var q := Lower(query);
    if ContainsAny(q, GlucoseWords) then
      var g := ParseIntJs(user.latestCgm);
      var status := ClassifyGlucose(g);
      GlucoseAdvice(status, g, if status == Low then None else Some(user.dietaryPreference))
    else if ContainsAny(q, DietWords) then MealAdvice(user.dietaryPreference, user.latestCgm)
    else if ContainsAny(q, MoodWords) then MoodAdvice(Lower(user.mood))
    else if ContainsAny(q, HealthWords) then
      var lim := UnlessNone(user.physicalLimitations);
      ConditionAdvice(UnlessNone(user.medicalConditions),
                      if lim.Some? then Some(Lower(lim.value)) else None)
    else DefaultHelp(user.dietaryPreference)
  }

  /** The "blood sugar" alternative is dead: "sugar" alone decides the same. */
  lemma BloodSugarRedundant(t: string)
    ensures ContainsAny(t, GlucoseWords) <==> Contains(t, "glucose") || Contains(t, "sugar")
  {
    if Contains(t, "blood sugar") {
      var i :| 0 <= i <= |t| && OccursAt(t, "blood sugar", i);
      assert t[i + 6..][..5] == "sugar";
      assert OccursAt(t, "sugar", i + 6);
    }
    if Contains(t, "glucose") {
      assert "glucose" in GlucoseWords;
    } else if Contains(t, "sugar") {
      assert "sugar" in GlucoseWords;
    }
  }

  /** The assistant and the meal planner read the glucose text the same
      way: elevated exactly when the planner lowers every meal, low exactly
      when it adds to breakfast, healthy exactly when it changes nothing. */
  lemma GlucoseAgreesWithPlanner(latestCgm: string)
    ensures ClassifyGlucose(ParseIntJs(latestCgm)) == Elevated <==> MealPlanner.HighReading(latestCgm)
    ensures ClassifyGlucose(ParseIntJs(latestCgm)) == Low <==> MealPlanner.LowReading(latestCgm)
    ensures ClassifyGlucose(ParseIntJs(latestCgm)) == HealthyRange <==>
      !MealPlanner.HighReading(latestCgm) && !MealPlanner.LowReading(latestCgm)
  {
  }

  /** The answer looks at nothing of the user but the fields its branch
      shows: users agreeing on those fields get the same answer. */
  lemma ResponseDependsOnShownFields(query: string, u1: UserData, u2: UserData)
    requires u1.dietaryPreference == u2.dietaryPreference && u1.latestCgm == u2.latestCgm
    requires u1.mood == u2.mood && u1.medicalConditions == u2.medicalConditions
    requires u1.physicalLimitations == u2.physicalLimitations
    ensures GetContextualResponse(query, u1) == GetContextualResponse(query, u2)
  {
  }

  /** `handleSend` of the assistant widget: the reply is computed locally,
      so the send always completes with exactly one answer. */
  function HandleSend(c: Chat<Response>, user: UserData): (r: Chat<Response>)
    ensures IsBlank(c.input) || c.loading ==> r == c
    ensures !IsBlank(c.input) && !c.loading ==>
      && r.messages == c.messages + [UserMsg(Trim(c.input)), AssistantMsg(GetContextualResponse(Trim(c.input), user))]
      && !r.loading && r.input == ""
  {
    Send(c, q => GetContextualResponse(q, user))
  }
}
