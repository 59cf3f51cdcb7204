/** The agent server's `/api/run_agent` endpoint, in both of its versions:
    validate the user, guard every other intent behind a known id, then
    route to one agent and write the log the intent calls for. The language
    model behind each agent is not modelled: a reply records which agent
    was asked with which prompt, and the user data returned beside it. */
module Service {
  import opened Wrappers
  import opened Text
  import opened Intents
  import opened Store
  import UnifiedChat

  datatype Agent = GreetingAgent | MoodTrackerAgent | CgmAgent | FoodIntakeAgent | MealPlannerAgent | InterruptAgent

  /** What an agent is asked: the user's own text, or a prompt the server
      builds from the stored profile. */
  datatype Prompt =
    | UserText(message: string)
    | GreetingPrompt(userId: string, firstName: Value, city: Value)
    | PlanPrompt(userId: string, conditions: Value, diet: Value, limitations: Value, cgm: Value)

  /** The response body: an agent's answer with the user data, or one of
      the three fixed texts. */
  datatype Reply =
    | AgentReply(agent: Agent, prompt: Prompt, userData: UserDict)
    | InvalidId
    | PleaseValidate
    | UnknownIntent

  /** The agent each chatbot intent is routed to. */
  function AgentFor(i: Intent): Agent {
    match i
    case LogCgm => CgmAgent
    case LogMood => MoodTrackerAgent
    case LogFood => FoodIntakeAgent
    case GeneratePlan => MealPlannerAgent
    case GeneralQuery => InterruptAgent
  }

  /** The intent names the endpoint answers. */
  predicate Handled(intent: string) {
    intent == "validate" || FromLabel(intent).Some?
  }

  /** The intent actually served: the request's lower-cased, and on the
      agents server `auto_detect` replaced by the detected one. */
  function EffectiveIntent(variant: Variant, intent: string, message: string): (r: string)
    ensures variant == BackendServer || Lower(intent) != "auto_detect" ==> r == Lower(intent)
    ensures variant == AgentsServer && Lower(intent) == "auto_detect" ==> FromLabel(r) == Some(AutoDetectIntent(message))
  {
    var i := Lower(intent);
    if variant == AgentsServer && i == "auto_detect" then
      assert FromLabel(Label(AutoDetectIntent(message))) == Some(AutoDetectIntent(message)) by {
        LabelRoundTrip(AutoDetectIntent(message));
      }
      Label(AutoDetectIntent(message))
    else i
  }

  /** The reading a CGM message logs: the first run of digits, when it
      is positive. */
  function CgmValue(message: string): (r: Option<nat>)
    ensures r.Some? ==> r.value > 0 && FirstNumber(message) == r
    ensures r.None? <==> FirstNumber(message) == None || FirstNumber(message) == Some(0)
  {
    match FirstNumber(message)
    case Some(v) => if v > 0 then Some(v) else None
    case None => None
  }

  /** A message stating a positive reading after digit-free words logs that reading. */
  lemma CgmValueOfStatedReading(prefix: string, n: nat, suffix: string)
    requires forall i :: 0 <= i < |prefix| ==> !IsDigit(prefix[i])
    requires suffix == [] || !IsDigit(suffix[0])
    requires n > 0
    ensures CgmValue(prefix + NatToDecimal(n) + suffix) == Some(n)
  {
    FirstNumberOfDecimal(prefix, n, suffix);
  }

  /** The mood alternation, in the order the pattern lists it. */
  const MoodPattern: seq<string> := ["happy", "sad", "excited", "tired", "anxious", "stressed", "neutral"]

  /** The search of the mood pattern in the lower-cased message: the
      leftmost position where a mood word starts, and the word found there. */
  function MoodMatch(message: string): (r: Option<(nat, string)>)
    ensures r.None? <==> !ContainsAny(Lower(message), MoodPattern)
    ensures r.Some? ==> r.value.1 in MoodPattern && OccursAt(Lower(message), r.value.1, r.value.0)
    ensures r.Some? ==> forall q, w :: 0 <= q < r.value.0 && w in MoodPattern ==> !OccursAt(Lower(message), w, q)
  {
    var t := Lower(message);
    var m := FirstWordFrom(t, 0, MoodPattern);
    if m.Some? then
      assert OccursAt(t, m.value.1, m.value.0);
      m
    else
      assert !ContainsAny(t, MoodPattern) by {
        forall w | w in MoodPattern
          ensures !Contains(t, w)
        {
          forall q | 0 <= q <= |t|
            ensures !OccursAt(t, w, q)
          {
          }
        }
      }
      m
  }

  /** The mood stored for a message: the matched word, capitalised. */
  function MoodOf(message: string): (r: Option<string>)
    ensures r.None? <==> !ContainsAny(Lower(message), MoodPattern)
    ensures r.Some? ==> r.value == Capitalize(MoodMatch(message).value.1)
  {
    match MoodMatch(message)
    case None => None
    case Some((_, w)) => Some(Capitalize(w))
  }

  /** A message that is exactly one mood word, in any case, stores that
      word capitalised, provided no other word of the pattern is a prefix of it. */
  lemma MoodOfWord(message: string, i: nat)
    requires i < |MoodPattern| && Lower(message) == MoodPattern[i]
    requires forall w :: w in MoodPattern && w <= MoodPattern[i] ==> w == MoodPattern[i]
    ensures MoodOf(message) == Some(Capitalize(MoodPattern[i]))
  {
    var t := MoodPattern[i];
    assert OccursAt(t, t, 0);
    var r := MoodMatch(message);
    assert r.Some? && r.value.0 == 0;
  }

  /** `user_data.get(key, 'N/A')`. */
  function Get(d: UserDict, key: string): Value {
    if key in d then d[key] else Text("N/A")
  }

  /** `validate`: the greeting agent is asked with the stored first name
      and city; an unknown id gets the invalid-id text. */
  function Greet(db: Db, variant: Variant, userId: string): (r: Reply)
    ensures r == InvalidId <==> userId !in db.users
    ensures r.AgentReply? ==> r.agent == GreetingAgent && Some(r.userData) == GetUserData(db, userId, variant)
    ensures r.AgentReply? ==>
      r.prompt == GreetingPrompt(userId, Text(db.users[userId].firstName), Text(db.users[userId].city))
  {
    match GetUserData(db, userId, variant)
    case None => InvalidId
    case Some(d) =>
      ViewFields(db.users[userId], variant);
      AgentReply(GreetingAgent, GreetingPrompt(userId, d["first_name"], d["city"]), d)
  }

  /** The meal-plan prompt, built from the profile the server holds. */
  function PlanPromptFor(userId: string, d: UserDict): Prompt {
    PlanPrompt(userId, Get(d, "medical_conditions"), Get(d, "dietary_preference"),
               Get(d, "physical_limitations"), Get(d, "latest_cgm"))
  }

  /** `log_cgm` for a known user: a positive reading is logged and the
      refreshed user data returned; no reading, or one SQLite cannot
      store, writes nothing and returns the data as read before. */
  function RecordCgm(db: Db, variant: Variant, userId: string, d: UserDict, message: string): (r: (Reply, Db))
    requires userId in db.users
    ensures r.0.AgentReply? && r.0.agent == CgmAgent && r.0.prompt == UserText(message)
    ensures r.1 != db <==> CgmValue(message).Some? && Fits(CgmValue(message))
    ensures r.1 != db ==> r.1 == LogData(db, userId, CGM, None, CgmValue(message)).value
    ensures r.1 != db ==> Some(r.0.userData) == GetUserData(r.1, userId, variant)
    ensures r.1 == db ==> r.0.userData == d
  {
    var reply := AgentReply(CgmAgent, UserText(message), d);
    match CgmValue(message)
    case None => (reply, db)
    case Some(v) =>
      match LogData(db, userId, CGM, None, Some(v))
      case Failure(_) => (reply, db)
      case Success(db') =>
        assert db'.logs != db.logs;
        (reply.(userData := GetUserData(db', userId, variant).value), db')
  }

  /** `log_mood` for a known user: a mood word, when one occurs, is stored
      capitalised; the user data is read again either way. */
  function RecordMood(db: Db, variant: Variant, userId: string, message: string): (r: (Reply, Db))
    requires userId in db.users
    ensures r.0.AgentReply? && r.0.agent == MoodTrackerAgent && r.0.prompt == UserText(message)
    ensures MoodOf(message).None? ==> r.1 == db
    ensures MoodOf(message).Some? ==> r.1 == LogData(db, userId, MOOD, MoodOf(message), None).value
    ensures Some(r.0.userData) == GetUserData(r.1, userId, variant)
  {
    var db' := match MoodOf(message)
      case None => db
      case Some(m) => LogData(db, userId, MOOD, Some(m), None).value;
    (AgentReply(MoodTrackerAgent, UserText(message), GetUserData(db', userId, variant).value), db')
  }

  /** `log_food`: the raw text is logged and the Users table is left as it
      was, so the user data read before the write is still current. */
  function RecordFood(db: Db, userId: string, d: UserDict, message: string): (r: (Reply, Db))
    ensures r.0 == AgentReply(FoodIntakeAgent, UserText(message), d)
    ensures r.1 == Db(db.users, db.logs + [LogRow(userId, FOOD, Some(message), None)])
  {
    FoodLogKeepsUsers(db, userId, message);
    (AgentReply(FoodIntakeAgent, UserText(message), d), LogData(db, userId, FOOD, Some(message), None).value)
  }

  /** The intents a known user can ask for, each routed to its agent. */
  function Serve(db: Db, variant: Variant, userId: string, d: UserDict, it: string, message: string): (r: (Reply, Db))
    requires userId in db.users && GetUserData(db, userId, variant) == Some(d)
    ensures r.0 == UnknownIntent <==> FromLabel(it).None?
    ensures r.0.AgentReply? ==> r.0.agent == AgentFor(FromLabel(it).value)
    ensures r.1 != db ==> FromLabel(it).Some? && FromLabel(it).value in {LogCgm, LogMood, LogFood}
    ensures r.1.users.Keys == db.users.Keys
    ensures db.logs <= r.1.logs && |r.1.logs| <= |db.logs| + 1
    ensures r.0.AgentReply? ==> GetUserData(r.1, userId, variant) == Some(r.0.userData)
  {
    match FromLabel(it)
    case None => (UnknownIntent, db)
    case Some(LogCgm) => RecordCgm(db, variant, userId, d, message)
    case Some(GeneratePlan) => (AgentReply(MealPlannerAgent, PlanPromptFor(userId, d), d), db)
    case Some(LogFood) => RecordFood(db, userId, d, message)
    case Some(LogMood) => RecordMood(db, variant, userId, message)
    case Some(GeneralQuery) => (AgentReply(InterruptAgent, UserText(message), d), db)
  }

  /** `run_agent` once the intent is settled. Apart from `validate`, an
      unknown user is told to validate first, whatever the intent. */
  function Dispatch(db: Db, variant: Variant, userId: string, it: string, message: string): (r: (Reply, Db))
    ensures r.0 == InvalidId <==> it == "validate" && userId !in db.users
    ensures r.0 == PleaseValidate <==> it != "validate" && userId !in db.users
    ensures r.0 == UnknownIntent <==> userId in db.users && !Handled(it)
    ensures r.0.AgentReply? ==> r.0.agent == if it == "validate" then GreetingAgent else AgentFor(FromLabel(it).value)
    ensures r.1 != db ==> userId in db.users && FromLabel(it).Some? && FromLabel(it).value in {LogCgm, LogMood, LogFood}
    ensures r.1.users.Keys == db.users.Keys
    ensures db.logs <= r.1.logs && |r.1.logs| <= |db.logs| + 1
    ensures r.0.AgentReply? ==> GetUserData(r.1, userId, variant) == Some(r.0.userData)
  {
    if it == "validate" then (Greet(db, variant, userId), db)
    else
      match GetUserData(db, userId, variant)
      case None => (PleaseValidate, db)
      case Some(d) => Serve(db, variant, userId, d, it, message)
  }

  /** `run_agent`: the request's intent, lower-cased and on the agents
      server auto-detected, decides the branch. */
  function RunAgent(db: Db, variant: Variant, userId: string, intent: string, message: string): (r: (Reply, Db))
    ensures var it := EffectiveIntent(variant, intent, message);
      && (r.0 == InvalidId <==> it == "validate" && userId !in db.users)
      && (r.0 == PleaseValidate <==> it != "validate" && userId !in db.users)
      && (r.0 == UnknownIntent <==> userId in db.users && !Handled(it))
      && (r.1 != db ==> userId in db.users && FromLabel(it).Some? && FromLabel(it).value in {LogCgm, LogMood, LogFood})
    ensures r.1.users.Keys == db.users.Keys
    ensures db.logs <= r.1.logs && |r.1.logs| <= |db.logs| + 1
    ensures r.0.AgentReply? ==> GetUserData(r.1, userId, variant) == Some(r.0.userData)
  {
    Dispatch(db, variant, userId, EffectiveIntent(variant, intent, message), message)
  }

  /** Intent names are matched after lower-casing, and the wire labels are
      already lower case. */
  lemma LabelIsLowerCase(i: Intent)
    ensures Lower(Label(i)) == Label(i)
  {
    LowerOfLowerCase(Label(i));
  }

  /** On the agents server `auto_detect` behaves exactly as a request
      under the detected intent's own name. */
  lemma AutoDetectRoutes(db: Db, userId: string, intent: string, message: string)
    requires Lower(intent) == "auto_detect"
    ensures RunAgent(db, AgentsServer, userId, intent, message)
         == RunAgent(db, AgentsServer, userId, Label(AutoDetectIntent(message)), message)
  {
    var i := AutoDetectIntent(message);
    LabelIsLowerCase(i);
    LabelRoundTrip(i);
    assert Label(i) != "auto_detect" by {
      assert FromLabel("auto_detect") == None;
    }
  }

  /** The backend has no auto-detection: `auto_detect` is an unknown
      intent for a known user and writes nothing. */
  lemma BackendAutoDetectIsUnknown(db: Db, userId: string, intent: string, message: string)
    requires userId in db.users && Lower(intent) == "auto_detect"
    ensures RunAgent(db, BackendServer, userId, intent, message) == (UnknownIntent, db)
  {
    assert FromLabel("auto_detect") == None;
  }

  /** Every request the unified chatbot sends for a known user reaches an
      agent on either server. */
  lemma BrowserRequestsServed(db: Db, variant: Variant, userId: string, query: string)
    requires userId in db.users
    ensures RunAgent(db, variant, userId, UnifiedChat.RequestFor(userId, query).intent, query).0.AgentReply?
  {
    var i := DetermineIntent(query);
    LabelIsLowerCase(i);
    LabelRoundTrip(i);
    assert Label(i) != "auto_detect" by {
      assert FromLabel("auto_detect") == None;
    }
    assert Label(i) != "validate" by {
      assert FromLabel("validate") == None;
    }
  }

  /** Apart from auto-detection, the two servers write the same database:
      their views differ only in the `last_name` key. */
  lemma VariantsWriteAlike(db: Db, userId: string, intent: string, message: string)
    requires Lower(intent) != "auto_detect"
    ensures RunAgent(db, AgentsServer, userId, intent, message).1 == RunAgent(db, BackendServer, userId, intent, message).1
  {
  }

  /** For a known user and any intent but `validate` and `auto_detect`,
      `run_agent` is the router over the lower-cased intent. */
  lemma RunAgentServes(db: Db, variant: Variant, userId: string, intent: string, message: string)
    requires userId in db.users && Lower(intent) != "auto_detect" && Lower(intent) != "validate"
    ensures RunAgent(db, variant, userId, intent, message)
         == Serve(db, variant, userId, View(db.users[userId], variant), Lower(intent), message)
  {
  }

  /** An intent the router knows is neither `validate` nor `auto_detect`. */
  lemma RoutedIntent(db: Db, variant: Variant, userId: string, intent: string, message: string, i: Intent)
    requires userId in db.users && Lower(intent) == Label(i)
    ensures FromLabel(Lower(intent)) == Some(i)
    ensures RunAgent(db, variant, userId, intent, message)
         == Serve(db, variant, userId, View(db.users[userId], variant), Lower(intent), message)
  {
    LabelRoundTrip(i);
    assert Lower(intent) != "auto_detect" by {
      assert FromLabel("auto_detect") == None;
    }
    assert Lower(intent) != "validate" by {
      assert FromLabel("validate") == None;
    }
    RunAgentServes(db, variant, userId, intent, message);
  }

  /** The CGM branch with a reading SQLite can hold. */
  lemma RecordCgmStores(db: Db, variant: Variant, userId: string, message: string, v: nat)
    requires userId in db.users && CgmValue(message) == Some(v) && v <= MaxSqliteInt
    ensures var row := db.users[userId].(latestCgm := v);
      RecordCgm(db, variant, userId, View(db.users[userId], variant), message)
      == (AgentReply(CgmAgent, UserText(message), View(row, variant)),
          Db(db.users[userId := row], db.logs + [LogRow(userId, CGM, None, Some(v))]))
  {
    var r := RecordCgm(db, variant, userId, View(db.users[userId], variant), message);
    assert r.1 != db;
  }

  /** A positive reading SQLite can hold is stored as the user's latest
      reading, and the user data returned is the updated row. */
  lemma CgmReadingStored(db: Db, variant: Variant, userId: string, intent: string, message: string, v: nat)
    requires userId in db.users && Lower(intent) == "log_cgm"
    requires CgmValue(message) == Some(v) && v <= MaxSqliteInt
    ensures var r := RunAgent(db, variant, userId, intent, message);
      var row := db.users[userId].(latestCgm := v);
      && r.1.users == db.users[userId := row]
      && r.1.logs == db.logs + [LogRow(userId, CGM, None, Some(v))]
      && r.0 == AgentReply(CgmAgent, UserText(message), View(row, variant))
  {
    RoutedIntent(db, variant, userId, intent, message, LogCgm);
    RecordCgmStores(db, variant, userId, message, v);
  }

  /** A reading too large for SQLite aborts the write before anything is
      stored; the agent still answers, with the data as it was. */
  lemma CgmOverflowWritesNothing(db: Db, variant: Variant, userId: string, intent: string, message: string)
    requires userId in db.users && Lower(intent) == "log_cgm"
    requires CgmValue(message).Some? && CgmValue(message).value > MaxSqliteInt
    ensures RunAgent(db, variant, userId, intent, message)
         == (AgentReply(CgmAgent, UserText(message), View(db.users[userId], variant)), db)
  {
    RoutedIntent(db, variant, userId, intent, message, LogCgm);
  }

  /** A message without a positive number answers without writing. */
  lemma CgmWithoutReadingWritesNothing(db: Db, variant: Variant, userId: string, intent: string, message: string)
    requires userId in db.users && Lower(intent) == "log_cgm" && CgmValue(message).None?
    ensures RunAgent(db, variant, userId, intent, message)
         == (AgentReply(CgmAgent, UserText(message), View(db.users[userId], variant)), db)
  {
    RoutedIntent(db, variant, userId, intent, message, LogCgm);
  }

  /** The mood branch, as the rows it leaves. */
  lemma RecordMoodStores(db: Db, variant: Variant, userId: string, message: string)
    requires userId in db.users
    ensures var r := RecordMood(db, variant, userId, message);
      && (MoodOf(message).None? ==> r.1 == db)
      && (MoodOf(message).Some? ==>
            && r.1.users == db.users[userId := db.users[userId].(mood := MoodOf(message).value)]
            && r.1.logs == db.logs + [LogRow(userId, MOOD, MoodOf(message), None)])
      && userId in r.1.users
      && r.0 == AgentReply(MoodTrackerAgent, UserText(message), View(r.1.users[userId], variant))
  {
  }

  /** A mood message stores the leftmost mood word, capitalised, and the
      user data returned is the row as stored afterwards; a message naming
      no mood writes nothing. */
  lemma MoodStored(db: Db, variant: Variant, userId: string, intent: string, message: string)
    requires userId in db.users && Lower(intent) == "log_mood"
    ensures var r := RunAgent(db, variant, userId, intent, message);
      && (MoodOf(message).None? ==> r.1 == db)
      && (MoodOf(message).Some? ==>
            && r.1.users == db.users[userId := db.users[userId].(mood := MoodOf(message).value)]
            && r.1.logs == db.logs + [LogRow(userId, MOOD, MoodOf(message), None)])
      && userId in r.1.users
      && r.0 == AgentReply(MoodTrackerAgent, UserText(message), View(r.1.users[userId], variant))
  {
    RoutedIntent(db, variant, userId, intent, message, LogMood);
    RecordMoodStores(db, variant, userId, message);
  }

  /** A food message appends its raw text as a FOOD log and changes no user. */
  lemma FoodLogged(db: Db, variant: Variant, userId: string, intent: string, message: string)
    requires userId in db.users && Lower(intent) == "log_food"
    ensures RunAgent(db, variant, userId, intent, message)
         == (AgentReply(FoodIntakeAgent, UserText(message), View(db.users[userId], variant)),
             Db(db.users, db.logs + [LogRow(userId, FOOD, Some(message), None)]))
  {
    RoutedIntent(db, variant, userId, intent, message, LogFood);
  }

  /** The prompt of the plan branch holds the stored profile. */
  lemma PlanPromptOfRow(userId: string, row: UserRow, variant: Variant)
    ensures PlanPromptFor(userId, View(row, variant))
         == PlanPrompt(userId, Text(row.medicalConditions), Text(row.dietaryPreference),
                       Text(row.physicalLimitations), Int(row.latestCgm))
  {
    ViewFields(row, variant);
  }

  /** The plan prompt carries the stored profile: no field falls back to
      `N/A` for a known user. */
  lemma PlanShowsProfile(db: Db, variant: Variant, userId: string, intent: string, message: string)
    requires userId in db.users && Lower(intent) == "generate_plan"
    ensures var row := db.users[userId];
      RunAgent(db, variant, userId, intent, message)
      == (AgentReply(MealPlannerAgent,
                     PlanPrompt(userId, Text(row.medicalConditions), Text(row.dietaryPreference),
                                Text(row.physicalLimitations), Int(row.latestCgm)),
                     View(row, variant)), db)
  {
    RoutedIntent(db, variant, userId, intent, message, GeneratePlan);
    ServePlan(db, variant, userId, View(db.users[userId], variant), Lower(intent), message);
    PlanPromptOfRow(userId, db.users[userId], variant);
  }

  /** A plan request is answered by the meal-planner agent from the user's
      dict and writes nothing. */
  lemma ServePlan(db: Db, variant: Variant, userId: string, d: UserDict, it: string, message: string)
    requires userId in db.users && GetUserData(db, userId, variant) == Some(d)
    requires FromLabel(it) == Some(GeneratePlan)
    ensures Serve(db, variant, userId, d, it, message) == (AgentReply(MealPlannerAgent, PlanPromptFor(userId, d), d), db)
  {
    var i := FromLabel(it);
    assert i == Some(GeneratePlan);
  }

  /** A general query goes to the interrupt agent and writes nothing. */
  lemma GeneralQueryReadsOnly(db: Db, variant: Variant, userId: string, intent: string, message: string)
    requires userId in db.users && Lower(intent) == "general_query"
    ensures RunAgent(db, variant, userId, intent, message)
         == (AgentReply(InterruptAgent, UserText(message), View(db.users[userId], variant)), db)
  {
    RoutedIntent(db, variant, userId, intent, message, GeneralQuery);
  }
}
