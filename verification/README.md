# aura-canvas-aid: the decision logic of a health dashboard, in Dafny

The dashboard is a React front end and a FastAPI agent server over SQLite.
Around its UI and its language-model calls sit a handful of small,
deterministic decisions. This project models them as pure Dafny functions
over strings, integers and an abstract database, and proves what they do:

- **Nutrition** — the fixed food table, the strict lookup
  (`getNutritionInfo`), the estimator that never fails
  (`estimateNutritionInfo`), and the name search (`searchNutrition`).
- **MealPlanner** — `createPersonalizedMealPlan`. It picks a template by
  diet, then applies the diabetes or hypertension override, then the
  glucose adjustment.
- **Intents** — the browser's `determineIntent` and the server's
  `auto_detect_intent`. Both are first-match keyword lists and differ only
  in their mood words.
- **Assistant** — the offline assistant's `getContextualResponse` and its
  `handleSend`.
- **ChatSession** and **UnifiedChat** — the message log of the two chat
  widgets, and the unified chatbot's send, which goes through the agent
  server.
- **Store** — the Users and Logs tables as a map and a sequence,
  `log_data_to_db`, and the two `get_user_data_from_db` views (the agents
  server reads `last_name`, the backend does not).
- **Service** — `/api/run_agent` in both server versions. It validates,
  guards, routes, extracts the CGM number and the mood word, and writes the
  log.
- **FoodLogger** — add, remove by index, and the constant summary.
- **Users** — the naive CSV parser of `loadUserData`, its cache, and
  `getUserById`.
- **Login** — the range check plus the CSV substring check of
  `handleLogin`.
- **DatabaseSeed** — `generate_user_data` and `populate_database`.
- **Text**, **Seqs** and **Wrappers** — the string primitives the code
  relies on, plus `filter`, `Option` and `Result`. The string primitives
  are JavaScript `trim`, `toLowerCase`, `includes`, `split` and `parseInt`,
  and Python's `re.search` for a digit run or a word list.

Each language-model agent is reduced to a tag. The reply records which
agent was asked, with which prompt. Network calls become parameters: the
CSV text the login page fetches and the agent server's answer are inputs,
and `None` stands for a failed call. Faker and `random` become a `Draw` per
record.

## Model

| member | source | states |
|---|---|---|
| Nutrition.Lookup | src/utils/nutritionData.ts:262 | a key resolves exactly when it is one of the table's keys, and then to the record stored under it |
| Nutrition.GetNutritionInfo | src/utils/nutritionData.ts:260-263 | the lookup is under the lower-cased, trimmed name; null exactly when that key is absent, otherwise the entry stored under it |
| Nutrition.LookupIgnoresCaseAndSpace | src/utils/nutritionData.ts:261 | the normalized name and a space-padded form of it resolve exactly like the original name |
| Nutrition.Categorize | src/utils/nutritionData.ts:282-328 | the category chosen is mentioned by the name (unless generic), and no category earlier in priority order is mentioned |
| Nutrition.EstimateNutritionInfo | src/utils/nutritionData.ts:266-337 | a table hit is returned as stored; a miss gets its category's profile, the name with its first character upper-cased, and the approximate serving size |
| Nutrition.EstimateIsTableOrProfile | src/utils/nutritionData.ts:266-337 | every estimate is a stored table record or carries one of the nine fixed profiles, and its fat is never negative |
| Nutrition.EarliestCategoryWins | src/utils/nutritionData.ts:282-328 | on a miss, the earliest mentioned category decides the macros, whatever later categories the name also mentions |
| Nutrition.ChickenRiceIsGrain | src/utils/nutritionData.ts:282-286 | "chicken rice" misses the table and gets the grain profile 45/4/1/200, named "Chicken rice" |
| Nutrition.SearchIn | src/utils/nutritionData.ts:342-344 | every kept entry is in the list and matches, and every matching entry of the list is kept |
| Nutrition.SearchInCount | src/utils/nutritionData.ts:342-344 | each matching entry is kept exactly as often as the list holds it, and no other entry is kept |
| Nutrition.SearchInConcat | src/utils/nutritionData.ts:342-344 | searching a concatenation is searching each part in turn, so the result keeps the order of the list |
| Nutrition.SearchInSingle | src/utils/nutritionData.ts:342-344 | a one-entry list is kept exactly when its entry matches |
| Nutrition.InfosMatchingConcat | src/utils/nutritionData.ts:341-344 | the display records of the hits keep the order of the list |
| Nutrition.SearchEntriesCount | src/utils/nutritionData.ts:340-345 | the search keeps each matching table entry exactly as often as the table holds it, and nothing else |
| Nutrition.InfosMatching | src/utils/nutritionData.ts:342-344 | one display record per kept entry; each matches, and every matching entry's record is among them |
| Nutrition.SearchEntries | src/utils/nutritionData.ts:340-345 | every kept entry's lower-cased name contains the normalized query, and every table entry whose name does is kept |
| Nutrition.SearchNutrition | src/utils/nutritionData.ts:340-345 | one result per kept entry; every result matches the normalized query, and every matching record is among them |
| Nutrition.SearchBlankReturnsAll | src/utils/nutritionData.ts:340-345 | an empty or blank query returns every record, in table order |
| MealPlanner.Template | src/components/dashboard/MealPlanner.tsx:38-104 | three meals with the fixed names and times, each slot filled with its diet's dish and macros |
| MealPlanner.DietOf | src/components/dashboard/MealPlanner.tsx:61-104 | each of the three templates is chosen exactly for its exact, case-sensitive spelling |
| MealPlanner.UnknownDietGetsDefault | src/components/dashboard/MealPlanner.tsx:95-103 | any other preference, "pescatarian" or a capitalised spelling among them, gets the default template |
| MealPlanner.ApplyConditions | src/components/dashboard/MealPlanner.tsx:107-122 | diabetes sets the fixed macros for each slot, whatever the diet; hypertension alone appends " (low sodium)" and keeps the macros; otherwise nothing changes |
| MealPlanner.DiabetesIgnoresDiet | src/components/dashboard/MealPlanner.tsx:107-116 | with diabetes, the macros of the plan do not depend on the diet |
| MealPlanner.LowerGlycemic | src/components/dashboard/MealPlanner.tsx:128-134 | a high reading leaves carbs at least 10 and calories at least 200, takes exactly 10 g and 50 kcal off when there is room, and otherwise sets carbs to exactly 10 g and calories to exactly 200 kcal; protein and fat are kept |
| MealPlanner.ApplyGlucose | src/components/dashboard/MealPlanner.tsx:125-140 | above 140 every meal is lowered; below 70 only breakfast gains 15 g carbs and 80 kcal; a reading in range or NaN changes nothing; names and times are kept |
| MealPlanner.ReadingsExclusive | src/components/dashboard/MealPlanner.tsx:125-140 | no reading is both high and low, and NaN is neither |
| MealPlanner.CreatePersonalizedMealPlan | src/components/dashboard/MealPlanner.tsx:37-143 | the plan is always three well-formed meals, and with a high reading every meal has carbs at least 10 and calories at least 200 |
| MealPlanner.DiabeticHighReadingPlan | src/components/dashboard/MealPlanner.tsx:107-134 | diabetes with a high reading gives 20/15/25 g carbs and 200/250/300 kcal, whatever the diet |
| MealPlanner.LowReadingTouchesBreakfastOnly | src/components/dashboard/MealPlanner.tsx:135-140 | a low reading leaves lunch and dinner exactly as the condition step left them, and raises breakfast by 15 g and 80 kcal |
| MealPlanner.GramsReadBack | src/components/dashboard/MealPlanner.tsx:131-138 | parsing a rendered gram amount such as "45g" gives back the number, so computing on numbers is computing on the source's strings |
| Intents.LabelRoundTrip | src/components/dashboard/UnifiedChatbot.tsx:95-121 | every intent's wire name reads back as that intent, so the five names are distinct |
| Intents.Classify | src/components/dashboard/UnifiedChatbot.tsx:95-121 | first match wins: each intent is returned exactly when its rule fires and no earlier rule does |
| Intents.DetermineIntent | src/components/dashboard/UnifiedChatbot.tsx:95-121 | over the lower-cased input with the browser's mood words: log_cgm exactly when the glucose rule fires, log_mood or log_food exactly when theirs is the first to fire, general_query exactly when no rule fires |
| Intents.AutoDetectIntent | agents/multiagent.py:396-412 | the same decision list with the server's eight mood words |
| Intents.MealPlanIsFood | src/components/dashboard/UnifiedChatbot.tsx:108-117 | text containing "meal plan" is never a plan request; without a glucose or mood cue it is a food log |
| Intents.PlanRuleRedundancy | agents/multiagent.py:409-410 | the "meal plan" alternative of the plan rule never decides anything that "plan" alone does not |
| Intents.ClassifiersAgree | agents/multiagent.py:396-412 | the browser and server classifiers agree on every text without "anxious" or "stressed" |
| Intents.ClassifiersDisagree | agents/multiagent.py:403-404 | they disagree when those words are the only mood cue: the server logs a mood, the browser does not |
| Intents.ClassifyIgnoresCase | src/components/dashboard/UnifiedChatbot.tsx:96 | both classifiers ignore ASCII case |
| UnifiedChat.GlucoseQueriesLogCgm | src/components/dashboard/UnifiedChatbot.tsx:98-100 | text with "glucose", "blood sugar" or a free-standing number is sent as log_cgm, whatever else it says |
| UnifiedChat.RequestFor | src/components/dashboard/UnifiedChatbot.tsx:64-71 | the request carries the user id, the trimmed text, and a label that reads back as the classified intent |
| UnifiedChat.HandleSend | src/components/dashboard/UnifiedChatbot.tsx:48-93 | a blank input or a send in flight changes nothing and sends nothing; otherwise exactly one request goes out, and the log gains the trimmed message and then exactly one reply (the agent's text or the apology), with loading off |
| UnifiedChat.Answer | src/components/dashboard/UnifiedChatbot.tsx:73-89 | the reply shows the agent's text, or the fixed apology when the call fails |
| ChatSession.Begin | src/components/dashboard/UnifiedChatbot.tsx:49-60 | the guard and the first half of a send: the trimmed message is appended, the box cleared, loading raised |
| ChatSession.Finish | src/components/dashboard/UnifiedChatbot.tsx:80-91 | the second half: exactly one reply is appended and loading ends |
| ChatSession.NoSendInFlight | src/components/dashboard/AIAssistant.tsx:43 | while a reply is awaited, a second send changes nothing |
| ChatSession.Step | src/components/dashboard/AIAssistant.tsx:42-71 | a user action never shrinks the log and keeps it in user/assistant pairs |
| ChatSession.RunKeepsLog | src/components/dashboard/AIAssistant.tsx:42-71 | under any sequence of edits and sends, the log is append-only and stays paired |
| Assistant.ClassifyGlucose | src/components/dashboard/AIAssistant.tsx:78-100 | elevated exactly above 140, low exactly below 70, healthy otherwise, including 70, 140 and NaN |
| Assistant.GetContextualResponse | src/components/dashboard/AIAssistant.tsx:73-160 | the topic is glucose words, then diet, then mood, then health, then the default, each exactly when it is the first to match; the glucose branch classifies the parsed reading; the condition branch shows conditions and limitations exactly when they are not "None"; each answer carries the profile values its text shows: the diet in the glucose answer unless the reading is low, the diet and raw reading text in the meal answer, the lower-cased mood, the conditions as stored and the lower-cased limitations, and the diet in the default answer |
| Assistant.BloodSugarRedundant | src/components/dashboard/AIAssistant.tsx:77 | the "blood sugar" test is dead: "sugar" alone decides the same |
| Assistant.GlucoseAgreesWithPlanner | src/components/dashboard/AIAssistant.tsx:78-100 | the assistant's elevated/low/healthy reading agrees with the meal planner's high/low/unchanged one |
| Assistant.ResponseDependsOnShownFields | src/components/dashboard/AIAssistant.tsx:73-160 | users who agree on the profile fields the answer shows get the same answer |
| Assistant.HandleSend | src/components/dashboard/AIAssistant.tsx:42-71 | a blank input or a send in flight changes nothing; otherwise the trimmed message and exactly one answer are appended, and loading ends |
| Store.LogData | agents/multiagent.py:158-202 | exactly one row is appended; only the logging user's row changes, `latest_cgm` for CGM with a number and `mood` for MOOD with a text; an integer SQLite cannot hold writes nothing |
| Store.Updated | agents/multiagent.py:178-195 | the CGM update sets only the reading, the MOOD update only the mood, and anything else keeps the row |
| Store.FoodLogKeepsUsers | backend/multiagent.py:92-119 | a FOOD log appends its row and leaves the Users table unchanged |
| Store.LogTouchesOneField | backend/multiagent.py:102-119 | apart from the field its type names, the user's row is unchanged |
| Store.GetUserData | agents/multiagent.py:112-156 | the dict exists exactly for a stored id, and it holds every selected column under its own name |
| Store.DictIsView | agents/multiagent.py:137-147 | building the dict by position from a SELECT over distinct columns gives the row read by column name |
| Store.ViewFields | backend/multiagent.py:63-72 | both servers' dicts carry the profile fields with the row's values |
| Store.ViewShape | backend/multiagent.py:52-72 | `last_name` is in the dict exactly on the agents server, and the dict has one key per selected column |
| Service.EffectiveIntent | agents/multiagent.py:307-312 | the intent is lower-cased; only on the agents server is "auto_detect" replaced by the detected intent |
| Service.CgmValue | agents/multiagent.py:341-344 | the reading is the first digit run, kept only when positive |
| Service.CgmValueOfStatedReading | agents/multiagent.py:341-344 | a message stating a positive reading after digit-free words yields that reading |
| Service.MoodMatch | agents/multiagent.py:380-381 | no match exactly when no mood word occurs in the lower-cased text; otherwise a mood word at the leftmost position where any occurs |
| Service.MoodOf | agents/multiagent.py:380-382 | the stored mood is the matched word capitalised, and there is none exactly when no mood word occurs |
| Service.MoodOfWord | agents/multiagent.py:380-382 | a message that is one mood word, in any case, stores that word capitalised |
| Service.Greet | agents/multiagent.py:315-328 | an unknown id gets the invalid-id reply; a known one asks the greeting agent with the stored first name and city, and returns the user data |
| Service.RecordCgm | agents/multiagent.py:336-351 | the store changes exactly when a positive, storable reading is found, and then holds the logged reading with refreshed user data; otherwise the data read before is returned |
| Service.RecordMood | agents/multiagent.py:376-387 | a mood is logged exactly when one is found, and the user data is read again either way |
| Service.RecordFood | agents/multiagent.py:367-373 | the raw text is appended as a FOOD row and Users is unchanged |
| Service.Serve | agents/multiagent.py:336-394 | unknown intent exactly when the name is none of the five; each intent reaches its agent; only the three log intents write, and at most one row |
| Service.Dispatch | agents/multiagent.py:314-394 | "validate" bypasses the guard; for anything else an unknown user gets "please validate" even for an unknown intent; a known user with an unknown intent gets "unknown intent" |
| Service.RunAgent | agents/multiagent.py:300-394 | the three fixed replies each occur exactly in their case; writes are limited to the log intents, keep the user ids, and append at most one row; returned data is the stored row as it is after the call |
| Service.AutoDetectRoutes | agents/multiagent.py:311-312 | "auto_detect" behaves exactly like a request under the detected intent's own name |
| Service.BackendAutoDetectIsUnknown | backend/multiagent.py:230-314 | the backend has no auto-detection: a known user's "auto_detect" gets "unknown intent" and writes nothing |
| Service.BrowserRequestsServed | src/components/dashboard/UnifiedChatbot.tsx:64-71 | every request the unified chatbot sends for a known user reaches an agent on either server |
| Service.VariantsWriteAlike | backend/multiagent.py:223-314 | apart from auto-detection, the two servers make the same writes |
| Service.CgmReadingStored | backend/multiagent.py:255-266 | a positive storable reading becomes the user's latest reading, one CGM row is appended, and the updated row is returned |
| Service.CgmOverflowWritesNothing | agents/multiagent.py:340-351 | a reading too large for SQLite writes nothing, and the agent still answers with the data as read |
| Service.CgmWithoutReadingWritesNothing | backend/multiagent.py:259-270 | a message without a positive number writes nothing |
| Service.MoodStored | backend/multiagent.py:296-307 | the capitalised leftmost mood word is stored and logged and returned with the fresh row; no mood word writes nothing |
| Service.FoodLogged | backend/multiagent.py:287-293 | a food message appends one FOOD row with its raw text and changes no user |
| Service.ServePlan | agents/multiagent.py:354-364 | a plan request from a known user goes to the meal-planner agent with the prompt built from the user's dict, and nothing is written |
| Service.PlanShowsProfile | agents/multiagent.py:354-364 | the plan prompt carries the stored conditions, diet, limitations and reading, never the "N/A" fallback, and nothing is written |
| Service.GeneralQueryReadsOnly | agents/multiagent.py:390-392 | a general query reaches the interrupt agent and writes nothing |
| FoodLogger.AddFood | src/components/dashboard/FoodLogger.tsx:20-25 | the empty text and a food already logged change nothing; any other food is appended and the input cleared |
| FoodLogger.RemoveAt | src/components/dashboard/FoodLogger.tsx:124 | exactly the element at the index is cut out and the rest keep their order; an index outside the list removes nothing |
| FoodLogger.RemoveKeepsDistinct | src/components/dashboard/FoodLogger.tsx:124 | removing keeps the list free of repeats and takes away exactly one occurrence of the removed food |
| FoodLogger.RunInvariant | src/components/dashboard/FoodLogger.tsx:13-25 | under any sequence of typing, adding, picking and removing, the list never holds a food twice and the summary stays 0/0/0/0 |
| FoodLogger.AddThenRemove | src/components/dashboard/FoodLogger.tsx:20-25 | adding a new food and then removing its row restores the list |
| Users.FieldAt | src/utils/userData.ts:31 | the trimmed value at the header's index, or "" when the line is too short |
| Users.ParseRecord | src/utils/userData.ts:28-32 | one key per trimmed header, holding the field of the last header with that name |
| Users.ParseCsv | src/utils/userData.ts:22-34 | one record per non-blank line after the header line, in order |
| Users.BlankLineAddsNoRecord | src/utils/userData.ts:25-27 | a trailing empty or whitespace-only line adds no record |
| Users.LineRoundTrip | src/utils/userData.ts:28-32 | a line of plain values, one per distinct header, maps each header to its value |
| Users.Load | src/utils/userData.ts:15-41 | a cached array is returned as is; a failed fetch gives an empty array and caches nothing; a successful fetch parses and caches |
| Users.LoadIsCached | src/utils/userData.ts:16 | once a load has succeeded, later loads return the same users whatever they fetch |
| Users.FindUser | src/utils/userData.ts:45 | the first record whose id equals the argument exactly, and none exactly when no record has it |
| Users.GetUserById | src/utils/userData.ts:43-46 | the user found is the first loaded user with the id; none exactly when no loaded user has it; the cache is what loading leaves |
| Login.HandleLogin | src/pages/Login.tsx:12-52 | the range error exactly when parseInt is outside 1001–1100; the raw input is stored exactly when it is in range and the CSV contains it followed by a comma; a failed fetch stores nothing |
| Login.TypedIdLogsIn | src/pages/Login.tsx:14-24 | every id in the range, typed in decimal and followed by anything that does not extend the number, is stored when the CSV lists it |
| DatabaseSeed.Record | data/create_database.py:33-60 | the record of turn `i` has id str(1000 + i), the drawn names, and each value from its list with the reading in 80..180 |
| DatabaseSeed.GenerateUserData | data/create_database.py:28-61 | exactly n records with ids "1001" to str(1000 + n) in order, pairwise distinct, all values from their lists, readings in 80..180; record k is the record of the k-th draw, so its names, city and list choices are that draw's |
| DatabaseSeed.InsertAll | data/create_database.py:117-121 | the insert succeeds exactly when the ids are distinct and every reading fits; then the table holds exactly the records, each under its id |
| DatabaseSeed.Populate | data/create_database.py:101-124 | after success, Users holds exactly the records and Logs is empty |
| DatabaseSeed.SeededMoodReadsBack | data/create_database.py:24 | every seeded mood, sent as a mood message, is stored unchanged |
| DatabaseSeed.SeededIdsLogIn | data/create_database.py:9-33 | with one hundred records, every seeded id passes the login range check |
| Text.Trim | src/utils/userData.ts:26 | no whitespace at either end; a string already so is kept; empty exactly for a blank string |
| Text.TrimIsInfix | src/utils/userData.ts:31 | what trimming removes is a blank prefix and a blank suffix |
| Text.TrimIdempotent | src/utils/userData.ts:31 | trimming twice is trimming once |
| Text.LowerTrimCommute | src/utils/nutritionData.ts:261 | lower-casing and trimming commute |
| Text.SplitJoin | src/utils/userData.ts:22-23 | splitting a joined line gives back its parts when none holds the separator |
| Text.Split | src/utils/userData.ts:28 | the parts hold no separator and join back to the text |
| Text.DecimalRoundTrip | data/create_database.py:33 | the digits of a number read back as that number |
| Text.DecimalInjective | data/create_database.py:33 | distinct numbers have distinct decimal spellings |
| Text.ReplaceFirst | src/components/dashboard/MealPlanner.tsx:108-114 | a text without the pattern is kept; otherwise the first occurrence, as `indexOf` finds it, is replaced and the text around it is kept |
| Text.ParseIntJs | src/pages/Login.tsx:14 | NaN exactly when no digit (or no hex digit after `0x`) follows the leading space and sign; a negative result needs a leading minus, and after a minus the result is never positive |
| Text.ParseIntOfDecimal | src/pages/Login.tsx:14 | parseInt reads a decimal number followed by a non-digit as that number |
| Text.FirstNumberOfDecimal | agents/multiagent.py:341-343 | the first digit run of text stating a number after digit-free words is that number |
| Seqs.Filter | src/utils/nutritionData.ts:342-344 | every kept element occurs in the input and passes the test, every passing element is kept, and nothing is added |
| Seqs.FilterCount | src/utils/nutritionData.ts:342-344 | each element that passes is kept exactly as often as it occurs, and no other element is kept |
| Seqs.FilterConcat | src/utils/nutritionData.ts:342-344 | filtering distributes over concatenation, so the order of the input is kept |

## Left out

- Rendering, tabs, scrolling and toasts, and the four constant widgets
  (stats cards, the glucose and mood charts, the health profile). None of
  them holds logic.
- The dashboard page's navigation and its local-storage gate.
- Network I/O: `fetch`, and the `runAgent` and `healthCheck` calls in
  `api.ts`. Their results are parameters.
- The language-model agents. An agent reply is a tag naming the agent and
  its prompt, and the response templates are tags carrying the values they
  interpolate, not the full strings.
- Faker and `random`. Each record's outcome is a `Draw` parameter, and the
  weights of the condition choice are not modelled.
- `setTimeout` delays, `Date.now()` ids and timestamps, and the Logs
  table's id and timestamp columns.
- Unicode. Case mapping and `\d` / `\w` cover ASCII only. JavaScript's
  whitespace set for `trim` is modelled in full.
- SQLite connections, the agents server's search over database paths, its
  creation of a missing database, and error printing. The database is a
  map plus a sequence.
- FastAPI, CORS and the server start script, and the two live-HTTP smoke
  test scripts.
- The JavaScript prototype keys of the food table (for example
  `"constructor"`). The table is a finite list of entries.
- Users.ParseRecord: a record is a map, so a CSV header named
  `__proto__` becomes a key. In the browser that assignment goes to the
  prototype setter on the plain object and creates no own key.
- Nutrition.SearchIn, Nutrition.SearchEntries, Nutrition.InfosMatching:
  their contracts state membership and count, not order. The order of
  the list is stated by Nutrition.SearchInConcat, Nutrition.SearchInSingle
  and Nutrition.InfosMatchingConcat, which are lemmas because they relate
  several calls.
- FoodLogger.RunInvariant: the summary follows the code, a constant
  0/0/0/0 that no add or remove changes. It is not the sum of the logged
  foods.
- Store.LogData: an integer outside SQLite's 64-bit range raises
  `OverflowError` while the row is bound. That is not an `sqlite3.Error`,
  so nothing is committed and no row is appended. The promise that every
  call appends a row holds only for values SQLite can store.
- Nutrition.SearchNutrition: states which records are returned and, with
  `Nutrition.SearchEntriesCount`, how many. It does not state their order.
  The order follows from `Nutrition.SearchIn` being `Seqs.Filter` and from
  `Seqs.FilterConcat`.
- Seqs.Filter: its own contract states membership only. Multiplicities
  are stated by `Seqs.FilterCount` and order by `Seqs.FilterConcat`. They
  are separate lemmas because a count clause on `Filter` would be
  instantiated at the food table in every proof that searches it.
- Service.RunAgent: the agent's answer text and the exact reply strings
  are tags, so nothing is stated about their wording. The agents always
  answer in the model. In the servers every agent call comes before the
  database write and outside any `try`, so a failing agent call ends the
  request with HTTP 500 and nothing is written. The browser then shows
  its apology. The lemmas that a reading, a mood or a food is stored
  (Service.CgmReadingStored, Service.MoodStored, Service.FoodLogged) hold
  only when the agent call succeeds.
- DatabaseSeed.Populate: a failed insert aborts the script. The model
  returns the failure and leaves open what the uncommitted deletes would
  have done.
