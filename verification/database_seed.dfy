/** The seeding script: one hundred synthetic users with sequential ids,
    profile values drawn from fixed lists and a starting reading in the
    normal range, written into emptied tables. Faker's names and cities and
    the random choices come in as a `Draw` per record. */
module DatabaseSeed {
  import opened Wrappers
  import opened Text
  import opened Store
  import Login
  import Service

  const NumRecords: nat := 100

  const DietChoices: seq<string> := ["vegetarian", "non-vegetarian", "vegan", "pescatarian"]
  const MedicalConditions: seq<string> := ["None", "Type 2 Diabetes", "High Cholesterol", "Hypertension",
                                           "Hypothyroidism", "Asthma", "GERD", "Seasonal Allergies"]
  const PhysicalLimitations: seq<string> := ["None", "Mobility Issues (mild)", "Swallowing Difficulties",
                                             "Joint Pain (knee)", "Back Pain (chronic)"]
  const Moods: seq<string> := ["Happy", "Neutral", "Excited", "Tired", "Anxious", "Stressed"]

  /** The bounds of `random.randint(80, 180)`, both inclusive. */
  const MinInitialCgm := 80
  const MaxInitialCgm := 180

  /** The outcome of the fake-data and random calls for one record: the
      fake names and city, indices the random choices picked, and the
      drawn reading. */
  datatype Draw = Draw(firstName: string, lastName: string, city: string,
                       diet: nat, condition: nat, limitation: nat, cgm: int, mood: nat)

  /** What the random calls can return. */
  predicate ValidDraw(d: Draw) {
    && d.diet < |DietChoices| && d.condition < |MedicalConditions|
    && d.limitation < |PhysicalLimitations| && d.mood < |Moods|
    && MinInitialCgm <= d.cgm <= MaxInitialCgm
  }

  /** A seeded profile: every choice from its list, the reading in the normal range. */
  predicate WellFormed(row: UserRow) {
    && row.dietaryPreference in DietChoices
    && row.medicalConditions in MedicalConditions
    && row.physicalLimitations in PhysicalLimitations
    && row.mood in Moods
    && MinInitialCgm <= row.latestCgm <= MaxInitialCgm
  }

  /** The record built in the `i`-th turn of the loop. */
  function Record(i: nat, d: Draw): (r: UserRow)
    requires ValidDraw(d)
    ensures WellFormed(r)
    ensures r.userId == NatToDecimal(1000 + i)
    ensures r.firstName == d.firstName && r.lastName == d.lastName && r.city == d.city
  {
    UserRow(NatToDecimal(1000 + i), d.firstName, d.lastName, d.city, DietChoices[d.diet],
            MedicalConditions[d.condition], PhysicalLimitations[d.limitation], d.cgm, Moods[d.mood])
  }

  predicate DistinctIds(records: seq<UserRow>) {
    forall k, k' :: 0 <= k < k' < |records| ==> records[k].userId != records[k'].userId
  }

  /** `generate_user_data(n)`: ids `1001` to `str(1000 + n)` in order, so
      no two records share one. */
  method GenerateUserData(n: nat, draws: seq<Draw>) returns (records: seq<UserRow>)
    requires |draws| == n
    requires forall k :: 0 <= k < n ==> ValidDraw(draws[k])
    ensures |records| == n
    ensures forall k :: 0 <= k < n ==> records[k].userId == NatToDecimal(1001 + k)
    ensures DistinctIds(records)
    ensures forall k :: 0 <= k < n ==> WellFormed(records[k])
    ensures forall k :: 0 <= k < n ==> records[k].firstName == draws[k].firstName && records[k].city == draws[k].city
    ensures forall k :: 0 <= k < n ==> records[k] == Record(k + 1, draws[k])
  {
    records := [];
    var i := 1;
    while i <= n
      invariant 1 <= i <= n + 1
      invariant |records| == i - 1
      invariant forall k :: 0 <= k < i - 1 ==> records[k] == Record(k + 1, draws[k])
      invariant DistinctIds(records)
    {
      var row := Record(i, draws[i - 1]);
      FreshId(records, i);
      AppendDistinct(records, row);
      records := records + [row];
      i := i + 1;
    }
  }

  /** The id of the `i`-th record differs from those of the records before it. */
  lemma FreshId(records: seq<UserRow>, i: nat)
    requires |records| == i - 1
    requires forall k :: 0 <= k < i - 1 ==> records[k].userId == NatToDecimal(1001 + k)
    ensures forall k :: 0 <= k < i - 1 ==> records[k].userId != NatToDecimal(1000 + i)
  {
    forall k | 0 <= k < i - 1
      ensures records[k].userId != NatToDecimal(1000 + i)
    {
      if records[k].userId == NatToDecimal(1000 + i) {
        DecimalInjective(1001 + k, 1000 + i);
      }
    }
  }

  lemma AppendDistinct(records: seq<UserRow>, row: UserRow)
    requires DistinctIds(records)
    requires forall k :: 0 <= k < |records| ==> records[k].userId != row.userId
    ensures DistinctIds(records + [row])
  {
  }

  /** `executemany` of the INSERT over the records, in order, into an empty
      Users table: the first row whose reading SQLite cannot bind, or whose
      id is already taken, aborts the statement. */
  function InsertAll(records: seq<UserRow>): (r: Result<map<string, UserRow>, DbError>)
    ensures r.Success? <==> DistinctIds(records) && forall k :: 0 <= k < |records| ==> Fits(Some(records[k].latestCgm))
    ensures r.Success? ==> r.value.Keys == set k | 0 <= k < |records| :: records[k].userId
    ensures r.Success? ==> forall k :: 0 <= k < |records| ==> r.value[records[k].userId] == records[k]
    decreases |records|
  {
    if records == [] then Success(map[])
    else
      var init := records[..|records| - 1];
      var last := records[|records| - 1];
      assert forall k :: 0 <= k < |init| ==> init[k] == records[k];
      match InsertAll(init)
      case Failure(e) => Failure(e)
      case Success(users) =>
        if !Fits(Some(last.latestCgm)) then Failure(Overflow)
        else if last.userId in users then Failure(UniqueViolation(last.userId))
        else Success(users[last.userId := last])
  }

  /** `populate_database`: both tables are emptied and the records inserted,
      so afterwards Users holds exactly the records and Logs nothing. A
      failed insert is returned as the failure, and what the database holds
      after it is left open. */
  function Populate(db: Db, records: seq<UserRow>): (r: Result<Db, DbError>)
    ensures r.Success? <==> InsertAll(records).Success?
    ensures r.Success? ==> r.value.logs == []
    ensures r.Success? ==> r.value.users.Keys == set k | 0 <= k < |records| :: records[k].userId
    ensures r.Success? ==> forall k :: 0 <= k < |records| ==> r.value.users[records[k].userId] == records[k]
  {
    match InsertAll(records)
    case Failure(e) => Failure(e)
    case Success(users) => Success(Db(users, []))
  }

  /** A seeded mood, sent back as a mood message, is stored unchanged:
      the seed's moods are the capitalised words of the mood pattern. */
  lemma SeededMoodReadsBack(j: nat)
    requires j < |Moods|
    ensures Service.MoodOf(Moods[j]) == Some(Moods[j])
  {
    var i := PatternIndex(j);
    PatternPrefixFree(i);
    Service.MoodOfWord(Moods[j], i);
  }

  /** The pattern word a seeded mood lower-cases to. */
  lemma PatternIndex(j: nat) returns (i: nat)
    requires j < |Moods|
    ensures i < |Service.MoodPattern|
    ensures Lower(Moods[j]) == Service.MoodPattern[i] && Capitalize(Service.MoodPattern[i]) == Moods[j]
  {
    i := [0, 6, 2, 3, 4, 5][j];
    if j == 0 {
      CapitalizedWord("Happy", "happy");
    } else if j == 1 {
      CapitalizedWord("Neutral", "neutral");
    } else if j == 2 {
      CapitalizedWord("Excited", "excited");
    } else if j == 3 {
      CapitalizedWord("Tired", "tired");
    } else if j == 4 {
      CapitalizedWord("Anxious", "anxious");
    } else {
      CapitalizedWord("Stressed", "stressed");
    }
  }

  /** A capitalised word lower-cases to its lower-case form, which
      capitalises back to it. */
  lemma CapitalizedWord(m: string, t: string)
    requires |m| == |t| > 0 && IsUpper(m[0]) && t[0] == ToLowerChar(m[0])
    requires m[1..] == t[1..] && HasNoUpper(t)
    ensures Lower(m) == t && Capitalize(t) == m
  {
    forall k | 1 <= k < |m|
      ensures Lower(m)[k] == t[k]
    {
      assert m[k] == m[1..][k - 1] == t[1..][k - 1] == t[k];
    }
    LowerOfLowerCase(t[1..]);
  }

  /** No word of the mood pattern is a proper prefix of another. */
  lemma PatternPrefixFree(i: nat)
    requires i < |Service.MoodPattern|
    ensures forall w :: w in Service.MoodPattern && w <= Service.MoodPattern[i] ==> w == Service.MoodPattern[i]
  {
    var t := Service.MoodPattern[i];
    forall w | w in Service.MoodPattern && w <= t
      ensures w == t
    {
      assert w[0] == t[0] && w[1] == t[1];
    }
  }

  /** With one hundred records every seeded id passes the login page's range check. */
  lemma SeededIdsLogIn(k: nat)
    requires k < NumRecords
    ensures Login.InRange(NatToDecimal(1001 + k))
  {
    ParseIntOfDecimal(1001 + k, "");
    assert NatToDecimal(1001 + k) + "" == NatToDecimal(1001 + k);
  }
}
