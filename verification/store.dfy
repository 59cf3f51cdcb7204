/** The SQLite database of the agent servers as an abstract store: the
    Users table keyed by its primary key `user_id`, and the Logs table as
    the sequence of its rows in insertion order. */
module Store {
  import opened Wrappers

  /** A Users row; `latest_cgm` is the one INTEGER column. */
  datatype UserRow = UserRow(
    userId: string,
    firstName: string,
    lastName: string,
    city: string,
    dietaryPreference: string,
    medicalConditions: string,
    physicalLimitations: string,
    latestCgm: int,
    mood: string)

  datatype LogType = CGM | MOOD | FOOD

  /** A Logs row; the id and timestamp columns the database fills in are
      not modelled. */
  datatype LogRow = LogRow(userId: string, logType: LogType, valueText: Option<string>, valueInt: Option<int>)

  datatype Db = Db(users: map<string, UserRow>, logs: seq<LogRow>)

  /** SQLite stores integers in 64 bits; binding a larger Python int raises
      `OverflowError`, which is not an `sqlite3.Error`. */
  const MinSqliteInt: int := -0x8000_0000_0000_0000
  const MaxSqliteInt: int := 0x7FFF_FFFF_FFFF_FFFF

  predicate Fits(v: Option<int>) {
    v.None? || MinSqliteInt <= v.value <= MaxSqliteInt
  }

  /** Why a write aborts: an integer SQLite cannot hold, or a second row
      under a primary key already in the table. */
  datatype DbError = Overflow | UniqueViolation(userId: string)

  /** The Users row after the update `log_data_to_db` makes for one log. */
  function Updated(row: UserRow, logType: LogType, valueText: Option<string>, valueInt: Option<int>): (r: UserRow)
    ensures logType == CGM && valueInt.Some? ==> r == row.(latestCgm := valueInt.value)
    ensures logType == MOOD && valueText.Some? ==> r == row.(mood := valueText.value)
    ensures !(logType == CGM && valueInt.Some?) && !(logType == MOOD && valueText.Some?) ==> r == row
  {
    if logType == CGM && valueInt.Some? then row.(latestCgm := valueInt.value)
    else if logType == MOOD && valueText.Some? then row.(mood := valueText.value)
    else row
  }

  /** `log_data_to_db`: one Logs row is appended, and the logging user's
      `latest_cgm` (for CGM with a number) or `mood` (for MOOD with a text)
      is updated; nothing else changes. An integer SQLite cannot hold aborts
      the call before anything is written. */
  function LogData(db: Db, userId: string, logType: LogType, valueText: Option<string>, valueInt: Option<int>): (r: Result<Db, DbError>)
    ensures r.Failure? <==> !Fits(valueInt)
    ensures r.Success? ==> r.value.logs == db.logs + [LogRow(userId, logType, valueText, valueInt)]
    ensures r.Success? ==> r.value.users.Keys == db.users.Keys
    ensures r.Success? ==> forall u :: u in db.users && u != userId ==> r.value.users[u] == db.users[u]
    ensures r.Success? && userId in db.users ==> r.value.users[userId] == Updated(db.users[userId], logType, valueText, valueInt)
  {
    if !Fits(valueInt) then Failure(Overflow)
    else
      var users := if userId in db.users then db.users[userId := Updated(db.users[userId], logType, valueText, valueInt)] else db.users;
      Success(Db(users, db.logs + [LogRow(userId, logType, valueText, valueInt)]))
  }

  /** A food log never touches the Users table. */
  lemma FoodLogKeepsUsers(db: Db, userId: string, text: string)
    ensures LogData(db, userId, FOOD, Some(text), None) == Success(Db(db.users, db.logs + [LogRow(userId, FOOD, Some(text), None)]))
  {
    if userId in db.users {
      assert db.users[userId := db.users[userId]] == db.users;
    }
  }

  /** Only the field that matches the log type moves: a CGM log keeps the
      mood, a MOOD log keeps the reading. */
  lemma LogTouchesOneField(db: Db, userId: string, logType: LogType, valueText: Option<string>, valueInt: Option<int>)
    requires userId in db.users && Fits(valueInt)
    ensures var row' := LogData(db, userId, logType, valueText, valueInt).value.users[userId];
      var row := db.users[userId];
      && row'.(latestCgm := row.latestCgm, mood := row.mood) == row
      && (logType != CGM ==> row'.latestCgm == row.latestCgm)
      && (logType != MOOD ==> row'.mood == row.mood)
  {
  }

  // ------------------------------------------------------------ the views

  /** The two servers' SELECTs differ: the agents server also reads `last_name`. */
  datatype Variant = AgentsServer | BackendServer

  datatype Value = Text(s: string) | Int(i: int)

  type UserDict = map<string, Value>

  const AgentsColumns: seq<string> := ["user_id", "first_name", "last_name", "city", "dietary_preference",
                                       "medical_conditions", "physical_limitations", "latest_cgm", "mood"]
  const BackendColumns: seq<string> := ["user_id", "first_name", "city", "dietary_preference",
                                        "medical_conditions", "physical_limitations", "latest_cgm", "mood"]

  function Columns(variant: Variant): seq<string> {
    match variant
    case AgentsServer => AgentsColumns
    case BackendServer => BackendColumns
  }

  /** The value a Users row holds under a column name. */
  function Column(row: UserRow, name: string): Value {
    if name == "user_id" then Text(row.userId)
    else if name == "first_name" then Text(row.firstName)
    else if name == "last_name" then Text(row.lastName)
    else if name == "city" then Text(row.city)
    else if name == "dietary_preference" then Text(row.dietaryPreference)
    else if name == "medical_conditions" then Text(row.medicalConditions)
    else if name == "physical_limitations" then Text(row.physicalLimitations)
    else if name == "latest_cgm" then Int(row.latestCgm)
    else Text(row.mood)
  }

  /** The fetched tuple: the selected columns in SELECT order. */
  function Select(row: UserRow, columns: seq<string>): (t: seq<Value>)
    ensures |t| == |columns|
    ensures forall j :: 0 <= j < |columns| ==> t[j] == Column(row, columns[j])
  {
    seq(|columns|, j requires 0 <= j < |columns| => Column(row, columns[j]))
  }

  predicate Distinct(keys: seq<string>) {
    forall j, j' :: 0 <= j < j' < |keys| ==> keys[j] != keys[j']
  }

  /** The dict literal of `get_user_data_from_db`: key `keys[j]` gets
      tuple position `j`. The literal's keys are distinct. */
  function ToDict(keys: seq<string>, tuple: seq<Value>): (d: UserDict)
    requires |keys| == |tuple| && Distinct(keys)
    ensures forall k :: k in d <==> k in keys
    ensures forall j :: 0 <= j < |keys| ==> d[keys[j]] == tuple[j]
  {
    map j | 0 <= j < |keys| :: keys[j] := tuple[j]
  }

  /** A row read by column name: every selected column under its own name. */
  function View(row: UserRow, variant: Variant): UserDict {
    map c | c in Columns(variant) :: Column(row, c)
  }

  /** `get_user_data_from_db`: the dict of the user's row, `None` for the
      empty dict returned when no row has that id. The dict is built by
      position, and since the key list repeats the SELECT list it holds
      every selected column under its own name. */
  function GetUserData(db: Db, userId: string, variant: Variant): (r: Option<UserDict>)
    ensures r.None? <==> userId !in db.users
    ensures r.Some? ==> r.value == View(db.users[userId], variant)
  {
    if userId !in db.users then None
    else
      var row := db.users[userId];
      ColumnsDistinct(variant);
      DictIsView(row, Columns(variant));
      Some(ToDict(Columns(variant), Select(row, Columns(variant))))
  }

  /** The positional dict of a SELECT over distinct columns is the row
      read by name. */
  lemma DictIsView(row: UserRow, cols: seq<string>)
    requires Distinct(cols)
    ensures ToDict(cols, Select(row, cols)) == map c | c in cols :: Column(row, c)
  {
    var d := ToDict(cols, Select(row, cols));
    var v := map c | c in cols :: Column(row, c);
    assert d.Keys == v.Keys;
    forall c | c in d
      ensures d[c] == v[c]
    {
      var j :| 0 <= j < |cols| && cols[j] == c;
    }
  }

  /** The profile fields both servers read, as the dict shows them. */
  lemma ViewFields(row: UserRow, variant: Variant)
    ensures var d := View(row, variant);
      && "first_name" in d && d["first_name"] == Text(row.firstName)
      && "city" in d && d["city"] == Text(row.city)
      && "dietary_preference" in d && d["dietary_preference"] == Text(row.dietaryPreference)
      && "medical_conditions" in d && d["medical_conditions"] == Text(row.medicalConditions)
      && "physical_limitations" in d && d["physical_limitations"] == Text(row.physicalLimitations)
      && "latest_cgm" in d && d["latest_cgm"] == Int(row.latestCgm)
      && "mood" in d && d["mood"] == Text(row.mood)
  {
    var cols := Columns(variant);
    var o := if variant == AgentsServer then 1 else 0;
    assert cols[1] == "first_name" && cols[2 + o] == "city" && cols[3 + o] == "dietary_preference";
    assert cols[4 + o] == "medical_conditions" && cols[5 + o] == "physical_limitations";
    assert cols[6 + o] == "latest_cgm" && cols[7 + o] == "mood";
  }

  /** `last_name` is in the dict exactly for the agents server, and the
      dict has one entry per selected column. */
  lemma ViewShape(row: UserRow, variant: Variant)
    ensures "last_name" in View(row, variant) <==> variant == AgentsServer
    ensures |View(row, variant).Keys| == |Columns(variant)|
  {
    var cols := Columns(variant);
    ColumnsDistinct(variant);
    DistinctCard(cols);
    assert View(row, variant).Keys == set j | 0 <= j < |cols| :: cols[j];
    if variant == BackendServer {
      ColumnNames();
    } else {
      assert AgentsColumns[2] == "last_name";
    }
  }

  lemma ColumnsDistinct(variant: Variant)
    ensures Distinct(Columns(variant))
  {
    var cols := Columns(variant);
    forall j, j' | 0 <= j < j' < |cols|
      ensures cols[j] != cols[j']
    {
      assert cols[j][..2] != cols[j'][..2] || |cols[j]| != |cols[j']| || cols[j][3] != cols[j'][3] || cols[j][|cols[j]| - 1] != cols[j'][|cols[j']| - 1];
    }
  }

  lemma ColumnNames()
    ensures "last_name" !in BackendColumns
  {
    forall j | 0 <= j < |BackendColumns|
      ensures BackendColumns[j] != "last_name"
    {
      assert |BackendColumns[j]| != 9;
    }
  }

  lemma {:induction false} DistinctCard(s: seq<string>)
    requires Distinct(s)
    ensures |set j | 0 <= j < |s| :: s[j]| == |s|
    decreases |s|
  {
    if s != [] {
      var init := s[..|s| - 1];
      DistinctCard(init);
      var a := set j | 0 <= j < |init| :: init[j];
      var b := set j | 0 <= j < |s| :: s[j];
      assert b == a + {s[|s| - 1]};
      assert s[|s| - 1] !in a;
    }
  }
}
