/** The user records the dashboard reads from its CSV file: a naive
    comma-split parser (no quoting, so not RFC 4180), a load cache, and a
    lookup by user id. */
module Users {
  import opened Wrappers
  import opened Text
  import Seqs

  /** The typed view the dashboard components use: every field is text,
      including the glucose reading. */
  datatype UserData = UserData(
    userId: string,
    firstName: string,
    lastName: string,
    city: string,
    dietaryPreference: string,
    medicalConditions: string,
    physicalLimitations: string,
    latestCgm: string,
    mood: string)

  /** One parsed CSV line: trimmed header name to trimmed value. */
  type Record = map<string, string>

  /** `values[index]?.trim() || ''`: the trimmed value, or the empty text
      when the line is too short. */
  function FieldAt(values: seq<string>, j: nat): (v: string)
    ensures j < |values| ==> v == Trim(values[j])
    ensures j >= |values| ==> v == ""
  {
    if j < |values| then Trim(values[j]) else ""
  }

  /** The object built by assigning `vals[j]` to `keys[j]` for the first
      `n` positions in order, so a repeated key keeps its last value. */
  function Assign<K(!new), V>(keys: seq<K>, vals: seq<V>, n: nat): (r: map<K, V>)
    requires n <= |keys| == |vals|
    ensures forall k :: k in r <==> k in keys[..n]
    ensures forall j :: 0 <= j < n && LastKey(keys, n, j) ==> r[keys[j]] == vals[j]
  {
    if n == 0 then map[]
    else
      var prev := Assign(keys, vals, n - 1);
      assert keys[..n] == keys[..n - 1] + [keys[n - 1]];
      prev[keys[n - 1] := vals[n - 1]]
  }

  /** Key `j` is the last of the first `n` keys with its name. */
  predicate LastKey<K(==)>(keys: seq<K>, n: nat, j: nat)
    requires j < n <= |keys|
  {
    forall j' :: j < j' < n ==> keys[j'] != keys[j]
  }

  /** The value for each of `n` headers. */
  function Fields(values: seq<string>, n: nat): (r: seq<string>)
    ensures |r| == n
    ensures forall j :: 0 <= j < n ==> r[j] == FieldAt(values, j)
  {
    seq(n, j requires 0 <= j < n => FieldAt(values, j))
  }

  /** The object keys `header.trim()`. */
  function Keys(headers: seq<string>): (r: seq<string>)
    ensures |r| == |headers|
    ensures forall j :: 0 <= j < |headers| ==> r[j] == Trim(headers[j])
  {
    seq(|headers|, j requires 0 <= j < |headers| => Trim(headers[j]))
  }

  /** The record of one data line: a key for every trimmed header, holding
      the value at the position of the last header with that name. */
  function ParseRecord(headers: seq<string>, line: string): (r: Record)
    ensures forall k :: k in r <==> k in Keys(headers)
    ensures forall j :: 0 <= j < |headers| && LastKey(Keys(headers), |headers|, j) ==>
      r[Keys(headers)[j]] == FieldAt(Split(line, ','), j)
  {
    var keys := Keys(headers);
    assert keys[..|keys|] == keys;
    Assign(keys, Fields(Split(line, ','), |headers|), |headers|)
  }

  function Headers(csvText: string): seq<string> {
    Split(Split(csvText, '\n')[0], ',')
  }

  predicate NonBlank(line: string) {
    !IsBlank(line)
  }

  /** The lines after the header line that hold something besides spaces. */
  function DataLines(csvText: string): (r: seq<string>)
    ensures forall i :: 0 <= i < |r| ==> !IsBlank(r[i])
  {
    Seqs.Filter(Split(csvText, '\n')[1..], NonBlank)
  }

  /** The parse of `loadUserData`: one record per data line, in order. */
  function ParseCsv(csvText: string): (r: seq<Record>)
    ensures |r| == |DataLines(csvText)|
    ensures forall i :: 0 <= i < |r| ==> r[i] == ParseRecord(Headers(csvText), DataLines(csvText)[i])
  {
    ParseLines(Headers(csvText), DataLines(csvText))
  }

  function ParseLines(headers: seq<string>, lines: seq<string>): (r: seq<Record>)
    ensures |r| == |lines|
    ensures forall i :: 0 <= i < |r| ==> r[i] == ParseRecord(headers, lines[i])
  {
    seq(|lines|, i requires 0 <= i < |lines| => ParseRecord(headers, lines[i]))
  }

  lemma {:induction false} JoinAppend(parts: seq<string>, last: string, sep: char)
    requires |parts| >= 1
    ensures Join(parts + [last], sep) == Join(parts, sep) + [sep] + last
    decreases |parts|
  {
    if |parts| == 1 {
      assert (parts + [last])[1..] == [last];
    } else {
      assert (parts + [last])[1..] == parts[1..] + [last];
      JoinAppend(parts[1..], last, sep);
    }
  }

  /** A trailing empty or whitespace-only line adds no record. */
  lemma BlankLineAddsNoRecord(csvText: string, blank: string)
    requires IsBlank(blank) && '\n' !in blank
    ensures ParseCsv(csvText + "\n" + blank) == ParseCsv(csvText)
  {
    var parts := Split(csvText, '\n');
    var longer := csvText + "\n" + blank;
    JoinAppend(parts, blank, '\n');
    assert Join(parts + [blank], '\n') == longer;
    forall i | 0 <= i < |parts + [blank]|
      ensures '\n' !in (parts + [blank])[i]
    {
      if i < |parts| {
        assert (parts + [blank])[i] == parts[i];
      }
    }
    SplitJoin(parts + [blank], '\n');
    assert Split(longer, '\n') == parts + [blank];
    assert Split(longer, '\n')[0] == parts[0];
    assert Split(longer, '\n')[1..] == parts[1..] + [blank];
    Seqs.FilterConcat(parts[1..], [blank], NonBlank);
    assert Seqs.Filter([blank], NonBlank) == [];
    assert DataLines(longer) == DataLines(csvText);
  }

  /** A data line holding exactly one plain value per distinct header maps
      every header to its value. */
  lemma LineRoundTrip(headers: seq<string>, values: seq<string>)
    requires |values| == |headers|
    requires forall j :: 0 <= j < |values| ==> ',' !in values[j] && HasNoOuterSpace(values[j])
    requires forall j, j' :: 0 <= j < j' < |headers| ==> Trim(headers[j]) != Trim(headers[j'])
    requires |values| >= 1
    ensures forall j :: 0 <= j < |headers| ==> ParseRecord(headers, Join(values, ','))[Trim(headers[j])] == values[j]
  {
    SplitJoin(values, ',');
    var keys := Keys(headers);
    forall j | 0 <= j < |headers|
      ensures ParseRecord(headers, Join(values, ','))[Trim(headers[j])] == values[j]
    {
      assert LastKey(keys, |headers|, j);
      assert Trim(values[j]) == values[j];
    }
  }

  // ------------------------------------------------------------ the cache

  /** `loadUserData`: a cached array is returned as is (an empty array is
      cached too); otherwise the fetched text is parsed and cached, and a
      failed fetch (`None`) yields no users and leaves the cache empty. */
  function Load(cache: Option<seq<Record>>, fetched: Option<string>): (r: (seq<Record>, Option<seq<Record>>))
    ensures cache.Some? ==> r == (cache.value, cache)
    ensures cache.None? && fetched.None? ==> r == ([], None)
    ensures cache.None? && fetched.Some? ==> r.1 == Some(r.0) && r.0 == ParseCsv(fetched.value)
  {
    match cache
    case Some(users) => (users, cache)
    case None =>
      match fetched
      case None => ([], None)
      case Some(text) =>
        var users := ParseCsv(text);
        (users, Some(users))
  }

  /** Once a load has succeeded, later loads return the same users whatever
      the file then holds. */
  lemma LoadIsCached(cache: Option<seq<Record>>, first: Option<string>, later: Option<string>)
    requires cache.Some? || first.Some?
    ensures var (users, cache') := Load(cache, first);
      Load(cache', later) == (users, cache')
  {
  }

  // ------------------------------------------------------------ the lookup

  predicate HasId(rec: Record, userId: string) {
    "user_id" in rec && rec["user_id"] == userId
  }

  /** Position `i` holds the first record with id `userId`. */
  predicate FirstWithId(users: seq<Record>, userId: string, i: nat) {
    && i < |users|
    && HasId(users[i], userId)
    && forall i' :: 0 <= i' < i ==> !HasId(users[i'], userId)
  }

  /** `users.find(user => user.user_id === userId) || null`: the first
      record whose `user_id` is exactly `userId`. */
  function FindUser(users: seq<Record>, userId: string): (r: Option<Record>)
    ensures r.None? <==> forall i :: 0 <= i < |users| ==> !HasId(users[i], userId)
    ensures r.Some? ==> exists i: nat :: FirstWithId(users, userId, i) && users[i] == r.value
  {
    if users == [] then None
    else if HasId(users[0], userId) then Some(users[0])
    else
      var r := FindUser(users[1..], userId);
      assert forall i :: 1 <= i < |users| ==> users[i] == users[1..][i - 1];
      if r.Some? then
        var i: nat :| FirstWithId(users[1..], userId, i) && users[1..][i] == r.value;
        assert FirstWithId(users, userId, i + 1);
        r
      else r
  }

  /** `getUserById`: load (through the cache), then find. */
  function GetUserById(cache: Option<seq<Record>>, fetched: Option<string>, userId: string): (r: (Option<Record>, Option<seq<Record>>))
    ensures r.1 == Load(cache, fetched).1
    ensures r.0.Some? ==> HasId(r.0.value, userId) && r.0.value in Load(cache, fetched).0
    ensures r.0.None? <==> forall u :: u in Load(cache, fetched).0 ==> !HasId(u, userId)
    ensures r.0.Some? ==> exists i: nat :: FirstWithId(Load(cache, fetched).0, userId, i) && Load(cache, fetched).0[i] == r.0.value
  {
    var (users, cache') := Load(cache, fetched);
    (FindUser(users, userId), cache')
  }
}
