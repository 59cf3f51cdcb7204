/** The acceptance decision of the login page: a numeric range check on
    the typed id, then a substring check against the user CSV file. */
module Login {
  import opened Wrappers
  import opened Text

  const MinUserId := 1001
  const MaxUserId := 1100

  /** What a login attempt leads to. Only `Stored` writes the browser's
      local storage, and it writes the id exactly as typed. */
  datatype Outcome =
    | InvalidRange          // "Please enter a valid User ID (1001 - 1100)"
    | Stored(userId: string)
    | NotFound              // the CSV text does not hold the id
    | VerifyFailed          // the CSV file could not be read

  /** `parseInt(userId)` lies in 1001..1100; `NaN` never does. */
  predicate InRange(userId: string) {
    var n := ParseIntJs(userId);
    n.Some? && MinUserId <= n.value <= MaxUserId
  }

  /** `handleLogin`. `csv` is the fetched file text, `None` when the fetch
      fails; it is only consulted once the range check has passed. */
  function HandleLogin(userId: string, csv: Option<string>): (r: Outcome)
    ensures r == InvalidRange <==> !InRange(userId)
    ensures r.Stored? <==> InRange(userId) && csv.Some? && Contains(csv.value, userId + ",")
    ensures r.Stored? ==> r.userId == userId
    ensures r == VerifyFailed <==> InRange(userId) && csv.None?
  {
    if !InRange(userId) then InvalidRange
    else match csv
      case None => VerifyFailed
      case Some(text) => if Contains(text, userId + ",") then Stored(userId) else NotFound
  }

  /** Every id in the range, typed in plain decimal and possibly followed
      by junk that `parseInt` stops at, logs in as soon as the file holds
      the typed text followed by a comma; what is stored is the typed text,
      not the number. */
  lemma TypedIdLogsIn(n: nat, junk: string, csv: string)
    requires MinUserId <= n <= MaxUserId
    requires junk == [] || (!IsDigit(junk[0]) && junk[0] != 'x' && junk[0] != 'X')
    requires Contains(csv, NatToDecimal(n) + junk + ",")
    ensures HandleLogin(NatToDecimal(n) + junk, Some(csv)) == Stored(NatToDecimal(n) + junk)
  {
    ParseIntOfDecimal(n, junk);
  }
}
