/** String primitives the front end (JavaScript) and the back end (Python)
    rely on, stated over `seq<char>`: ASCII case mapping, the JavaScript
    `trim` whitespace set, substring search, `split`, decimal rendering, the
    JavaScript `parseInt` prefix parser and the few regular expressions the
    back end uses. */
module Text {
  import opened Wrappers

  // ---------------------------------------------------------------- characters

  predicate IsUpper(c: char) { 'A' <= c <= 'Z' }

  predicate IsLower(c: char) { 'a' <= c <= 'z' }

  predicate IsDigit(c: char) { '0' <= c <= '9' }

  /** A character that `\w` matches, so one that `\b` separates from a non-word character. */
  predicate IsWordChar(c: char) { IsUpper(c) || IsLower(c) || IsDigit(c) || c == '_' }

  /** The characters `String.prototype.trim` removes: WhiteSpace and LineTerminator. */
  predicate IsSpace(c: char) {
    || c == '\t' || c == '\n' || c == '\U{000B}' || c == '\U{000C}' || c == '\r' || c == ' '
    || c == '\U{00A0}' || c == '\U{1680}' || ('\U{2000}' <= c <= '\U{200A}')
    || c == '\U{2028}' || c == '\U{2029}' || c == '\U{202F}' || c == '\U{205F}'
    || c == '\U{3000}' || c == '\U{FEFF}'
  }

  function ToLowerChar(c: char): (r: char)
    ensures !IsUpper(r)
    ensures IsSpace(r) <==> IsSpace(c)
  {
    if IsUpper(c) then (c as int + 32) as char else c
  }

  function ToUpperChar(c: char): (r: char)
    ensures !IsLower(r)
  {
    if IsLower(c) then (c as int - 32) as char else c
  }

  // ------------------------------------------------------------------ case

  /** `toLowerCase()` / `str.lower()` on the ASCII letters. */
  function Lower(s: string): (r: string)
    ensures |r| == |s|
    ensures forall i :: 0 <= i < |s| ==> r[i] == ToLowerChar(s[i])
  {
    seq(|s|, i requires 0 <= i < |s| => ToLowerChar(s[i]))
  }

  predicate HasNoUpper(s: string) {
    forall i :: 0 <= i < |s| ==> !IsUpper(s[i])
  }

  lemma LowerOfLowerCase(s: string)
    requires HasNoUpper(s)
    ensures Lower(s) == s
  {
  }

  /** JavaScript `s.charAt(0).toUpperCase() + s.slice(1)`. */
  function UpperFirst(s: string): (r: string)
    ensures |r| == |s|
    ensures |s| > 0 ==> r[0] == ToUpperChar(s[0]) && r[1..] == s[1..]
  {
    if s == [] then [] else [ToUpperChar(s[0])] + s[1..]
  }

  /** Python `str.capitalize()`: first character upper-cased, the rest lower-cased. */
  function Capitalize(s: string): (r: string)
    ensures |r| == |s|
    ensures |s| > 0 ==> r[0] == ToUpperChar(s[0]) && r[1..] == Lower(s[1..])
  {
    if s == [] then [] else [ToUpperChar(s[0])] + Lower(s[1..])
  }

  // ------------------------------------------------------------------ trim

  /** Drops the leading whitespace; what remains is a suffix of `s`. */
  function TrimStart(s: string): (r: string)
    ensures |r| <= |s| && r == s[|s| - |r|..]
    ensures forall i :: 0 <= i < |s| - |r| ==> IsSpace(s[i])
    ensures r == [] || !IsSpace(r[0])
    decreases |s|
  {
    if |s| > 0 && IsSpace(s[0]) then TrimStart(s[1..]) else s
  }

  /** Drops the trailing whitespace; what remains is a prefix of `s`. */
  function TrimEnd(s: string): (r: string)
    ensures |r| <= |s| && r == s[..|r|]
    ensures forall i :: |r| <= i < |s| ==> IsSpace(s[i])
    ensures r == [] || !IsSpace(r[|r| - 1])
    decreases |s|
  {
    if |s| > 0 && IsSpace(s[|s| - 1]) then TrimEnd(s[..|s| - 1]) else s
  }

  predicate HasNoOuterSpace(s: string) {
    s == [] || (!IsSpace(s[0]) && !IsSpace(s[|s| - 1]))
  }

  predicate IsBlank(s: string) {
    forall i :: 0 <= i < |s| ==> IsSpace(s[i])
  }

  /** `String.prototype.trim`: the longest infix of `s` without whitespace at either end. */
  function Trim(s: string): (r: string)
    ensures |r| <= |s|
    ensures HasNoOuterSpace(r)
    ensures HasNoOuterSpace(s) ==> r == s
    ensures r == [] <==> IsBlank(s)
  {
    TrimFacts(s);
    TrimEnd(TrimStart(s))
  }

  /** What `Trim` drops is whitespace: `s` is a blank prefix, the result,
      and a blank suffix. */
  lemma {:induction false} TrimIsInfix(s: string)
    ensures var k := |s| - |TrimStart(s)|;
      && k + |Trim(s)| <= |s|
      && s == s[..k] + Trim(s) + s[k + |Trim(s)|..]
      && IsBlank(s[..k]) && IsBlank(s[k + |Trim(s)|..])
  {
    var t := TrimStart(s);
    var r := TrimEnd(t);
    TrimStartSplit(s);
    TrimEndSplit(t);
    assert Trim(s) == r;
    Regroup(s, s[..|s| - |t|], t, r, t[|r|..]);
  }

  lemma Regroup(s: string, p: string, t: string, r: string, q: string)
    requires s == p + t && t == r + q
    ensures s == s[..|p|] + r + s[|p| + |r|..]
    ensures s[..|p|] == p && s[|p| + |r|..] == q
  {
    assert s == p + r + q;
  }

  lemma TrimStartSplit(s: string)
    ensures var k := |s| - |TrimStart(s)|; s == s[..k] + TrimStart(s) && IsBlank(s[..k])
  {
  }

  lemma TrimEndSplit(s: string)
    ensures var k := |TrimEnd(s)|; s == TrimEnd(s) + s[k..] && IsBlank(s[k..])
  {
    var k := |TrimEnd(s)|;
    forall i | 0 <= i < |s| - k
      ensures IsSpace(s[k..][i])
    {
      assert s[k..][i] == s[k + i];
    }
  }

  lemma TrimFacts(s: string)
    ensures var r := TrimEnd(TrimStart(s));
      && HasNoOuterSpace(r)
      && (HasNoOuterSpace(s) ==> r == s)
      && (r == [] <==> IsBlank(s))
  {
    TrimNoOuterSpace(s);
    TrimKeepsTrimmed(s);
    TrimEmptyIffBlank(s);
  }

  lemma TrimNoOuterSpace(s: string)
    ensures HasNoOuterSpace(TrimEnd(TrimStart(s)))
  {
    var t := TrimStart(s);
    var r := TrimEnd(t);
    if r != [] {
      assert r[0] == t[0];
    }
  }

  lemma TrimKeepsTrimmed(s: string)
    ensures HasNoOuterSpace(s) ==> TrimEnd(TrimStart(s)) == s
  {
    if HasNoOuterSpace(s) && s != [] {
      assert TrimStart(s) == s;
      assert TrimEnd(s) == s;
    }
  }

  lemma TrimEmptyIffBlank(s: string)
    ensures TrimEnd(TrimStart(s)) == [] <==> IsBlank(s)
  {
    var t := TrimStart(s);
    var r := TrimEnd(t);
    var k := |s| - |t|;
    if r == [] {
      assert |t| == 0;
    } else {
      assert t[0] == s[k];
      assert !IsSpace(s[k]);
    }
  }

  lemma TrimIdempotent(s: string)
    ensures Trim(Trim(s)) == Trim(s)
  {
  }

  lemma LowerTrimCommute(s: string)
    ensures Lower(Trim(s)) == Trim(Lower(s))
  {
    var t := TrimStart(s);
    var r := TrimEnd(t);
    var lt := TrimStart(Lower(s));
    var lr := TrimEnd(lt);
    LowerTrimStart(s);
    LowerTrimEnd(t);
  }

  lemma {:induction false} LowerTrimStart(s: string)
    ensures Lower(TrimStart(s)) == TrimStart(Lower(s))
    decreases |s|
  {
    if |s| > 0 && IsSpace(s[0]) {
      assert Lower(s)[1..] == Lower(s[1..]);
      LowerTrimStart(s[1..]);
    }
  }

  lemma {:induction false} LowerTrimEnd(s: string)
    ensures Lower(TrimEnd(s)) == TrimEnd(Lower(s))
    decreases |s|
  {
    if |s| > 0 && IsSpace(s[|s| - 1]) {
      assert Lower(s)[..|s| - 1] == Lower(s[..|s| - 1]);
      LowerTrimEnd(s[..|s| - 1]);
    }
  }

  /** The key both the front end and the back end derive from free text:
      `s.toLowerCase().trim()`. */
  function Normalize(s: string): (r: string)
    ensures HasNoUpper(r) && HasNoOuterSpace(r)
  {
    Trim(Lower(s))
  }

  /** Normalizing is idempotent, so a lookup by `Normalize(s)` cannot tell
      `s` from any spelling that differs only in ASCII case or in surrounding
      whitespace. */
  lemma NormalizeIdempotent(s: string)
    ensures Normalize(Normalize(s)) == Normalize(s)
  {
    var n := Normalize(s);
    assert HasNoUpper(n);
    LowerOfLowerCase(n);
  }

  // ------------------------------------------------------------- substrings

  /** `s.includes(t)` / Python `t in s`. */
  predicate Contains(s: string, t: string) {
    exists i :: 0 <= i <= |s| && OccursAt(s, t, i)
  }

  /** `t` occurs in `s` starting at position `i`. */
  predicate OccursAt(s: string, t: string, i: nat) {
    i <= |s| && t <= s[i..]
  }

  lemma ContainsEmpty(s: string)
    ensures Contains(s, "")
  {
    assert OccursAt(s, "", 0);
  }

  /** A text contains whatever its infix `s[k..j]` contains. */
  lemma ContainsInfix(s: string, t: string, k: nat, j: nat)
    requires k <= j <= |s|
    requires Contains(s[k..j], t)
    ensures Contains(s, t)
  {
    var i :| 0 <= i <= |s[k..j]| && OccursAt(s[k..j], t, i);
    assert s[k..j][i..] <= s[k + i..];
    assert OccursAt(s, t, k + i);
  }

  /** Python `any(w in s for w in words)`, or an `||` of `includes` calls. */
  predicate ContainsAny(s: string, words: seq<string>) {
    exists w :: w in words && Contains(s, w)
  }

  /** The first position, from `i` on, where `t` occurs in `s`. */
  function FindFrom(s: string, t: string, i: nat): (r: Option<nat>)
    requires i <= |s|
    ensures r.Some? ==> i <= r.value <= |s| && OccursAt(s, t, r.value)
    ensures r.Some? ==> forall q :: i <= q < r.value ==> !OccursAt(s, t, q)
    ensures r.None? ==> forall q :: i <= q <= |s| ==> !OccursAt(s, t, q)
    decreases |s| - i
  {
    if OccursAt(s, t, i) then Some(i)
    else if i == |s| then None
    else FindFrom(s, t, i + 1)
  }

  /** `s.indexOf(t)`, with `None` for `-1`. */
  function Find(s: string, t: string): (r: Option<nat>)
    ensures r.None? <==> !Contains(s, t)
    ensures r.Some? ==> OccursAt(s, t, r.value)
    ensures r.Some? ==> forall q :: 0 <= q < r.value ==> !OccursAt(s, t, q)
  {
    FindFrom(s, t, 0)
  }

  /** `s.replace(pat, rep)` with a string pattern: only the first
      occurrence is replaced, and a text without `pat` is returned as is. */
  function ReplaceFirst(s: string, pat: string, rep: string): (r: string)
    ensures !Contains(s, pat) ==> r == s
    ensures Contains(s, pat) ==> |r| == |s| - |pat| + |rep| && Contains(r, rep)
    ensures Contains(s, pat) ==>
      (Find(s, pat).Some? && var i := Find(s, pat).value; i + |pat| <= |s| && r == s[..i] + rep + s[i + |pat|..])
  {
    match Find(s, pat)
    case None => s
    case Some(i) =>
      var r := s[..i] + rep + s[i + |pat|..];
      assert OccursAt(r, rep, i);
      r
  }

  // ----------------------------------------------------------------- split

  /** The first position of `c` in `s`. */
  function IndexOf(s: string, c: char): (r: Option<nat>)
    ensures r.None? <==> c !in s
    ensures r.Some? ==> r.value < |s| && s[r.value] == c && c !in s[..r.value]
  {
    if |s| == 0 then None
    else if s[0] == c then Some(0)
    else match IndexOf(s[1..], c)
      case None => None
      case Some(k) => assert s[1..][..k] == s[1..k + 1]; Some(k + 1)
  }

  /** Concatenates `parts` with one `sep` between neighbours. */
  function Join(parts: seq<string>, sep: char): string
    requires |parts| >= 1
  {
    if |parts| == 1 then parts[0] else parts[0] + [sep] + Join(parts[1..], sep)
  }

  /** `s.split(sep)` with a one-character separator: never empty, no part
      holds `sep`, and gluing the parts back gives `s`. */
  function Split(s: string, sep: char): (parts: seq<string>)
    ensures |parts| >= 1
    ensures forall i :: 0 <= i < |parts| ==> sep !in parts[i]
    ensures Join(parts, sep) == s
    decreases |s|
  {
    match IndexOf(s, sep)
    case None => [s]
    case Some(k) =>
      var rest := Split(s[k + 1..], sep);
      assert s == s[..k] + [sep] + s[k + 1..];
      [s[..k]] + rest
  }

  /** `split` undoes `join` when no part holds the separator. */
  lemma {:induction false} SplitJoin(parts: seq<string>, sep: char)
    requires |parts| >= 1
    requires forall i :: 0 <= i < |parts| ==> sep !in parts[i]
    ensures Split(Join(parts, sep), sep) == parts
    decreases |parts|
  {
    if |parts| > 1 {
      var s := Join(parts, sep);
      var p := parts[0];
      assert s == p + ([sep] + Join(parts[1..], sep));
      assert s[..|p|] == p;
      assert s[|p|] == sep;
      assert IndexOf(s, sep) == Some(|p|);
      assert s[|p| + 1..] == Join(parts[1..], sep);
      SplitJoin(parts[1..], sep);
      assert [p] + parts[1..] == parts;
    } else {
      assert IndexOf(parts[0], sep).None?;
    }
  }

  // ---------------------------------------------------------------- numbers

  predicate IsHexDigit(c: char) {
    IsDigit(c) || ('a' <= c <= 'f') || ('A' <= c <= 'F')
  }

  /** A digit of the given radix; the model only ever uses 10 and 16. */
  predicate IsRadixDigit(c: char, radix: nat) {
    if radix == 16 then IsHexDigit(c) else IsDigit(c)
  }

  predicate AllRadixDigits(s: string, radix: nat) {
    forall i :: 0 <= i < |s| ==> IsRadixDigit(s[i], radix)
  }

  function DigitValue(c: char): (v: nat)
    requires IsHexDigit(c)
    ensures v < 16
    ensures IsDigit(c) ==> v < 10
  {
    if IsDigit(c) then c as int - '0' as int
    else if 'a' <= c <= 'f' then c as int - 'a' as int + 10
    else c as int - 'A' as int + 10
  }

  /** The number a string of digits denotes, most significant digit first. */
  function ValueOf(s: string, radix: nat): nat
    requires radix == 10 || radix == 16
    requires AllRadixDigits(s, radix)
  {
    if s == [] then 0
    else ValueOf(s[..|s| - 1], radix) * radix + DigitValue(s[|s| - 1])
  }

  /** The longest prefix of `s` made of digits of `radix`. */
  function LeadingRun(s: string, radix: nat): (r: string)
    ensures r <= s
    ensures AllRadixDigits(r, radix)
    ensures |r| == |s| || !IsRadixDigit(s[|r|], radix)
    decreases |s|
  {
    if |s| > 0 && IsRadixDigit(s[0], radix) then [s[0]] + LeadingRun(s[1..], radix) else []
  }

  function DigitChar(d: nat): (c: char)
    requires d < 10
    ensures IsDigit(c) && DigitValue(c) == d
  {
    ('0' as int + d) as char
  }

  /** `str(n)` / a template-literal `${n}` for a natural number. */
  function NatToDecimal(n: nat): (r: string)
    ensures |r| >= 1
    ensures AllRadixDigits(r, 10)
    ensures r[0] == '0' ==> n == 0
  {
    if n < 10 then [DigitChar(n)] else NatToDecimal(n / 10) + [DigitChar(n % 10)]
  }

  /** Reading back a rendered number gives the number. */
  lemma {:induction false} DecimalRoundTrip(n: nat)
    ensures ValueOf(NatToDecimal(n), 10) == n
  {
    if n >= 10 {
      var r := NatToDecimal(n);
      assert r[..|r| - 1] == NatToDecimal(n / 10);
      DecimalRoundTrip(n / 10);
    }
  }

  lemma DecimalInjective(m: nat, n: nat)
    requires NatToDecimal(m) == NatToDecimal(n)
    ensures m == n
  {
    DecimalRoundTrip(m);
    DecimalRoundTrip(n);
  }

  /** The text after an optional leading sign. */
  function Unsigned(t: string): (u: string)
    ensures |t| > 0 && (t[0] == '-' || t[0] == '+') ==> t == [t[0]] + u
    ensures |t| == 0 || (t[0] != '-' && t[0] != '+') ==> u == t
  {
    if |t| > 0 && (t[0] == '-' || t[0] == '+') then t[1..] else t
  }

  /** Where `parseInt` finds a number: a decimal digit, and after a `0x` or
      `0X` prefix a hexadecimal one. */
  predicate StartsNumber(u: string) {
    && |u| > 0 && IsDigit(u[0])
    && (|u| >= 2 && u[0] == '0' && (u[1] == 'x' || u[1] == 'X') ==> |u| > 2 && IsHexDigit(u[2]))
  }

  /** JavaScript `parseInt(s)` without a radix: leading whitespace, an
      optional sign, a `0x`/`0X` prefix switching to radix 16, then the
      longest run of digits. `None` stands for `NaN` (no digit at all). */
  function ParseIntJs(s: string): (r: Option<int>)
    ensures r.None? <==> !StartsNumber(Unsigned(TrimStart(s)))
    ensures r.Some? && r.value < 0 ==> TrimStart(s)[0] == '-'
    ensures r.Some? && TrimStart(s)[0] == '-' ==> r.value <= 0
  {
    var t := TrimStart(s);
    var negative := |t| > 0 && t[0] == '-';
    var u := Unsigned(t);
    var hex := |u| >= 2 && u[0] == '0' && (u[1] == 'x' || u[1] == 'X');
    var radix := if hex then 16 else 10;
    var run := LeadingRun(if hex then u[2..] else u, radix);
    EmptyRun(if hex then u[2..] else u, radix);
    if run == [] then None
    else
      var v: int := ValueOf(run, radix);
      Some(if negative then -v else v)
  }

  /** The digit run is empty exactly when the text does not start with a digit. */
  lemma EmptyRun(s: string, radix: nat)
    ensures LeadingRun(s, radix) == [] <==> |s| == 0 || !IsRadixDigit(s[0], radix)
  {
  }

  /** `parseInt` reads a rendered number back, also when a non-digit suffix
      such as the `g` of `"45g"` follows it. */
  lemma ParseIntOfDecimal(n: nat, suffix: string)
    requires suffix == [] || (!IsDigit(suffix[0]) && suffix[0] != 'x' && suffix[0] != 'X')
    ensures ParseIntJs(NatToDecimal(n) + suffix) == Some(n)
  {
    var d := NatToDecimal(n);
    var s := d + suffix;
    assert s[0] == d[0];
    assert !(|s| >= 2 && s[0] == '0' && (s[1] == 'x' || s[1] == 'X')) by {
      if |s| >= 2 && s[0] == '0' {
        assert |d| == 1;
        assert s[1] == suffix[0];
      }
    }
    ParseIntOfDigitStart(s);
    LeadingRunOfDigits(d, suffix);
    DecimalRoundTrip(n);
  }

  /** Without whitespace, sign or `0x` prefix, `parseInt` reads the leading decimal run. */
  lemma ParseIntOfDigitStart(s: string)
    requires |s| > 0 && IsDigit(s[0])
    requires !(|s| >= 2 && s[0] == '0' && (s[1] == 'x' || s[1] == 'X'))
    ensures ParseIntJs(s) == Some(ValueOf(LeadingRun(s, 10), 10))
  {
    assert !IsSpace(s[0]);
    var t := TrimStart(s);
    assert t == s;
    assert !(|t| > 0 && (t[0] == '-' || t[0] == '+'));
    var run := LeadingRun(s, 10);
    assert run != [] by {
      assert IsRadixDigit(s[0], 10);
    }
  }

  lemma {:induction false} LeadingRunOfDigits(d: string, suffix: string)
    requires AllRadixDigits(d, 10)
    requires suffix == [] || !IsDigit(suffix[0])
    ensures LeadingRun(d + suffix, 10) == d
    decreases |d|
  {
    if |d| > 0 {
      assert (d + suffix)[1..] == d[1..] + suffix;
      LeadingRunOfDigits(d[1..], suffix);
      assert [d[0]] + d[1..] == d;
    } else {
      assert d + suffix == suffix;
    }
  }

  // ------------------------------------------- Python regular expressions

  /** The first index holding a decimal digit. */
  function FirstDigitIndex(s: string): (r: Option<nat>)
    ensures r.None? <==> forall i :: 0 <= i < |s| ==> !IsDigit(s[i])
    ensures r.Some? ==> r.value < |s| && IsDigit(s[r.value])
    ensures r.Some? ==> forall i :: 0 <= i < r.value ==> !IsDigit(s[i])
  {
    if |s| == 0 then None
    else if IsDigit(s[0]) then Some(0)
    else match FirstDigitIndex(s[1..])
      case None => None
      case Some(k) => Some(k + 1)
  }

  /** `re.search(r'(\d+)', s)` followed by `int(m.group(1))`: the value of
      the leftmost maximal digit run, or `None` when `s` has no digit. */
  function FirstNumber(s: string): (r: Option<nat>)
    ensures r.None? <==> forall i :: 0 <= i < |s| ==> !IsDigit(s[i])
  {
    match FirstDigitIndex(s)
    case None => None
    case Some(i) => Some(ValueOf(LeadingRun(s[i..], 10), 10))
  }

  /** The number a message states after digit-free text is what the
      search reads, whatever non-digit text follows it. */
  lemma FirstNumberOfDecimal(prefix: string, n: nat, suffix: string)
    requires forall i :: 0 <= i < |prefix| ==> !IsDigit(prefix[i])
    requires suffix == [] || !IsDigit(suffix[0])
    ensures FirstNumber(prefix + NatToDecimal(n) + suffix) == Some(n)
  {
    var d := NatToDecimal(n);
    var s := prefix + (d + suffix);
    assert s == prefix + d + suffix;
    assert IsRadixDigit(d[0], 10);
    FirstDigitAfter(prefix, d + suffix);
    assert s[|prefix|..] == d + suffix;
    LeadingRunOfDigits(d, suffix);
    DecimalRoundTrip(n);
  }

  lemma FirstDigitAfter(prefix: string, rest: string)
    requires forall i :: 0 <= i < |prefix| ==> !IsDigit(prefix[i])
    requires |rest| > 0 && IsDigit(rest[0])
    ensures FirstDigitIndex(prefix + rest) == Some(|prefix|)
  {
    var s := prefix + rest;
    assert forall i :: 0 <= i < |prefix| ==> s[i] == prefix[i];
    assert s[|prefix|] == rest[0];
  }

  /** `re.search(r'\b\d+\b', s)` / `/\b\d+\b/.test(s)` succeeds: a run of
      digits with no word character directly before or after it. */
  predicate HasStandaloneNumber(s: string) {
    exists i, j ::
      0 <= i < j <= |s| && AllRadixDigits(s[i..j], 10)
      && (i == 0 || !IsWordChar(s[i - 1]))
      && (j == |s| || !IsWordChar(s[j]))
  }

  /** The first of `words`, in list order, that starts at position `i` of `s`. */
  function WordAt(s: string, i: nat, words: seq<string>): (r: Option<string>)
    requires i <= |s|
    ensures r.Some? ==> r.value in words && r.value <= s[i..]
    ensures r.None? ==> forall w :: w in words ==> !(w <= s[i..])
  {
    if words == [] then None
    else if words[0] <= s[i..] then Some(words[0])
    else
      assert forall w :: w in words ==> w == words[0] || w in words[1..];
      WordAt(s, i, words[1..])
  }

  /** A regular expression alternation `(w1|w2|...)` searched from position
      `i` on: the leftmost position where some alternative matches, and the
      first alternative that matches there. */
  function FirstWordFrom(s: string, i: nat, words: seq<string>): (r: Option<(nat, string)>)
    requires i <= |s|
    ensures r.Some? ==> i <= r.value.0 <= |s| && r.value.1 in words && r.value.1 <= s[r.value.0..]
    ensures r.Some? ==> forall q, w :: i <= q < r.value.0 && w in words ==> !(w <= s[q..])
    ensures r.None? ==> forall q, w :: i <= q <= |s| && w in words ==> !(w <= s[q..])
    decreases |s| - i
  {
    match WordAt(s, i, words)
    case Some(w) => Some((i, w))
    case None =>
      if i == |s| then None else FirstWordFrom(s, i + 1, words)
  }
}
