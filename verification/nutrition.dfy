/** Nutrition resolution for the food logger: a fixed table keyed by
    lower-case food name, a strict lookup, a keyword-based estimator that
    never fails, and a substring search over display names. */
module Nutrition {
  import opened Wrappers
  import opened Text
  import Seqs

  /** Macro-nutrients of one serving. `fat` is exact (the table has 0.5 g
      values); the other quantities are whole numbers in the source. */
  datatype NutritionInfo = NutritionInfo(
    name: string,
    carbs: nat,
    protein: nat,
    fat: real,
    calories: nat,
    servingSize: string)

  datatype Entry = Entry(key: string, info: NutritionInfo)

  /** The `nutritionDatabase` object literal, in its declaration order. */
  const Table: seq<Entry> := [
      Entry("dosa", NutritionInfo("Dosa (Plain)", 28, 4, 8.0, 200, "1 medium dosa (100g)")),
      Entry("idli", NutritionInfo("Idli", 12, 2, 1.0, 65, "1 piece (30g)")),
      Entry("sambar", NutritionInfo("Sambar", 15, 6, 3.0, 110, "1 cup (200ml)")),
      Entry("vada", NutritionInfo("Medu Vada", 25, 7, 15.0, 250, "1 piece (80g)")),
      Entry("upma", NutritionInfo("Upma", 35, 5, 8.0, 230, "1 cup (200g)")),
      Entry("rice", NutritionInfo("White Rice (cooked)", 45, 4, 0.5, 205, "1 cup (200g)")),
      Entry("brown rice", NutritionInfo("Brown Rice (cooked)", 45, 5, 2.0, 215, "1 cup (200g)")),
      Entry("chapati", NutritionInfo("Chapati", 15, 3, 3.0, 104, "1 piece (40g)")),
      Entry("roti", NutritionInfo("Roti", 15, 3, 3.0, 104, "1 piece (40g)")),
      Entry("paratha", NutritionInfo("Paratha", 25, 4, 10.0, 200, "1 piece (80g)")),
      Entry("naan", NutritionInfo("Naan", 45, 8, 5.0, 262, "1 piece (90g)")),
      Entry("dal", NutritionInfo("Dal (Lentil Curry)", 20, 9, 5.0, 160, "1 cup (200ml)")),
      Entry("dal tadka", NutritionInfo("Dal Tadka", 22, 10, 8.0, 190, "1 cup (200ml)")),
      Entry("rajma", NutritionInfo("Rajma (Kidney Bean Curry)", 30, 12, 6.0, 220, "1 cup (200g)")),
      Entry("chana masala", NutritionInfo("Chana Masala", 35, 14, 8.0, 270, "1 cup (200g)")),
      Entry("aloo gobi", NutritionInfo("Aloo Gobi", 25, 4, 10.0, 200, "1 cup (200g)")),
      Entry("palak paneer", NutritionInfo("Palak Paneer", 12, 18, 22.0, 320, "1 cup (200g)")),
      Entry("bhindi masala", NutritionInfo("Bhindi Masala (Okra)", 15, 3, 8.0, 140, "1 cup (150g)")),
      Entry("curry", NutritionInfo("Chicken Curry", 10, 25, 15.0, 280, "1 cup (200g)")),
      Entry("chicken curry", NutritionInfo("Chicken Curry", 10, 25, 15.0, 280, "1 cup (200g)")),
      Entry("fish curry", NutritionInfo("Fish Curry", 8, 22, 12.0, 230, "1 cup (200g)")),
      Entry("mutton curry", NutritionInfo("Mutton Curry", 8, 28, 18.0, 310, "1 cup (200g)")),
      Entry("pakora", NutritionInfo("Pakora (Mixed Vegetable)", 15, 3, 12.0, 180, "100g (4-5 pieces)")),
      Entry("samosa", NutritionInfo("Samosa", 30, 5, 15.0, 262, "1 piece (100g)")),
      Entry("yogurt", NutritionInfo("Yogurt (Plain)", 12, 10, 3.0, 110, "1 cup (200g)")),
      Entry("curd", NutritionInfo("Curd", 12, 10, 3.0, 110, "1 cup (200g)")),
      Entry("paneer", NutritionInfo("Paneer", 3, 18, 20.0, 265, "100g")),
      Entry("chai tea", NutritionInfo("Chai Tea (with milk)", 10, 2, 2.0, 60, "1 cup (200ml)")),
      Entry("lassi", NutritionInfo("Lassi", 25, 8, 4.0, 170, "1 glass (250ml)"))
    ]

  /** The display records of `entries`, in order (`Object.values`). */
  function InfosOf(entries: seq<Entry>): (r: seq<NutritionInfo>)
    ensures |r| == |entries|
    ensures forall i :: 0 <= i < |entries| ==> r[i] == entries[i].info
  {
    if entries == [] then [] else [entries[0].info] + InfosOf(entries[1..])
  }

  predicate IsKey(key: string) {
    exists i :: 0 <= i < |Table| && Table[i].key == key
  }

  /** The position of `key` in the table, searching from position `k` on. */
  function KeyIndexFrom(key: string, k: nat): (r: Option<nat>)
    requires k <= |Table|
    ensures r.Some? ==> k <= r.value < |Table| && Table[r.value].key == key
    ensures r.None? ==> forall i :: k <= i < |Table| ==> Table[i].key != key
    decreases |Table| - k
  {
    if k == |Table| then None
    else if Table[k].key == key then Some(k)
    else KeyIndexFrom(key, k + 1)
  }

  /** `nutritionDatabase[key]`: the entry stored under exactly `key`. */
  function Lookup(key: string): (r: Option<NutritionInfo>)
    ensures r.None? <==> !IsKey(key)
    ensures r.Some? ==> exists i :: 0 <= i < |Table| && Table[i] == Entry(key, r.value)
  {
    match KeyIndexFrom(key, 0)
    case None => None
    case Some(i) => Some(Table[i].info)
  }

  /** `getNutritionInfo`: the strict lookup under the lower-cased, trimmed
      name, `None` (the source's `null`) exactly when that key is absent. */
  function GetNutritionInfo(foodName: string): (r: Option<NutritionInfo>)
    ensures r.None? <==> !IsKey(Normalize(foodName))
    ensures r.Some? ==> exists i :: 0 <= i < |Table| && Table[i] == Entry(Normalize(foodName), r.value)
  {
    Lookup(Normalize(foodName))
  }

  /** The strict lookup is blind to ASCII case and surrounding whitespace:
      the normalized spelling resolves exactly like the original. */
  lemma LookupIgnoresCaseAndSpace(foodName: string)
    ensures GetNutritionInfo(Normalize(foodName)) == GetNutritionInfo(foodName)
    ensures GetNutritionInfo("  " + Normalize(foodName) + " ") == GetNutritionInfo(foodName)
  {
    NormalizeIdempotent(foodName);
    NormalizePadded(Normalize(foodName));
  }

  lemma NormalizePadded(n: string)
    requires HasNoUpper(n) && HasNoOuterSpace(n)
    ensures Normalize("  " + n + " ") == n
  {
    var padded := "  " + n + " ";
    assert forall i :: 0 <= i < |n| ==> padded[i + 2] == n[i];
    assert HasNoUpper(padded);
    LowerOfLowerCase(padded);
    PaddingTrimmed(n);
  }

  lemma PaddingTrimmed(n: string)
    requires HasNoOuterSpace(n)
    ensures Trim("  " + n + " ") == n
  {
    var p := "  " + n + " ";
    assert p[1..] == " " + n + " ";
    assert p[2..] == n + " ";
    if n == [] {
      assert IsBlank(p);
    } else {
      assert TrimStart(p) == TrimStart(p[1..]);
      assert TrimStart(p[1..]) == TrimStart(p[2..]);
      assert TrimStart(p) == n + " ";
      assert (n + " ")[..|n|] == n;
      assert TrimEnd(n + " ") == n;
    }
  }

  // ----------------------------------------------------------- estimation

  /** The keyword categories of `estimateNutritionInfo`, in test order. */
  datatype Category = Grain | MeatFish | Legume | Vegetable | Fruit | Dairy | FatOil | NutSeed | Generic

  const Priority: seq<Category> := [Grain, MeatFish, Legume, Vegetable, Fruit, Dairy, FatOil, NutSeed]

  /** Position of a category in the test order; `Generic` comes last. */
  function Rank(c: Category): (r: nat)
    ensures r < |Priority| ==> Priority[r] == c
    ensures r == |Priority| <==> c == Generic
  {
    match c
    case Grain => 0
    case MeatFish => 1
    case Legume => 2
    case Vegetable => 3
    case Fruit => 4
    case Dairy => 5
    case FatOil => 6
    case NutSeed => 7
    case Generic => 8
  }

  function Keywords(c: Category): seq<string> {
    match c
    case Grain => ["rice", "bread", "pasta", "noodle"]
    case MeatFish => ["chicken", "fish", "meat", "turkey", "beef", "pork"]
    case Legume => ["dal", "lentil", "bean", "legume"]
    case Vegetable => ["vegetable", "veggie", "broccoli", "carrot", "spinach"]
    case Fruit => ["fruit", "apple", "banana", "orange"]
    case Dairy => ["milk", "yogurt", "cheese", "paneer"]
    case FatOil => ["oil", "butter", "ghee", "cream"]
    case NutSeed => ["nut", "seed", "avocado"]
    case Generic => []
  }

  predicate Mentions(name: string, c: Category) {
    ContainsAny(name, Keywords(c))
  }

  datatype Macros = Macros(carbs: nat, protein: nat, fat: real, calories: nat)

  /** The coarse per-category estimate. */
  function Profile(c: Category): Macros {
    match c
    case Grain => Macros(45, 4, 1.0, 200)
    case MeatFish => Macros(0, 25, 10.0, 200)
    case Legume => Macros(30, 12, 1.0, 150)
    case Vegetable => Macros(10, 2, 0.5, 50)
    case Fruit => Macros(25, 1, 0.5, 100)
    case Dairy => Macros(10, 8, 5.0, 120)
    case FatOil => Macros(0, 0, 15.0, 135)
    case NutSeed => Macros(5, 5, 15.0, 180)
    case Generic => Macros(20, 5, 5.0, 150)
  }

  function CategorizeFrom(name: string, k: nat): (c: Category)
    requires k <= |Priority|
    ensures Rank(c) >= k
    ensures c != Generic ==> Mentions(name, c)
    ensures forall j :: k <= j < Rank(c) ==> !Mentions(name, Priority[j])
    decreases |Priority| - k
  {
    if k == |Priority| then Generic
    else if Mentions(name, Priority[k]) then Priority[k]
    else CategorizeFrom(name, k + 1)
  }

  /** The `if / else if` chain of the estimator: the first category, in
      priority order, one of whose keywords occurs in `name`. */
  function Categorize(name: string): (c: Category)
    ensures c != Generic ==> Mentions(name, c)
    ensures forall d :: Rank(d) < Rank(c) ==> !Mentions(name, d)
  {
    var c := CategorizeFrom(name, 0);
    assert forall d :: Rank(d) < Rank(c) ==> Priority[Rank(d)] == d;
    c
  }

  function MacrosOf(info: NutritionInfo): Macros {
    Macros(info.carbs, info.protein, info.fat, info.calories)
  }

  const ApproximateServing := "1 serving (approximate)"

  /** `estimateNutritionInfo`: never fails; a table hit is returned as
      stored, a miss gets the profile of the first matching category, the
      original name with its first character upper-cased, and the
      approximate serving size. */
  function EstimateNutritionInfo(foodName: string): (r: NutritionInfo)
    ensures GetNutritionInfo(foodName).Some? ==> r == GetNutritionInfo(foodName).value
    ensures GetNutritionInfo(foodName).None? ==>
      && r.name == UpperFirst(foodName)
      && r.servingSize == ApproximateServing
      && MacrosOf(r) == Profile(Categorize(Normalize(foodName)))
  {
    var normalized := Normalize(foodName);
    match Lookup(normalized)
    case Some(info) => info
    case None =>
      var m := Profile(Categorize(normalized));
      NutritionInfo(UpperFirst(foodName), m.carbs, m.protein, m.fat, m.calories, ApproximateServing)
  }

  /** Every estimate is either a stored table record or carries one of the
      nine fixed category profiles, and its fat is never negative. */
  lemma {:induction false} EstimateIsTableOrProfile(foodName: string)
    ensures var r := EstimateNutritionInfo(foodName);
      && r.fat >= 0.0
      && ((exists i :: 0 <= i < |Table| && Table[i].info == r)
          || (exists c: Category :: MacrosOf(r) == Profile(c)))
  {
    var r := EstimateNutritionInfo(foodName);
    var found := GetNutritionInfo(foodName);
    if found.Some? {
      assert r == found.value;
      var i :| 0 <= i < |Table| && Table[i] == Entry(Normalize(foodName), r);
      TableFatNonNegative(i);
    } else {
      ProfileFatNonNegative(Categorize(Normalize(foodName)));
    }
  }

  lemma ProfileFatNonNegative(c: Category)
    ensures Profile(c).fat >= 0.0
  {
  }

  lemma TableFatNonNegative(i: nat)
    requires i < |Table|
    ensures Table[i].info.fat >= 0.0
  {
  }

  /** A name that misses the table is estimated by the earliest category it
      mentions, whatever later categories it also mentions. */
  lemma EarliestCategoryWins(foodName: string, c: Category)
    requires !IsKey(Normalize(foodName))
    requires Mentions(Normalize(foodName), c)
    requires forall d :: Rank(d) < Rank(c) ==> !Mentions(Normalize(foodName), d)
    ensures MacrosOf(EstimateNutritionInfo(foodName)) == Profile(c)
    ensures EstimateNutritionInfo(foodName).name == UpperFirst(foodName)
  {
    var n := Normalize(foodName);
    var e := Categorize(n);
    assert Rank(e) == Rank(c);
  }

  /** On a miss the earliest category wins: "chicken rice" mentions both a
      meat and a grain and is estimated as a grain. */
  lemma ChickenRiceIsGrain(name: string)
    requires name == "chicken rice"
    ensures MacrosOf(EstimateNutritionInfo(name)) == Macros(45, 4, 1.0, 200)
    ensures EstimateNutritionInfo(name).name == "Chicken rice"
  {
    ChickenRiceNormal();
    ChickenRiceMisses();
    ChickenRiceMentionsGrain(name);
    EarliestCategoryWins(name, Grain);
  }

  lemma ChickenRiceMentionsGrain(name: string)
    requires name == "chicken rice"
    ensures Mentions(name, Grain)
    ensures UpperFirst(name) == "Chicken rice"
  {
    assert OccursAt(name, "rice", 8);
    assert "rice" in Keywords(Grain);
  }

  lemma ChickenRiceNormal()
    ensures Normalize("chicken rice") == "chicken rice"
  {
    var n := "chicken rice";
    assert HasNoUpper(n);
    LowerOfLowerCase(n);
    assert HasNoOuterSpace(n);
  }

  lemma ChickenRiceMisses()
    ensures !IsKey("chicken rice")
  {
    forall i | 0 <= i < |Table|
      ensures Table[i].key != "chicken rice"
    {
      var k := Table[i].key;
      assert |k| != 12 || k[0] != 'c' || k[1] != 'h' || k[8] != 'r';
    }
  }

  // ---------------------------------------------------------------- search

  /** The search test: the lower-cased display name contains `q`. */
  predicate NameMatches(info: NutritionInfo, q: string) {
    Contains(Lower(info.name), q)
  }

  /** The entries of `entries` whose name matches `q`: each matching entry
      as often as it occurs there, and no other. */
  function SearchIn(entries: seq<Entry>, q: string): (r: seq<Entry>)
    ensures |r| <= |entries|
    ensures forall i :: 0 <= i < |r| ==> r[i] in entries && NameMatches(r[i].info, q)
    ensures forall k :: 0 <= k < |entries| && NameMatches(entries[k].info, q) ==> entries[k] in r
  {
    Seqs.Filter(entries, (e: Entry) => NameMatches(e.info, q))
  }

  /** The search keeps each matching entry as often as it occurs, and drops
      every other. */
  lemma SearchInCount(entries: seq<Entry>, q: string)
    ensures forall e :: multiset(SearchIn(entries, q))[e] == if NameMatches(e.info, q) then multiset(entries)[e] else 0
  {
    var keep := (e: Entry) => NameMatches(e.info, q);
    assert SearchIn(entries, q) == Seqs.Filter(entries, keep);
    Seqs.FilterCount(entries, keep);
  }

  /** The search keeps the order of the list it searches: searching a
      concatenation searches each part in turn. */
  lemma SearchInConcat(a: seq<Entry>, b: seq<Entry>, q: string)
    ensures SearchIn(a + b, q) == SearchIn(a, q) + SearchIn(b, q)
  {
    Seqs.FilterConcat(a, b, (e: Entry) => NameMatches(e.info, q));
  }

  /** A one-entry list is kept exactly when its entry matches; with
      `SearchInConcat` this fixes the result as the matching entries in
      list order. */
  lemma SearchInSingle(e: Entry, q: string)
    ensures SearchIn([e], q) == if NameMatches(e.info, q) then [e] else []
  {
    assert [e][..0] == [];
  }

  /** The display records keep that order too. */
  lemma InfosMatchingConcat(a: seq<Entry>, b: seq<Entry>, q: string)
    ensures InfosMatching(a + b, q) == InfosMatching(a, q) + InfosMatching(b, q)
  {
    SearchInConcat(a, b, q);
    InfosOfConcat(SearchIn(a, q), SearchIn(b, q));
  }

  lemma {:induction false} InfosOfConcat(a: seq<Entry>, b: seq<Entry>)
    ensures InfosOf(a + b) == InfosOf(a) + InfosOf(b)
  {
    var l := InfosOf(a + b);
    var r := InfosOf(a) + InfosOf(b);
    assert |l| == |r|;
    forall i | 0 <= i < |l|
      ensures l[i] == r[i]
    {
      if i < |a| {
        assert (a + b)[i] == a[i];
      } else {
        assert (a + b)[i] == b[i - |a|];
      }
    }
  }

  /** The table entries `searchNutrition` keeps, in table order. */
  function SearchEntries(query: string): (r: seq<Entry>)
    ensures |r| <= |Table|
    ensures forall i :: 0 <= i < |r| ==> r[i] in Table && NameMatches(r[i].info, Normalize(query))
    ensures forall k :: 0 <= k < |Table| && NameMatches(Table[k].info, Normalize(query)) ==> Table[k] in r
  {
    SearchIn(Table, Normalize(query))
  }

  /** `searchNutrition` returns every matching table entry exactly as often
      as the table holds it. */
  lemma SearchEntriesCount(query: string, e: Entry)
    ensures multiset(SearchEntries(query))[e] == if NameMatches(e.info, Normalize(query)) then multiset(Table)[e] else 0
  {
    SearchInCount(Table, Normalize(query));
  }

  /** The display records of the entries that match `q`, one per kept entry. */
  function InfosMatching(entries: seq<Entry>, q: string): (r: seq<NutritionInfo>)
    ensures |r| == |SearchIn(entries, q)|
    ensures forall i :: 0 <= i < |r| ==> NameMatches(r[i], q)
    ensures forall k :: 0 <= k < |entries| && NameMatches(entries[k].info, q) ==> entries[k].info in r
  {
    var hits := SearchIn(entries, q);
    var r := InfosOf(hits);
    forall k | 0 <= k < |entries| && NameMatches(entries[k].info, q)
      ensures entries[k].info in r
    {
      var e := entries[k];
      assert e in hits;
      var j :| 0 <= j < |hits| && hits[j] == e;
      assert r[j] == e.info;
    }
    r
  }

  /** `searchNutrition`: the display records of the kept entries, so every
      result matches the query, every matching record is among them, and
      there is one result per kept entry. */
  function SearchNutrition(query: string): (r: seq<NutritionInfo>)
    ensures |r| == |SearchEntries(query)|
    ensures forall i :: 0 <= i < |r| ==> NameMatches(r[i], Normalize(query))
    ensures forall k :: 0 <= k < |Table| && NameMatches(Table[k].info, Normalize(query)) ==> Table[k].info in r
  {
    InfosMatching(Table, Normalize(query))
  }

  /** An empty or blank query matches every record. */
  lemma SearchBlankReturnsAll(query: string)
    requires IsBlank(query)
    ensures SearchNutrition(query) == InfosOf(Table)
  {
    assert IsBlank(Lower(query));
    assert Normalize(query) == [];
    var keep := (e: Entry) => NameMatches(e.info, Normalize(query));
    forall i | 0 <= i < |Table|
      ensures keep(Table[i])
    {
      ContainsEmpty(Lower(Table[i].info.name));
    }
    Seqs.FilterKeepsAll(Table, keep);
  }
}
