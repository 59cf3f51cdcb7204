/** The food logger widget: a text input, a list of logged food names
    with no repeats, and a nutrition summary that nothing ever updates. */
module FoodLogger {

  datatype Summary = Summary(carbs: nat, protein: nat, fat: nat, calories: nat)

  /** The initial summary; the component keeps it in state without a setter. */
  const ZeroSummary := Summary(0, 0, 0, 0)

  /** The quick-pick chips under the input. */
  const CommonFoods: seq<string> := ["dosa", "idli", "rice", "dal", "chapati", "sambar", "curry", "yogurt"]

  datatype Logger = Logger(input: string, foods: seq<string>, summary: Summary)

  const Initial := Logger("", [], ZeroSummary)

  /** The logged list holds every food at most once. */
  predicate Distinct(foods: seq<string>) {
    forall i, j :: 0 <= i < j < |foods| ==> foods[i] != foods[j]
  }

  /** `handleAddFood`: the empty text and a food already logged change
      nothing; any other food is appended and the input is cleared. */
  function AddFood(st: Logger, food: string): (r: Logger)
    ensures food == "" || food in st.foods ==> r == st
    ensures food != "" && food !in st.foods ==>
      r.foods == st.foods + [food] && r.input == "" && r.summary == st.summary
    ensures Distinct(st.foods) ==> Distinct(r.foods)
  {
    if food != "" && food !in st.foods then st.(foods := st.foods + [food], input := "")
    else st
  }

  /** `loggedFoods.filter((_, i) => i !== index)`: the list without the
      element at `index`; an index outside the list removes nothing. */
  function RemoveAt(foods: seq<string>, index: int): (r: seq<string>)
    ensures 0 <= index < |foods| ==> r == foods[..index] + foods[index + 1..]
    ensures !(0 <= index < |foods|) ==> r == foods
    decreases |foods|
  {
    if foods == [] then []
    else (if index == 0 then [] else [foods[0]]) + RemoveAt(foods[1..], index - 1)
  }

  /** Removing keeps the list free of repeats and drops exactly one
      occurrence of the removed food. */
  lemma RemoveKeepsDistinct(foods: seq<string>, index: int)
    requires Distinct(foods)
    requires 0 <= index < |foods|
    ensures Distinct(RemoveAt(foods, index))
    ensures foods[index] !in RemoveAt(foods, index)
    ensures multiset(RemoveAt(foods, index)) + multiset{foods[index]} == multiset(foods)
  {
    WithoutFacts(foods, index);
  }

  /** The facts about `foods` with position `index` cut out. */
  lemma WithoutFacts(foods: seq<string>, index: int)
    requires 0 <= index < |foods|
    ensures var rest := foods[..index] + foods[index + 1..];
      && multiset(rest) + multiset{foods[index]} == multiset(foods)
      && (Distinct(foods) ==> Distinct(rest) && foods[index] !in rest)
  {
    var front, back := foods[..index], foods[index + 1..];
    var rest := front + back;
    assert foods == front + [foods[index]] + back;
    assert multiset(foods) == multiset(front) + multiset([foods[index]]) + multiset(back);
    assert forall k :: 0 <= k < |rest| ==> rest[k] == foods[if k < index then k else k + 1];
  }

  /** What the user can do with the widget. */
  datatype Action =
    | Type(text: string)     // edit the input box
    | Submit                 // Enter key or the add button
    | Pick(food: string)     // a quick-pick chip
    | Remove(index: int)     // the remove button of one row

  function Step(st: Logger, a: Action): (r: Logger)
    ensures r.summary == st.summary
    ensures Distinct(st.foods) ==> Distinct(r.foods)
  {
    match a
    case Type(text) => st.(input := text)
    case Submit => AddFood(st, st.input)
    case Pick(food) => AddFood(st, food)
    case Remove(index) =>
      assert Distinct(st.foods) ==> Distinct(RemoveAt(st.foods, index)) by {
        if Distinct(st.foods) && 0 <= index < |st.foods| {
          RemoveKeepsDistinct(st.foods, index);
        }
      }
      st.(foods := RemoveAt(st.foods, index))
  }

  function Run(st: Logger, actions: seq<Action>): Logger
    decreases |actions|
  {
    if actions == [] then st else Run(Step(st, actions[0]), actions[1..])
  }

  /** Whatever the user does, the log never holds a food twice and the
      summary stays 0 g / 0 g / 0 g / 0 kcal. */
  lemma {:induction false} RunInvariant(st: Logger, actions: seq<Action>)
    requires Distinct(st.foods) && st.summary == ZeroSummary
    ensures Distinct(Run(st, actions).foods)
    ensures Run(st, actions).summary == ZeroSummary
    decreases |actions|
  {
    if actions != [] {
      RunInvariant(Step(st, actions[0]), actions[1..]);
    }
  }

  /** Adding a food and then removing its row restores the list. */
  lemma AddThenRemove(st: Logger, food: string)
    requires food != "" && food !in st.foods
    ensures RemoveAt(AddFood(st, food).foods, |st.foods|) == st.foods
  {
    var foods := AddFood(st, food).foods;
    assert foods[..|st.foods|] == st.foods;
  }
}
