/** The entry records the tracker stores (the `Meal` and `Workout` classes
    of js/app.js) and the sums over lists of them that the tracker's running
    totals must equal.
 */
module Entries {

  datatype Option<T> = None | Some(value: T)

  /** JavaScript's `x ?? 0` on a value that may be `undefined`. */
  function OrZero(o: Option<int>): (r: int)
    ensures o.None? ==> r == 0
    ensures o.Some? ==> r == o.value
  {
    match o
    case None => 0
    case Some(v) => v
  }

  /** The optional macros object handed to the `Meal` constructor; a key
      that is not present reads as `undefined`. */
  type Macros = map<string, int>

  function Lookup(macros: Macros, key: string): (r: Option<int>)
    ensures r.Some? <==> key in macros
    ensures r.Some? ==> r.value == macros[key]
  {
    if key in macros then Some(macros[key]) else None
  }

  /** A logged meal. The id is opaque: the source draws it at random. */
  datatype Meal = Meal(
    id: string,
    name: string,
    calories: int,
    protein: Option<int>,
    fat: Option<int>,
    carbohydrate: Option<int>)

  /** A logged workout. */
  datatype Workout = Workout(id: string, name: string, calories: int)

  /** The four quantities the tracker accumulates over meals. */
  datatype Nutrient = Calories | Protein | Fat | Carbohydrate

  /** How much one meal adds to the running total of `n`: its calories, or
      the macro with an absent value counted as 0. */
  function Amount(m: Meal, n: Nutrient): (r: int)
  {
    match n
    case Calories => m.calories
    case Protein => OrZero(m.protein)
    case Fat => OrZero(m.fat)
    case Carbohydrate => OrZero(m.carbohydrate)
  }

  /** `new Meal(name, calories, macros)` with the random id supplied by the
      caller. Each macro a key of `macros` supplies is kept, every other one
      is absent, and the tracker will count an absent one as 0. The default
      `macros = {}` makes `new Meal(name, calories)` the same as
      `NewMeal(id, name, calories, map[])`. */
  function NewMeal(id: string, name: string, calories: int, macros: Macros): (m: Meal)
    ensures m.id == id && m.name == name && m.calories == calories
    ensures m.protein.Some? <==> "protein" in macros
    ensures m.fat.Some? <==> "fat" in macros
    ensures m.carbohydrate.Some? <==> "carbohydrate" in macros
    ensures Amount(m, Calories) == calories
    ensures Amount(m, Protein) == if "protein" in macros then macros["protein"] else 0
    ensures Amount(m, Fat) == if "fat" in macros then macros["fat"] else 0
    ensures Amount(m, Carbohydrate) == if "carbohydrate" in macros then macros["carbohydrate"] else 0
  {
    Meal(id, name, calories,
         Lookup(macros, "protein"), Lookup(macros, "fat"), Lookup(macros, "carbohydrate"))
  }

  /** `new Workout(name, calories)` with the random id supplied by the caller. */
  function NewWorkout(id: string, name: string, calories: int): (w: Workout)
    ensures w.id == id && w.name == name && w.calories == calories
  {
    Workout(id, name, calories)
  }

  /** Sum of `n` over a list of meals. */
  function Total(meals: seq<Meal>, n: Nutrient): (r: int)
  {
    if meals == [] then 0 else Amount(meals[0], n) + Total(meals[1..], n)
  }

  /** Sum of calories over a list of workouts. */
  function Burned(workouts: seq<Workout>): (r: int)
  {
    if workouts == [] then 0 else workouts[0].calories + Burned(workouts[1..])
  }

  lemma {:induction false} TotalAppend(a: seq<Meal>, b: seq<Meal>, n: Nutrient)
    ensures Total(a + b, n) == Total(a, n) + Total(b, n)
  {
    if a == [] {
      assert a + b == b;
    } else {
      assert (a + b)[1..] == a[1..] + b;
      TotalAppend(a[1..], b, n);
    }
  }

  /** Appending a meal raises every total by exactly that meal's amount. */
  lemma TotalPush(meals: seq<Meal>, m: Meal, n: Nutrient)
    ensures Total(meals + [m], n) == Total(meals, n) + Amount(m, n)
  {
    TotalAppend(meals, [m], n);
    assert [m][1..] == [];
  }

  lemma {:induction false} BurnedAppend(a: seq<Workout>, b: seq<Workout>)
    ensures Burned(a + b) == Burned(a) + Burned(b)
  {
    if a == [] {
      assert a + b == b;
    } else {
      assert (a + b)[1..] == a[1..] + b;
      BurnedAppend(a[1..], b);
    }
  }

  /** Appending a workout raises the burned total by exactly its calories. */
  lemma BurnedPush(workouts: seq<Workout>, w: Workout)
    ensures Burned(workouts + [w]) == Burned(workouts) + w.calories
  {
    BurnedAppend(workouts, [w]);
    assert [w][1..] == [];
  }
}
