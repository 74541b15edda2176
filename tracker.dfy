/** The `CalorieTracker` class of js/app.js: a calorie limit, running totals
    over the logged meals and workouts, and two derived fields, balance and
    remaining, that every mutation recomputes from the totals.

    `Snapshot` is the value of all ten fields at one moment. The pure
    functions on snapshots (`Initial`, `Recalculated`, `AfterAddMeal`,
    `AfterAddWorkout`) specify the class's constructor and methods, and the
    lemmas below prove what the tracker promises about them.
 */
module Tracker {
  import opened Entries

  datatype Snapshot = Snapshot(
    calorieLimit: int,
    calorieBalance: int,
    caloriesConsumed: int,
    caloriesBurned: int,
    caloriesRemaining: int,
    meals: seq<Meal>,
    workouts: seq<Workout>,
    totalProtein: int,
    totalFat: int,
    totalCarbohydrate: int)

  /** What `addMeal` may be handed: a real `Meal` instance, or anything else
      (which fails its `instanceof Meal` test). */
  datatype MealArg = IsMeal(meal: Meal) | NotAMeal

  const DefaultLimit: int := 2000

  /** The tracker's invariant: every running total is the sum over its
      list, and the derived fields agree with the totals and the limit. */
  predicate Consistent(s: Snapshot)
  {
    && s.caloriesConsumed == Total(s.meals, Calories)
    && s.totalProtein == Total(s.meals, Protein)
    && s.totalFat == Total(s.meals, Fat)
    && s.totalCarbohydrate == Total(s.meals, Carbohydrate)
    && s.caloriesBurned == Burned(s.workouts)
    && s.calorieBalance == s.caloriesConsumed - s.caloriesBurned
    && s.caloriesRemaining == s.calorieLimit - s.calorieBalance
  }

  /** The state the constructor builds. */
  function Initial(): (s: Snapshot)
  {
    Snapshot(DefaultLimit, 0, 0, 0, DefaultLimit, [], [], 0, 0, 0)
  }

  /** `_calculateCaloriesConsumedAndBurned`: full recompute of the two
      derived fields; nothing else changes. */
  function Recalculated(s: Snapshot): (r: Snapshot)
  {
    s.(calorieBalance := s.caloriesConsumed - s.caloriesBurned,
       caloriesRemaining := s.calorieLimit - (s.caloriesConsumed - s.caloriesBurned))
  }

  /** `addMeal`: a real meal is appended and its calories and macros are
      added to the totals (absent macros as 0); anything else changes
      nothing. The derived fields are recomputed in both cases. */
  function AfterAddMeal(s: Snapshot, arg: MealArg): (r: Snapshot)
  {
    match arg
    case IsMeal(m) =>
      Recalculated(s.(meals := s.meals + [m],
                      caloriesConsumed := s.caloriesConsumed + m.calories,
                      totalProtein := s.totalProtein + OrZero(m.protein),
                      totalFat := s.totalFat + OrZero(m.fat),
                      totalCarbohydrate := s.totalCarbohydrate + OrZero(m.carbohydrate)))
    case NotAMeal => Recalculated(s)
  }

  /** `addWorkout`: append, add the calories burned, recompute. */
  function AfterAddWorkout(s: Snapshot, w: Workout): (r: Snapshot)
  {
    Recalculated(s.(workouts := s.workouts + [w],
                    caloriesBurned := s.caloriesBurned + w.calories))
  }

  /** The freshly built tracker: limit 2000, everything else zero or empty,
      remaining equal to the limit, and the invariant holds. */
  lemma InitialState()
    ensures Initial().calorieLimit == 2000
    ensures Initial().calorieBalance == 0
    ensures Initial().caloriesConsumed == 0 && Initial().caloriesBurned == 0
    ensures Initial().caloriesRemaining == Initial().calorieLimit
    ensures Initial().meals == [] && Initial().workouts == []
    ensures Initial().totalProtein == 0 && Initial().totalFat == 0 && Initial().totalCarbohydrate == 0
    ensures Consistent(Initial())
  {
  }

  /** After the recompute, balance is consumed minus burned and remaining
      is the limit minus the balance, whatever the fields held before; the
      limit, the totals and the lists are untouched. */
  lemma RecalculatedDerived(s: Snapshot)
    ensures Recalculated(s).calorieBalance == s.caloriesConsumed - s.caloriesBurned
    ensures Recalculated(s).caloriesRemaining == s.calorieLimit - Recalculated(s).calorieBalance
    ensures Recalculated(s).(calorieBalance := s.calorieBalance,
                             caloriesRemaining := s.caloriesRemaining) == s
  {
  }

  /** What `addMeal` does to each field. */
  lemma AddMealEffect(s: Snapshot, arg: MealArg)
    ensures arg.IsMeal? ==>
      && AfterAddMeal(s, arg).meals == s.meals + [arg.meal]
      && AfterAddMeal(s, arg).caloriesConsumed == s.caloriesConsumed + arg.meal.calories
      && AfterAddMeal(s, arg).totalProtein == s.totalProtein + Amount(arg.meal, Protein)
      && AfterAddMeal(s, arg).totalFat == s.totalFat + Amount(arg.meal, Fat)
      && AfterAddMeal(s, arg).totalCarbohydrate == s.totalCarbohydrate + Amount(arg.meal, Carbohydrate)
    ensures arg.NotAMeal? ==>
      && AfterAddMeal(s, arg).meals == s.meals
      && AfterAddMeal(s, arg).caloriesConsumed == s.caloriesConsumed
      && AfterAddMeal(s, arg).totalProtein == s.totalProtein
      && AfterAddMeal(s, arg).totalFat == s.totalFat
      && AfterAddMeal(s, arg).totalCarbohydrate == s.totalCarbohydrate
    ensures AfterAddMeal(s, arg).workouts == s.workouts
    ensures AfterAddMeal(s, arg).caloriesBurned == s.caloriesBurned
    ensures AfterAddMeal(s, arg).calorieLimit == s.calorieLimit
    ensures AfterAddMeal(s, arg).calorieBalance
         == AfterAddMeal(s, arg).caloriesConsumed - AfterAddMeal(s, arg).caloriesBurned
    ensures AfterAddMeal(s, arg).caloriesRemaining
         == AfterAddMeal(s, arg).calorieLimit - AfterAddMeal(s, arg).calorieBalance
  {
  }

  /** What `addWorkout` does to each field. */
  lemma AddWorkoutEffect(s: Snapshot, w: Workout)
    ensures AfterAddWorkout(s, w).workouts == s.workouts + [w]
    ensures AfterAddWorkout(s, w).caloriesBurned == s.caloriesBurned + w.calories
    ensures AfterAddWorkout(s, w).meals == s.meals
    ensures AfterAddWorkout(s, w).caloriesConsumed == s.caloriesConsumed
    ensures AfterAddWorkout(s, w).totalProtein == s.totalProtein
    ensures AfterAddWorkout(s, w).totalFat == s.totalFat
    ensures AfterAddWorkout(s, w).totalCarbohydrate == s.totalCarbohydrate
    ensures AfterAddWorkout(s, w).calorieLimit == s.calorieLimit
    ensures AfterAddWorkout(s, w).calorieBalance
         == AfterAddWorkout(s, w).caloriesConsumed - AfterAddWorkout(s, w).caloriesBurned
    ensures AfterAddWorkout(s, w).caloriesRemaining
         == AfterAddWorkout(s, w).calorieLimit - AfterAddWorkout(s, w).calorieBalance
  {
  }

  /** `addMeal` keeps every total equal to the sum over the meal list. */
  lemma AddMealKeepsConsistent(s: Snapshot, arg: MealArg)
    requires Consistent(s)
    ensures Consistent(AfterAddMeal(s, arg))
  {
    if arg.IsMeal? {
      TotalPush(s.meals, arg.meal, Calories);
      TotalPush(s.meals, arg.meal, Protein);
      TotalPush(s.meals, arg.meal, Fat);
      TotalPush(s.meals, arg.meal, Carbohydrate);
    }
  }

  /** `addWorkout` keeps the burned total equal to the sum over workouts. */
  lemma AddWorkoutKeepsConsistent(s: Snapshot, w: Workout)
    requires Consistent(s)
    ensures Consistent(AfterAddWorkout(s, w))
  {
    BurnedPush(s.workouts, w);
  }

  /** In a consistent state the limit and the two lists determine every
      other field: the totals and the derived fields cannot drift. */
  lemma ConsistentDeterminedByLists(s: Snapshot, t: Snapshot)
    requires Consistent(s) && Consistent(t)
    requires s.calorieLimit == t.calorieLimit && s.meals == t.meals && s.workouts == t.workouts
    ensures s == t
  {
  }

  /** One call on the tracker, and the state after a sequence of them. */
  datatype Step = MealStep(arg: MealArg) | WorkoutStep(workout: Workout)

  function Run(s: Snapshot, steps: seq<Step>): (r: Snapshot)
    decreases |steps|
  {
    if steps == [] then s
    else
      var t := match steps[0]
               case MealStep(arg) => AfterAddMeal(s, arg)
               case WorkoutStep(w) => AfterAddWorkout(s, w);
      Run(t, steps[1..])
  }

  /** Every sequence of `addMeal`/`addWorkout` calls keeps the invariant
      and never changes the limit. */
  lemma {:induction false} RunKeepsConsistent(s: Snapshot, steps: seq<Step>)
    requires Consistent(s)
    ensures Consistent(Run(s, steps))
    ensures Run(s, steps).calorieLimit == s.calorieLimit
    decreases |steps|
  {
    if steps != [] {
      match steps[0]
      case MealStep(arg) =>
        AddMealKeepsConsistent(s, arg);
        RunKeepsConsistent(AfterAddMeal(s, arg), steps[1..]);
      case WorkoutStep(w) =>
        AddWorkoutKeepsConsistent(s, w);
        RunKeepsConsistent(AfterAddWorkout(s, w), steps[1..]);
    }
  }

  /** From the initial state, a 400-calorie meal with 20 g protein gives
      consumed 400, protein 20, balance 400 and remaining 1600; a following
      300-calorie workout gives burned 300, balance 100 and remaining 1900. */
  lemma WorkedExample(breakfast: Meal, run: Workout)
    requires breakfast.calories == 400 && breakfast.protein == Some(20)
    requires run.calories == 300
    ensures var s1 := AfterAddMeal(Initial(), IsMeal(breakfast));
      && s1.caloriesConsumed == 400 && s1.totalProtein == 20
      && s1.calorieBalance == 400 && s1.caloriesRemaining == 1600
    ensures var s2 := AfterAddWorkout(AfterAddMeal(Initial(), IsMeal(breakfast)), run);
      && s2.caloriesBurned == 300 && s2.caloriesConsumed == 400
      && s2.calorieBalance == 100 && s2.caloriesRemaining == 1900
  {
  }

  class CalorieTracker {
    var calorieLimit: int
    var calorieBalance: int
    var caloriesConsumed: int
    var caloriesBurned: int
    var caloriesRemaining: int
    var meals: seq<Meal>
    var workouts: seq<Workout>
    var totalProtein: int
    var totalFat: int
    var totalCarbohydrate: int

    /** The current value of all fields. */
    function State(): (s: Snapshot)
      reads this
    {
      Snapshot(calorieLimit, calorieBalance, caloriesConsumed, caloriesBurned,
               caloriesRemaining, meals, workouts, totalProtein, totalFat,
               totalCarbohydrate)
    }

    predicate Valid()
      reads this
    {
      Consistent(State())
    }

    constructor ()
      ensures State() == Initial()
      ensures Valid()
    {
      calorieLimit := DefaultLimit;
      calorieBalance := 0;
      caloriesConsumed := 0;
      caloriesBurned := 0;
      caloriesRemaining := calorieLimit;
      meals := [];
      workouts := [];
      totalProtein := 0;
      totalFat := 0;
      totalCarbohydrate := 0;
    }

    method AddMeal(arg: MealArg)
      modifies this
      ensures State() == AfterAddMeal(old(State()), arg)
      ensures arg.IsMeal? ==>
        && meals == old(meals) + [arg.meal]
        && caloriesConsumed == old(caloriesConsumed) + arg.meal.calories
        && totalProtein == old(totalProtein) + Amount(arg.meal, Protein)
        && totalFat == old(totalFat) + Amount(arg.meal, Fat)
        && totalCarbohydrate == old(totalCarbohydrate) + Amount(arg.meal, Carbohydrate)
      ensures arg.NotAMeal? ==>
        && meals == old(meals) && caloriesConsumed == old(caloriesConsumed)
        && totalProtein == old(totalProtein) && totalFat == old(totalFat)
        && totalCarbohydrate == old(totalCarbohydrate)
      ensures workouts == old(workouts) && caloriesBurned == old(caloriesBurned)
      ensures calorieLimit == old(calorieLimit)
      ensures calorieBalance == caloriesConsumed - caloriesBurned
      ensures caloriesRemaining == calorieLimit - calorieBalance
      ensures old(Valid()) ==> Valid()
    {
      ghost var before := State();
      if arg.IsMeal? {
        var meal := arg.meal;
        meals := meals + [meal];
        caloriesConsumed := caloriesConsumed + meal.calories;
        totalProtein := totalProtein + OrZero(meal.protein);
        totalFat := totalFat + OrZero(meal.fat);
        totalCarbohydrate := totalCarbohydrate + OrZero(meal.carbohydrate);
      }
      CalculateCaloriesConsumedAndBurned();
      if Consistent(before) {
        AddMealKeepsConsistent(before, arg);
      }
    }

    method AddWorkout(workout: Workout)
      modifies this
      ensures State() == AfterAddWorkout(old(State()), workout)
      ensures workouts == old(workouts) + [workout]
      ensures caloriesBurned == old(caloriesBurned) + workout.calories
      ensures meals == old(meals) && caloriesConsumed == old(caloriesConsumed)
      ensures totalProtein == old(totalProtein) && totalFat == old(totalFat)
      ensures totalCarbohydrate == old(totalCarbohydrate)
      ensures calorieLimit == old(calorieLimit)
      ensures calorieBalance == caloriesConsumed - caloriesBurned
      ensures caloriesRemaining == calorieLimit - calorieBalance
      ensures old(Valid()) ==> Valid()
    {
      ghost var before := State();
      workouts := workouts + [workout];
      caloriesBurned := caloriesBurned + workout.calories;
      CalculateCaloriesConsumedAndBurned();
      if Consistent(before) {
        AddWorkoutKeepsConsistent(before, workout);
      }
    }

    method CalculateCaloriesConsumedAndBurned()
      modifies this`calorieBalance, this`caloriesRemaining
      ensures State() == Recalculated(old(State()))
    {
      calorieBalance := caloriesConsumed - caloriesBurned;
      caloriesRemaining := calorieLimit - (caloriesConsumed - caloriesBurned);
    }
  }

  /** A session driven through the class alone: its contracts are enough to
      know every total of the worked example. */
  method ExampleSession(breakfast: Meal, run: Workout) returns (t: CalorieTracker)
    requires breakfast.calories == 400 && breakfast.protein == Some(20)
    requires run.calories == 300
    ensures t.Valid()
    ensures t.meals == [breakfast] && t.workouts == [run]
    ensures t.caloriesConsumed == 400 && t.totalProtein == 20 && t.caloriesBurned == 300
    ensures t.calorieBalance == 100 && t.caloriesRemaining == 1900
  {
    t := new CalorieTracker();
    t.AddMeal(IsMeal(breakfast));
    assert t.caloriesRemaining == 1600;
    t.AddWorkout(run);
  }
}
