# Calorie tracker state engine in Dafny

This project models the `CalorieTracker` class of the Calorie-Tracker web
app, together with the `Meal` and `Workout` records it stores. The tracker
holds a calorie limit (2000), running totals and two ordered lists:

- the running totals are calories consumed, calories burned, protein, fat
  and carbohydrate;
- the lists are the logged meals and the logged workouts;
- two derived fields, balance and remaining, are recomputed in full after
  every mutation.

Two files, one module each:

- `entries.dfy` (module `Entries`):
  - the `Meal` and `Workout` records, and their constructors `NewMeal` and
    `NewWorkout` with the id passed in;
  - a meal's macros are `Option<int>`, absent when the macros object lacks
    the key;
  - `Amount` gives what one meal adds to each total, with an absent macro
    counted as 0 (`?? 0`);
  - `Total` and `Burned` are the sums over the lists, with their append
    lemmas.
- `tracker.dfy` (module `Tracker`):
  - `Snapshot` is the value of all ten tracker fields;
  - `Consistent` is the tracker's invariant: each total is the sum over its
    list, balance = consumed − burned, and remaining = limit − balance;
  - the pure functions `Initial`, `Recalculated`, `AfterAddMeal` and
    `AfterAddWorkout` specify the constructor and the methods;
  - the class `CalorieTracker` has the source's fields and mutates them in
    place, as the source does;
  - each method ensures that its new `State()` is the pure function applied
    to the old state, and that it preserves `Valid()`.
  - `addMeal`'s `instanceof Meal` test is modelled by the argument type
    `MealArg = IsMeal(meal) | NotAMeal`.

The methods have no preconditions, because the source demands nothing of
its callers. Instead, invariant preservation is stated as
`old(Valid()) ==> Valid()`.

## Model

| member | source | states |
|---|---|---|
| `Entries.OrZero` | js/app.js:21-23 | `x ?? 0`: 0 when the value is absent, the value otherwise |
| `Entries.Lookup` | js/app.js:178-180 | reading a key of the macros object: present exactly when the key is in the map, and then it is the mapped value |
| `Entries.NewMeal` | js/app.js:173-181 | the meal keeps the given id, name and calories; each macro is present iff its key was supplied; the amount the tracker will add for each macro is the supplied value, or 0 when absent |
| `Entries.NewWorkout` | js/app.js:184-190 | the workout keeps the given id, name and calories |
| `Entries.TotalAppend` | js/app.js:19-23 | the sum of any nutrient over a concatenation of meal lists is the sum of the two sums |
| `Entries.TotalPush` | js/app.js:19-23 | pushing one meal raises each meal total by exactly that meal's amount |
| `Entries.BurnedAppend` | js/app.js:33-34 | the burned sum over a concatenation of workout lists is the sum of the two sums |
| `Entries.BurnedPush` | js/app.js:33-34 | pushing one workout raises the burned sum by exactly its calories |
| `Tracker.InitialState` | js/app.js:2-12 | a new tracker has limit 2000, balance, consumed and burned 0, remaining equal to the limit, empty lists, zero macro totals, and satisfies the invariant |
| `Tracker.RecalculatedDerived` | js/app.js:101-105 | after the recompute, balance = consumed − burned and remaining = limit − balance, from any prior state; all other fields are unchanged |
| `Tracker.AddMealEffect` | js/app.js:17-27 | a real meal is appended at the end of the meal list; consumed and each macro total grow by its value, or by 0 for an absent macro; a non-meal leaves the lists and totals as they were; either way workouts, burned and limit are unchanged, and the derived fields agree with the new totals |
| `Tracker.AddWorkoutEffect` | js/app.js:32-35 | the workout is appended at the end of the workout list and burned grows by its calories; meals, consumed, macro totals and limit are unchanged; the derived fields agree with the new totals |
| `Tracker.AddMealKeepsConsistent` | js/app.js:17-27 | `addMeal` preserves the invariant: every meal total is still the sum over the meal list |
| `Tracker.AddWorkoutKeepsConsistent` | js/app.js:32-35 | `addWorkout` preserves the invariant: burned is still the sum over the workout list |
| `Tracker.ConsistentDeterminedByLists` | js/app.js:101-105 | two consistent states with the same limit and lists are equal, so no total or derived field can drift from the lists |
| `Tracker.RunKeepsConsistent` | js/app.js:17-38 | any sequence of `addMeal`/`addWorkout` calls from a consistent state ends in a consistent state with the same limit |
| `Tracker.WorkedExample` | js/app.js:17-38 | from the initial state, a 400-calorie meal with protein 20 gives consumed 400, protein 20, balance 400, remaining 1600; then a 300-calorie workout gives burned 300, balance 100, remaining 1900 |
| `Tracker.CalorieTracker.constructor` | js/app.js:2-12 | the new object's fields are exactly the initial snapshot, and it satisfies the invariant |
| `Tracker.CalorieTracker.AddMeal` | js/app.js:17-27 | the new state is `AfterAddMeal` of the old state; a real meal is appended at the end of `meals` and consumed and each macro total grow by its amount (absent macro as 0); a non-meal leaves lists and totals unchanged; workouts, burned and limit are unchanged; balance = consumed − burned and remaining = limit − balance; the invariant is preserved |
| `Tracker.CalorieTracker.AddWorkout` | js/app.js:32-35 | the new state is `AfterAddWorkout` of the old state; the workout is appended at the end of `workouts` and burned grows by its calories; meals, consumed, macro totals and limit are unchanged; balance = consumed − burned and remaining = limit − balance; the invariant is preserved |
| `Tracker.CalorieTracker.CalculateCaloriesConsumedAndBurned` | js/app.js:101-105 | only balance and remaining change; they become `Recalculated` of the old state |
| `Tracker.ExampleSession` | js/app.js:17-38 | driving the class through the worked example yields lists `[meal]` and `[workout]`, consumed 400, protein 20, burned 300, balance 100, remaining 1900, and a valid tracker |

## Left out

- Rendering: `_render`, every `_display*` method and the cards appended on each addition (js/app.js:41-99, 114-170). For an entry object they only write to the page; the exception they raise for `null`/`undefined` is described under `Tracker.CalorieTracker.AddMeal` and `Tracker.CalorieTracker.AddWorkout` below.
- The progress-bar percentage (js/app.js:107-112): floating-point division used for styling only.
- The `App` class (js/app.js:192-250): form reading, `parseInt`, `alert` and the collapse toggle. The model takes integer calories and macros as given.
- Id generation with `Math.random()` (js/app.js:175, 186): ids are opaque strings passed to `NewMeal`/`NewWorkout`. The code does not check that ids are unique, so the model does not require it either.
- The `console.log` on a non-meal argument (js/app.js:25) is a no-op in the model.
- JavaScript numbers are modelled as unbounded integers. Not modelled: the loss of precision past 2^53, `NaN` from a failed `parseInt`, and string concatenation if `calories` were a string.
- `Tracker.CalorieTracker.AddMeal` — `NotAMeal` stands for a non-null argument that is not a `Meal`. For `null` or `undefined` the source also skips the update and recomputes (js/app.js:18, 27), but then `_displayNewMeal` reads `meal.id` (js/app.js:28, 118) and throws a TypeError to the caller, skipping `_render`. The model returns normally. The state it computes is the state the source leaves behind, but the exception is not modelled.
- `Tracker.CalorieTracker.AddWorkout` accepts only `Workout` values. The source has no type test here (js/app.js:33-34). Any other object is pushed and its `calories` added, which can make the totals `NaN`. For `null` the push happens and then reading `calories` throws, before the recompute. This leaves a non-workout in the list and the derived fields stale. Neither path is modelled.
- Entries are immutable values. In the source the lists hold references to mutable `Meal`/`Workout` objects (js/app.js:19, 33, 175-180, 186-188). There, the invariant "each total equals the sum over its list" holds only while no stored entry is changed after it is added. The code shown never changes one.
- Removing an entry, setting the limit, resetting, and saving to or loading from a key-value store are not in js/app.js, so the model has no operations for them.
- A non-meal argument is not rejected: the code logs it and still recomputes (js/app.js:24-27), and the model does the same.
