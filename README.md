# Tank battle and weight-loss tracker, modelled in Dafny

This project models the core of two small Python programs and proves properties about them.

**tank_battle.py** is a two-player terminal tank game. Each tank moves one cell at a time inside the
screen border, turns its glyph to face the way it moved, and fires at most once per 0.5 s. A bullet
advances one cell every 0.1 s and dies on the border. Every tick, each live bullet is tested in a fixed
order: against player 1, then player 2, then every obstacle. Dead bullets and destroyed obstacles are then
removed from their lists.

**weight_loss_system.py** is a diet and exercise tracker. It keeps a list of daily records keyed by date
string. Exercises and meals are appended to the record of a date, which is created on first use, and a
weight can be set on it. It sums the calories of meals and exercises and builds a plan with a calorie
floor and a fixed exercise recommendation table. It also estimates the days left to the target weight
from the last seven records.

The files:

- `wrappers.dfy` (module `Wrappers`): `Option`, `Result` and `Outcome` for Python's `None` and raised
  exceptions, and `Distinct` for lists of objects.
- `tank_spec.dfy` (module `TankSpec`): the game on values. Tanks, bullets and obstacles are represented
  by their views, and the whole session by `Arena`. Every operation is a function, and the lemmas state
  the game's properties.
- `tank_battle.dfy` (module `TankBattle`): the classes `Tank`, `Bullet`, `Obstacle` and `Game`. Their
  fields are updated in place. Each method is proved equal to its `TankSpec` function, and `Game` keeps
  the invariant `Valid()`.
- `weight_loss_spec.dfy` (module `WeightLossSpec`): the tracker's values on their own. It holds the enums
  and records, the calorie sums, the recommendations and the calorie target. It also models the record
  list as values: find-or-create, logging an entry, and the days-to-target estimate with its date sort.
- `weight_loss.dfy` (module `WeightLoss`): the classes `User`, `DailyRecord` and `WeightLossTracker`,
  plus the plan datatype. Each tracker method is proved against the `WeightLossSpec` functions.

Clock readings become parameters:

- In the game, `now` is an integer number of milliseconds. The shot cooldown is 500 and the bullet step is
  100, and both gates use strict `>`.
- In the tracker, "today" and the current time of day are string parameters, and the plan's target date comes from a function parameter (below).

Floating-point values (TDEE, weights) are `real` values supplied by the caller. The calorie estimate of an
exercise is an `int` supplied by the caller: it is the result of `estimate_calories`, which the tracker
truncates with `int()`. Python's `int()` on a float is modelled as `Trunc`, which truncates toward zero.
The plan's target date is the result of a caller-supplied function from a number of weeks to the ISO timestamp
that many weeks from now.

Two behaviours of the game's code are worth stating outright:

- One bullet can kill both tanks. `check_collisions` tests player 2 even after the same bullet has killed
  player 1, so the winner is first set to "Player 2" (tank_battle.py:194) and then overwritten with
  "Player 1" (tank_battle.py:202). See `TankSpec.DoubleKillGoesToPlayer1`.
- The quit key sets `game_over` and leaves `winner` as it was (tank_battle.py:180-181). See
  `TankSpec.Dispatch`.

## Model

| member | source | states |
|---|---|---|
| TankSpec.Moved | tank_battle.py:43-64 | A step is taken only when the new cell is strictly inside the border; otherwise the tank is unchanged. An accepted step sets heading and glyph from the sign of dx, then dy. Health, liveness and shot time are never touched, and a placed tank stays placed. |
| TankSpec.TryShot | tank_battle.py:66-71 | Succeeds iff more than 500 ms have passed since the last shot. The shot time is updated only on success. |
| TankSpec.Shot | tank_battle.py:73-77 | A bullet exists iff the cooldown gate passed. It is alive, sits one cell ahead along the tank's heading and carries that heading. With no bullet the tank is unchanged. |
| TankSpec.Damaged | tank_battle.py:79-82 | Health drops by exactly one, and the tank is alive afterwards iff it was alive and health stays positive. Nothing else changes, and a healthy live tank stays healthy (health in 0..3, alive iff health > 0). |
| TankSpec.LastShotNotBefore | tank_battle.py:66-71 | After an attempt that fired, the recorded shot time never falls below that attempt's time, whatever times the later attempts carry, even a clock that runs backwards. |
| TankSpec.ShotsSpacedByCooldown | tank_battle.py:66-71 | Any two shots one tank fires are more than 500 ms apart, for every sequence of attempt times. |
| TankSpec.Advanced | tank_battle.py:100-110 | The heading never changes. Only after more than 100 ms does the bullet move exactly one cell and restamp its time. It then dies iff the new cell is on or beyond the border; otherwise it is unchanged. |
| TankSpec.FlightIsStraight | tank_battle.py:100-110 | After n updates that are each late enough, the bullet is exactly n cells further along its heading. |
| TankSpec.ShotFromFiveTenFliesUp | tank_battle.py:73-110 | Concrete scenario: a tank at (5, 10) facing up fires into (5, 9), and after three updates, each more than 0.1 s after the one before (101 ms in the lemma, as the strict gate requires), the bullet is at (5, 6). |
| TankSpec.StartArena | tank_battle.py:136-145 | A new game has player 1 at column 5 and player 2 at column maxX - 5, both on row maxY / 2, facing up, at full health, alive and never having shot. Obstacle k is live and destructible at the k-th drawn spot, for all 20. There are no bullets, no winner and the game is not over. The session invariant holds. |
| TankSpec.Player1Key | tank_battle.py:152-163 | W, S, A and D move player 1 by `Moved` one cell up, down, left and right. Space makes it `Shot` and appends the bullet, if any. Only player 1 and the bullet list change, health and liveness never, and the session invariant is preserved. |
| TankSpec.Player2Key | tank_battle.py:166-177 | The arrow keys move player 2 by `Moved`, and Enter makes it `Shot` and appends the bullet, if any. Only player 2 and the bullet list change, health and liveness never, and the session invariant is preserved. |
| TankSpec.Dispatch | tank_battle.py:147-181 | Key -1 and unknown keys change nothing, and 'q' only sets game-over, leaving the winner as it was. Player 1's keys act as `Player1Key` and player 2's as `Player2Key`. No key changes health, liveness or the winner, any key changes at most one tank or sets game-over, and the session invariant is preserved. |
| TankSpec.HitPlayer1 | tank_battle.py:190-195 | A live bullet on live player 1 damages it and dies. If player 1 dies, "Player 2" wins and the game is over. Nothing else changes. |
| TankSpec.HitPlayer2 | tank_battle.py:197-202 | The same test for player 2; if player 2 dies, "Player 1" wins. |
| TankSpec.HitTanks | tank_battle.py:189-202 | Both tank tests in order. Obstacles and other bullets are untouched. The bullet survives iff it hit neither tank. Player 1's win is overridden by player 2's death. |
| TankSpec.HitObstacles | tank_battle.py:205-209 | The bullet survives iff no live obstacle shares its cell. An obstacle ends dead iff it was dead or was destructible under the bullet, and keeps its position and destructibility. Nothing else changes. |
| TankSpec.CollideBullet | tank_battle.py:185-209 | One loop iteration. A dead bullet is skipped and leaves the session unchanged. Other bullets are untouched, and bullets and obstacles only die. A tank is unchanged or damaged by a bullet on its cell. Tank health and the winner rule are preserved. |
| TankSpec.Scan | tank_battle.py:185-210 | The scan of the first n bullets keeps both list lengths. |
| TankSpec.ScanThrough | tank_battle.py:185-210 | The scan up to and including bullet k keeps both list lengths. |
| TankSpec.ScanOnlyKills | tank_battle.py:185-210 | The scan leaves bullets not yet reached untouched. Bullets and obstacles never move and never come back to life. |
| TankSpec.ScanOnlyWounds | tank_battle.py:185-203 | The scan only lowers tank health and keeps the health and winner invariants. |
| TankSpec.Keep | tank_battle.py:213-215 | A list comprehension keeps exactly the elements that pass and is never longer. |
| TankSpec.KeepAppend | tank_battle.py:213-215 | Keeping distributes over concatenation, so survivors keep their original order. |
| TankSpec.KeepEverything | tank_battle.py:213-215 | When every element passes, the list is kept whole. |
| TankSpec.Compact | tank_battle.py:211-215 | After compaction the lists hold exactly the live bullets and live obstacles of before. |
| TankSpec.Collisions | tank_battle.py:183-215 | After check_collisions every bullet and obstacle left is alive, no tank gains health, and no tank moves. |
| TankSpec.AdvanceAll | tank_battle.py:218-220 | Every bullet is advanced with the same clock value; nothing else changes. |
| TankSpec.CollisionsKeepArenaOk | tank_battle.py:183-215 | check_collisions preserves the session invariant: health in 0..3 and alive iff health > 0, tanks inside the border with the right glyph, the winner named iff a tank is dead (and then the game is over), and only destructible obstacles. |
| TankSpec.TickKeepsArenaOk | tank_battle.py:217-223 | A whole update preserves the session invariant. |
| TankSpec.Tick | tank_battle.py:217-223 | After an update every remaining bullet and obstacle is alive, neither list has grown, no tank has moved and no tank has gained health. |
| TankSpec.ScanLeavesBulletsClear | tank_battle.py:185-210 | After the scan, no surviving bullet shares a cell with a live tank or a live obstacle. |
| TankSpec.AnyBlocksSnoc | tank_battle.py:206-208 | A list of obstacles blocks a cell iff its prefix does or its last element does. |
| TankSpec.FewerBlocks | tank_battle.py:206-209 | Obstacles that only died block no cell they did not block before. |
| TankSpec.StaysDownOneStep | tank_battle.py:205-210 | A destroyed obstacle is still destroyed after one more iteration. |
| TankSpec.ObstacleStaysDown | tank_battle.py:205-210 | A destroyed obstacle stays destroyed for the rest of the scan. |
| TankSpec.CollideBulletStrikes | tank_battle.py:205-210 | A live bullet destroys every destructible obstacle on its cell. |
| TankSpec.StruckAtStep | tank_battle.py:205-210 | A bullet that reaches its turn alive on a destructible obstacle destroys it in that iteration. |
| TankSpec.ObstacleUnderBulletFalls | tank_battle.py:205-215 | Such an obstacle is dead at the end of the scan, so compaction removes it. |
| TankSpec.BulletThatStrikesFalls | tank_battle.py:205-215 | A live bullet whose turn comes while an obstacle still stands on its cell is dead at the end of the scan, so compaction removes it. |
| TankSpec.DoubleKillGoesToPlayer1 | tank_battle.py:190-203 | One bullet on both tanks, each with one health point: both die, the bullet is removed, the game is over and "Player 1" wins. |
| TankBattle.Tank.constructor | tank_battle.py:35-41 | A new tank faces up with 3 health and shot time 0, and is alive. |
| TankBattle.Tank.Move | tank_battle.py:43-64 | The tank's new fields are exactly `Moved` of the old ones. |
| TankBattle.Tank.CanShoot | tank_battle.py:66-71 | The new fields and the answer are exactly `TryShot`. |
| TankBattle.Tank.Shoot | tank_battle.py:73-77 | The new fields and the returned bullet (fresh, or null) are exactly `Shot`. |
| TankBattle.Tank.Hit | tank_battle.py:79-82 | The new fields are exactly `Damaged` of the old ones. |
| TankBattle.Bullet.constructor | tank_battle.py:94-98 | A new bullet is alive, has the given heading, and is stamped with the clock value of its creation. |
| TankBattle.Bullet.Update | tank_battle.py:100-110 | The new fields are exactly `Advanced` of the old ones. |
| TankBattle.Obstacle.constructor | tank_battle.py:112-115 | A new obstacle is alive and destructible. |
| TankBattle.LiveBullets | tank_battle.py:213 | The kept bullet objects are live members of the list, and no object is repeated. |
| TankBattle.LiveBulletsViews | tank_battle.py:213 | The views of the kept bullets are the kept views. |
| TankBattle.LiveObstacles | tank_battle.py:215 | The kept obstacle objects are live members of the list, and no object is repeated. |
| TankBattle.LiveObstaclesViews | tank_battle.py:215 | The views of the kept obstacles are the kept views. |
| TankBattle.Game.constructor | tank_battle.py:118-145 | The new game is `StartArena` over fresh objects and satisfies `Valid()`. |
| TankBattle.Game.HandleInput | tank_battle.py:147-181 | The new session is `Dispatch`, obstacles are untouched, and at most one fresh bullet is appended. `Valid()` is kept. |
| TankBattle.Game.Player1Input | tank_battle.py:151-163 | Keys W, S, A, D and space act on player 1 exactly as `Dispatch` says. |
| TankBattle.Game.Player2Input | tank_battle.py:165-177 | The arrow keys and Enter act on player 2 exactly as `Dispatch` says. |
| TankBattle.Game.Fire | tank_battle.py:160-163 | The tank becomes `Shot`, and the bullet views grow by exactly the shot bullet, if any. |
| TankBattle.Game.Update | tank_battle.py:217-223 | The new session is `Tick` of the old one, and `Valid()` is kept. |
| TankBattle.Game.CheckCollisions | tank_battle.py:183-215 | The new session is `Collisions` of the old one, and `Valid()` is kept. |
| TankBattle.Game.ScanAll | tank_battle.py:185-210 | After the loop the session is `Scan` over every bullet; the lists themselves are not reassigned. |
| TankBattle.Game.ScanBullet | tank_battle.py:185-210 | One iteration moves the session from `Scan(a, i)` to `Scan(a, i + 1)`. |
| TankBattle.Game.CheckTanks | tank_battle.py:189-202 | The session becomes `HitTanks` for bullet i. |
| TankBattle.Game.CheckPlayer1 | tank_battle.py:190-195 | The session becomes `HitPlayer1` for bullet i. |
| TankBattle.Game.CheckPlayer2 | tank_battle.py:197-202 | The session becomes `HitPlayer2` for bullet i. |
| TankBattle.Game.CheckObstacles | tank_battle.py:205-210 | The session becomes `HitObstacles` for bullet i. |
| TankBattle.SweepObstacles | tank_battle.py:206-210 | The loop over the obstacles kills the bullet iff some live obstacle is on its cell, and strikes exactly the destructible obstacles there. |
| TankBattle.Game.RemoveDead | tank_battle.py:212-215 | The new session is `Compact` of the old one, and neither list repeats an object. |
| TankBattle.Game.RemoveDeadBullets | tank_battle.py:213 | The bullet list becomes its live members, in order. |
| TankBattle.Game.RemoveDeadObstacles | tank_battle.py:215 | The obstacle list becomes its live members, in order. |
| WeightLossSpec.ParseGender | weight_loss_system.py:22-24 | `Gender(s)` succeeds exactly on the member value strings, and parsing inverts `GenderValue` in both directions. |
| WeightLossSpec.ParseActivityLevel | weight_loss_system.py:14-19 | `ActivityLevel(s)` succeeds exactly on the five value strings, and parsing inverts `ActivityLevelValue` in both directions. |
| WeightLossSpec.TotalAppend | weight_loss_system.py:125-154 | The sum of two concatenated lists is the sum of their sums. |
| WeightLossSpec.Total | weight_loss_system.py:125-127 | The sum of one value is that value, and a sum of non-negative values is non-negative. |
| WeightLossSpec.Meal.TotalCalories | weight_loss_system.py:125-127 | A meal without foods has 0 calories, a meal of one food has that food's calories, and foods without negative calories give a non-negative total. |
| WeightLossSpec.RecordView.TotalCaloriesConsumed | weight_loss_system.py:148-150 | A record without meals has consumed 0, with one meal exactly that meal's total, and meals without negative totals give a non-negative total. |
| WeightLossSpec.RecordView.TotalCaloriesBurned | weight_loss_system.py:152-154 | A record without exercises has burned 0, with one exercise exactly its calories, and exercises without negative calories give a non-negative total. |
| WeightLossSpec.FoodAddsItsCalories | weight_loss_system.py:125-127 | A meal with one food more totals exactly that food's calories more. |
| WeightLossSpec.MealAddsItsCalories | weight_loss_system.py:148-150 | A record with one meal more has consumed exactly that meal's total more. |
| WeightLossSpec.ExerciseAddsItsCalories | weight_loss_system.py:152-154 | A record with one exercise more has burned exactly that exercise's calories more. |
| WeightLossSpec.ExerciseRecommendations | weight_loss_system.py:210-263 | There are always 3 entries. The second is weight_training and the third is yoga. The first is walking_moderate iff the level is sedentary or lightly active, running_slow iff it is moderately active, and running_moderate otherwise. |
| WeightLossSpec.RecommendationsAreKnownActivities | weight_loss_system.py:79-97 | Every recommended activity has its own MET value in the estimate table and a positive duration. |
| WeightLossSpec.Trunc | weight_loss_system.py:186 | `int()` of a float truncates toward zero: the result is within one of x, on x's side of zero. |
| WeightLossSpec.TruncMonotone | weight_loss_system.py:186 | Truncation preserves order. |
| WeightLossSpec.DailyDeficit | weight_loss_system.py:185 | Seven days of deficit equal the weekly loss at 7700 kcal per kilogram. |
| WeightLossSpec.DailyCalorieTarget | weight_loss_system.py:184-190 | The target is never below 1500 for men and 1200 otherwise. It is the truncated TDEE-minus-deficit whenever that reaches the floor, and the floor otherwise. |
| WeightLossSpec.PlanWeeks | weight_loss_system.py:180-182 | A request the weekly pace can meet is kept; a replaced request was one the pace cannot meet. |
| WeightLossSpec.PlanWeeksSuffice | weight_loss_system.py:176-182 | A replacement always loses more than the weight at the weekly pace. For a positive request the plan runs a positive number of weeks that lose at least the weight, and a replacement is the fewest whole weeks that lose more. |
| WeightLossSpec.AggressiveTargetNotHigher | weight_loss_system.py:177-190 | An aggressive plan never allows more daily calories than a normal one for the same user. |
| WeightLossSpec.TargetGrowsWithTdee | weight_loss_system.py:184-190 | A higher TDEE never gives a lower target. |
| WeightLossSpec.FindDate | weight_loss_system.py:493-495 | The result is the position of the first record with the date, or None iff no record has it. |
| WeightLossSpec.GetOrCreate | weight_loss_system.py:491-499 | The returned position holds the date. If the date exists, the list is unchanged and the position is the first match. Otherwise one empty record with that date is appended at the end. Unique dates stay unique. |
| WeightLossSpec.Enter | weight_loss_system.py:419-442 | An exercise or meal entry appends to its list and adds exactly its calories to the matching total. A weight entry replaces the weight. The date and notes never change. |
| WeightLossSpec.Log | weight_loss_system.py:417-442 | Logging applies the entry to the record `GetOrCreate` finds or creates. |
| WeightLossSpec.LogChangesOneRecord | weight_loss_system.py:491-499 | Logging changes exactly one record, either the first with the date or one appended at the end. All other records are unchanged, and unique dates stay unique. |
| WeightLossSpec.LexLeTotal | weight_loss_system.py:507 | Python's string order is total. |
| WeightLossSpec.InsertPermutes | weight_loss_system.py:507 | Insertion adds exactly the inserted record. |
| WeightLossSpec.InsertSorted | weight_loss_system.py:507 | Insertion into a list sorted by date keeps it sorted. |
| WeightLossSpec.SortByDate | weight_loss_system.py:507 | The sort by date is a permutation of its input and is sorted by date. |
| WeightLossSpec.Weights | weight_loss_system.py:508 | There are never more recorded weights than records, and no collected weight is zero. |
| WeightLossSpec.HasWeight | weight_loss_system.py:508 | Python truthiness of an optional weight: a missing weight and a weight of 0.0 are both skipped, and only a non-zero weight counts. |
| WeightLossSpec.InsertWeights | weight_loss_system.py:508 | Inserting a record adds a weight iff it carries a non-zero one. |
| WeightLossSpec.SortKeepsWeightCount | weight_loss_system.py:507-510 | Sorting does not change how many weights are recorded. |
| WeightLossSpec.DaysToTarget | weight_loss_system.py:501-519 | The estimate is -1 without a user, with fewer than 7 records, or with fewer than 2 recorded weights among the last 7. The last guard is stated on the unsorted records. |
| WeightLoss.User.constructor | weight_loss_system.py:27-37 | Every field is the given value. |
| WeightLoss.WeightLossPlan.Generate | weight_loss_system.py:172-207 | A request of zero weeks raises a division by zero, and only that fails. Otherwise the plan refers to its user and its target date is the date `PlanWeeks` weeks from now. Its calorie target is `DailyCalorieTarget`, so at least the gender's floor. The weekly loss is 1.0 if aggressive and 0.75 otherwise. The recommendations are the 3 of the user's activity level. |
| WeightLoss.DailyRecord.constructor | weight_loss_system.py:139-146 | A new record has the date, no exercises, no meals and no weight. |
| WeightLoss.BurnedCalories | weight_loss_system.py:402-406 | Calories are 0 when no activity type is given (None or empty), and the estimate otherwise. |
| WeightLoss.WeightLossTracker.constructor | weight_loss_system.py:318-323 | A new tracker has no user, no records and no plan. |
| WeightLoss.WeightLossTracker.CreateUser | weight_loss_system.py:370-384 | An invalid gender raises first, then an invalid activity level, and neither changes the user. Otherwise a fresh user with the parsed fields replaces the old one. |
| WeightLoss.WeightLossTracker.GeneratePlan | weight_loss_system.py:386-392 | Without a user the call raises and the current plan is unchanged. Otherwise it returns `WeightLossPlan.Generate` for the requested weeks; a plan becomes the current plan, and a failure leaves the current plan unchanged. |
| WeightLoss.WeightLossTracker.GetOrCreateDailyRecord | weight_loss_system.py:491-499 | The linear search leaves the records as `GetOrCreate` says and returns the object at its position: an existing one, or a fresh one appended. Old objects stay in place. |
| WeightLoss.WeightLossTracker.Apply | weight_loss_system.py:419-442 | Applying an entry to the record at position k changes only that record: an exercise or meal is appended to its list, a weight replaces the recorded one (`Enter`). |
| WeightLoss.WeightLossTracker.LogEntry | weight_loss_system.py:418-419 | Finding or creating the record of a date and then appending to it leaves the records as `Log` says and keeps the record objects distinct. |
| WeightLoss.WeightLossTracker.AddExercise | weight_loss_system.py:394-421 | Without a user it raises and changes nothing. Otherwise it returns the exercise with `BurnedCalories`, and the records are `Log` of that exercise on its date. |
| WeightLoss.WeightLossTracker.AddMeal | weight_loss_system.py:423-437 | It returns the meal, timed by the clock when no time is given, and the records are `Log` of that meal on its date. |
| WeightLoss.WeightLossTracker.UpdateWeight | weight_loss_system.py:439-448 | The record of the date always gets the weight. The user's current weight changes iff the date is today. The call fails iff the date is today and there is no user, after the record was written. |
| WeightLoss.WeightLossTracker.EstimateDaysToTarget | weight_loss_system.py:501-519 | The estimate is -1 without a user or with fewer than 7 records; otherwise it is `DaysToTarget` of the user's weights and the records. |

## Left out

- Terminal I/O: all curses drawing (`draw` of every class, the border, the status line, the winner banner), colour pairs and the `Game.run` loop with `getch`, `nodelay` and `sleep`. The game's `main`, the `__main__` blocks of both files, and weight_loss_cli.py (an input/print menu with no logic of its own) are not modelled either.
- Clocks and randomness: `time.time()` becomes the `now` argument. The source reads the clock separately in `can_shoot`, in `Bullet.__init__` and in each `Bullet.update` of the loop in `Game.update`; the model gives all reads within one call the same value. `random.randint` in `Game.init_game` becomes the `spots` argument; its ranges become the constructor's precondition.
- TankBattle.Game.constructor: also requires the screen to be large enough for those ranges to be non-empty. randint raises on a narrower screen, and that failure is not modelled.
- Persistence: `load_data` and `save_data` (JSON file I/O) are not modelled, and a new tracker starts as if its data file did not exist. The `save_data()` call at the end of each mutating tracker method is omitted, so an I/O error raised there is not modelled either.
- Floating point: the BMR, TDEE and BMI formulas, `Exercise.estimate_calories`, the date arithmetic of `generate_plan` (the date a number of weeks from now is a parameter), the meal suggestions, `total_macros`, `net_calories` and `get_progress_report` are not modelled. The TDEE and the calorie estimate are parameters; floats are modelled as exact reals.
- WeightLossSpec.DaysToTarget: the daily loss and the final quotient use exact real division, not float rounding.
- WeightLossSpec.DailyCalorieTarget: uses exact reals, so a TDEE whose float subtraction rounds across an integer boundary can truncate differently from Python.
- WeightLoss.WeightLossPlan.Generate: the plan's `meal_suggestions` field is not modelled (float macros).
- WeightLoss.WeightLossTracker.GeneratePlan: the `OverflowError` that `timedelta`/`datetime` raise for a number of weeks beyond their range is not modelled; the date after any number of weeks comes from the caller's function.
- WeightLossSpec.PlanWeeks: uses exact reals for the two divisions, so a quotient whose float rounding crosses the weekly pace or an integer boundary can differ from Python.
- WeightLossSpec.SortByDate: a stable insertion sort that keeps equal dates in list order, as Python's `sorted` does. Stability itself is not stated as a lemma; only sortedness, the permutation and the weight count are.
- WeightLoss.User: `created_at` is a parameter instead of a clock read. Fields the source never reassigns are `const`.
- Python's dynamic typing: a non-string key or a wrongly typed argument is not modelled. Keys are integers, with the curses codes 258 to 261 for the arrow keys.
