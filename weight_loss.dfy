/**
 * The objects of weight_loss_system.py that its tracker changes in place: the user, whose current weight
 * is updated, the daily records, whose lists grow, and the tracker, which owns the user, the records and
 * the current plan. Every tracker method is proved to do what the matching function of WeightLossSpec
 * says.
 */
module WeightLoss {
  import opened Wrappers
  import opened WeightLossSpec

  /** The exceptions the tracker raises. */
  datatype TrackerError =
    | UserProfileNotCreated         // ValueError("User profile not created")
    | NoneHasNoWeight               // AttributeError on `None.current_weight_kg`
    | InvalidGender(value: string)  // ValueError from Gender(value)
    | InvalidActivityLevel(value: string)
    | DivisionByZero                // ZeroDivisionError from dividing the weight to lose by zero weeks

  /** The user profile. Only the current weight is ever reassigned. */
  class User {
    const name: string
    const age: int
    const gender: Gender
    const heightCm: real
    var currentWeightKg: real
    const targetWeightKg: real
    const activityLevel: ActivityLevel
    const createdAt: string

    constructor (name: string, age: int, gender: Gender, heightCm: real, currentWeightKg: real,
                 targetWeightKg: real, activityLevel: ActivityLevel, createdAt: string)
      ensures this.name == name && this.age == age && this.gender == gender && this.heightCm == heightCm
      ensures this.currentWeightKg == currentWeightKg && this.targetWeightKg == targetWeightKg
      ensures this.activityLevel == activityLevel && this.createdAt == createdAt
    {
      this.name, this.age, this.gender, this.heightCm := name, age, gender, heightCm;
      this.currentWeightKg, this.targetWeightKg := currentWeightKg, targetWeightKg;
      this.activityLevel, this.createdAt := activityLevel, createdAt;
    }
  }

  /** A plan refers to its user, so a later weight update is visible through it. */
  datatype WeightLossPlan = WeightLossPlan(
    user: User,
    targetDate: string,
    dailyCalorieTarget: int,
    weeklyWeightLossKg: real,
    recommendedExercises: seq<Recommendation>)
  {
    /**
     * WeightLossPlan.generate_plan, given the user's TDEE and `dateAfter`, the ISO timestamp the clock shows a
     * given number of weeks from now. A request of zero weeks raises.
     */
    static function Generate(user: User, tdee: real, weeks: int, aggressive: bool, dateAfter: int -> string)
      : (r: Result<WeightLossPlan, TrackerError>)
      reads user
      ensures weeks == 0 <==> r == Failure(DivisionByZero)
      ensures r.Success? ==> r.value.user == user && weeks != 0
      ensures r.Success? ==> r.value.targetDate == dateAfter(PlanWeeks(user.currentWeightKg - user.targetWeightKg, weeks, aggressive))
      ensures r.Success? ==> r.value.dailyCalorieTarget >= MinCalories(user.gender)
      ensures r.Success? ==> r.value.dailyCalorieTarget == DailyCalorieTarget(tdee, aggressive, user.gender)
      ensures r.Success? ==> r.value.weeklyWeightLossKg == (if aggressive then 1.0 else 0.75)
      ensures r.Success? ==> r.value.recommendedExercises == ExerciseRecommendations(user.activityLevel)
    {
      if weeks == 0 then Failure(DivisionByZero)
      else
        var w := PlanWeeks(user.currentWeightKg - user.targetWeightKg, weeks, aggressive);
        Success(WeightLossPlan(user, dateAfter(w), DailyCalorieTarget(tdee, aggressive, user.gender),
          WeeklyLoss(aggressive), ExerciseRecommendations(user.activityLevel)))
    }
  }

  /** The exercises, meals and weight of one date. The date and the notes are never reassigned. */
  class DailyRecord {
    const date: string
    var exercises: seq<Exercise>
    var meals: seq<Meal>
    var weightKg: Option<real>
    const notes: string

    function View(): RecordView
      reads this
    {
      RecordView(date, exercises, meals, weightKg, notes)
    }

    constructor (date: string)
      ensures View() == EmptyRecord(date)
    {
      this.date := date;
      exercises, meals, weightKg, notes := [], [], None, "";
    }
  }

  function RecordViews(rs: seq<DailyRecord>): seq<RecordView>
    reads rs
  {
    seq(|rs|, k requires 0 <= k < |rs| reads rs => rs[k].View())
  }

  /** `calories` of WeightLossTracker.add_exercise: the estimate only when an activity type is given. */
  function BurnedCalories(activityType: Option<string>, estimated: int): (c: int)
    ensures activityType == None || activityType == Some("") ==> c == 0
    ensures activityType.Some? && activityType.value != "" ==> c == estimated
  {
    if activityType.Some? && activityType.value != "" then estimated else 0
  }

  class WeightLossTracker {
    const dataFile: string
    var user: User?
    var dailyRecords: seq<DailyRecord>
    var currentPlan: Option<WeightLossPlan>

    /** The records as values. */
    function Records(): seq<RecordView>
      reads this, dailyRecords
    {
      RecordViews(dailyRecords)
    }

    /** No record object appears twice in the list. */
    ghost predicate Valid()
      reads this
    {
      Distinct(dailyRecords)
    }

    /** A tracker whose data file does not exist yet. */
    constructor (dataFile: string)
      ensures Valid()
      ensures this.dataFile == dataFile && user == null && dailyRecords == [] && currentPlan == None
    {
      this.dataFile := dataFile;
      user, dailyRecords, currentPlan := null, [], None;
    }

    /** WeightLossTracker.create_user: the enum strings are parsed before the profile replaces the old one. */
    method CreateUser(name: string, age: int, gender: string, heightCm: real, currentWeightKg: real,
                      targetWeightKg: real, activityLevel: string, createdAt: string)
      returns (r: Result<User, TrackerError>)
      modifies this`user
      ensures ParseGender(gender).None? ==> r == Failure(InvalidGender(gender)) && user == old(user)
      ensures ParseGender(gender).Some? && ParseActivityLevel(activityLevel).None? ==>
        r == Failure(InvalidActivityLevel(activityLevel)) && user == old(user)
      ensures ParseGender(gender).Some? && ParseActivityLevel(activityLevel).Some? ==>
        r.Success? && user == r.value && fresh(user) &&
        user.name == name && user.age == age && user.gender == ParseGender(gender).value &&
        user.heightCm == heightCm && user.currentWeightKg == currentWeightKg &&
        user.targetWeightKg == targetWeightKg && user.activityLevel == ParseActivityLevel(activityLevel).value &&
        user.createdAt == createdAt
    {
      var g := ParseGender(gender);
      if g.None? {
        return Failure(InvalidGender(gender));
      }
      var a := ParseActivityLevel(activityLevel);
      if a.None? {
        return Failure(InvalidActivityLevel(activityLevel));
      }
      user := new User(name, age, g.value, heightCm, currentWeightKg, targetWeightKg, a.value, createdAt);
      return Success(user);
    }

    /** WeightLossTracker.generate_plan. */
    method GeneratePlan(tdee: real, weeks: int, aggressive: bool, dateAfter: int -> string)
      returns (r: Result<WeightLossPlan, TrackerError>)
      modifies this`currentPlan
      ensures user == null ==> r == Failure(UserProfileNotCreated) && currentPlan == old(currentPlan)
      ensures user != null ==> r == WeightLossPlan.Generate(user, tdee, weeks, aggressive, dateAfter)
      ensures user != null && r.Success? ==> currentPlan == Some(r.value)
      ensures r.Failure? ==> currentPlan == old(currentPlan)
    {
      if user == null {
        return Failure(UserProfileNotCreated);
      }
      r := WeightLossPlan.Generate(user, tdee, weeks, aggressive, dateAfter);
      if r.Success? {
        currentPlan := Some(r.value);
      }
    }

    /** WeightLossTracker._get_or_create_daily_record. */
    method GetOrCreateDailyRecord(date: string) returns (record: DailyRecord)
      requires Valid()
      modifies this`dailyRecords
      ensures Valid()
      ensures Records() == GetOrCreate(old(Records()), date).0
      ensures dailyRecords[..|old(dailyRecords)|] == old(dailyRecords)
      ensures record == dailyRecords[GetOrCreate(old(Records()), date).1]
      ensures record in old(dailyRecords) || fresh(record)
    {
      var i := 0;
      while i < |dailyRecords|
        invariant 0 <= i <= |dailyRecords|
        invariant forall j :: 0 <= j < i ==> Records()[j].date != date
      {
        if dailyRecords[i].date == date {
          assert Records()[i].date == date;
          return dailyRecords[i];
        }
        i := i + 1;
      }
      record := new DailyRecord(date);
      dailyRecords := dailyRecords + [record];
      assert Records() == old(Records()) + [EmptyRecord(date)];
    }

    /** Applies an entry to a record of the list that is already found. */
    method Apply(record: DailyRecord, ghost k: nat, x: Entry)
      requires Valid() && k < |dailyRecords| && dailyRecords[k] == record
      modifies record
      ensures Records() == old(Records())[k := Enter(old(Records())[k], x)]
    {
      match x
      case ExerciseEntry(e) =>
        record.exercises := record.exercises + [e];
      case MealEntry(m) =>
        record.meals := record.meals + [m];
      case WeightEntry(w) =>
        record.weightKg := Some(w);
    }

    /** Finds or creates the record of `date` and applies an entry to it. */
    method LogEntry(date: string, x: Entry)
      requires Valid()
      modifies this`dailyRecords, dailyRecords
      ensures Valid()
      ensures Records() == Log(old(Records()), date, x)
    {
      var record := GetOrCreateDailyRecord(date);
      Apply(record, GetOrCreate(old(Records()), date).1, x);
    }

    /** WeightLossTracker.add_exercise, given the estimate_calories value for the user's current weight. */
    method AddExercise(date: string, name: string, durationMinutes: int, activityType: Option<string>,
                       intensity: string, notes: string, estimated: int)
      returns (r: Result<Exercise, TrackerError>)
      requires Valid()
      modifies this`dailyRecords, dailyRecords
      ensures Valid()
      ensures user == null ==> r == Failure(UserProfileNotCreated) && unchanged(this, old(dailyRecords))
      ensures user != null ==>
        r == Success(Exercise(name, durationMinutes, BurnedCalories(activityType, estimated), date, intensity, notes)) &&
        Records() == Log(old(Records()), date, ExerciseEntry(r.value))
    {
      if user == null {
        return Failure(UserProfileNotCreated);
      }
      var calories := 0;
      if activityType.Some? && activityType.value != "" {
        calories := estimated;
      }
      var exercise := Exercise(name, durationMinutes, calories, date, intensity, notes);
      LogEntry(date, ExerciseEntry(exercise));
      return Success(exercise);
    }

    /** WeightLossTracker.add_meal; `clockTime` is what the clock shows when no time is given. */
    method AddMeal(date: string, mealType: string, foods: seq<Food>, time: string, notes: string,
                   clockTime: string)
      returns (meal: Meal)
      requires Valid()
      modifies this`dailyRecords, dailyRecords
      ensures Valid()
      ensures meal == Meal(mealType, foods, date, if time != "" then time else clockTime, notes)
      ensures Records() == Log(old(Records()), date, MealEntry(meal))
    {
      meal := Meal(mealType, foods, date, if time != "" then time else clockTime, notes);
      LogEntry(date, MealEntry(meal));
    }

    /**
     * WeightLossTracker.update_weight; `today` is the clock's date. The record is written before the
     * user is touched, so without a user the record keeps the new weight and the call still fails.
     */
    method UpdateWeight(date: string, weightKg: real, today: string) returns (r: Outcome<TrackerError>)
      requires Valid()
      modifies this`dailyRecords, dailyRecords, user
      ensures Valid()
      ensures Records() == Log(old(Records()), date, WeightEntry(weightKg))
      ensures r.Fail? <==> date == today && user == null
      ensures r.Fail? ==> r.error == NoneHasNoWeight
      ensures user != null && date == today ==> user.currentWeightKg == weightKg
      ensures user != null && date != today ==> user.currentWeightKg == old(user.currentWeightKg)
    {
      LogEntry(date, WeightEntry(weightKg));
      if date == today {
        if user == null {
          return Fail(NoneHasNoWeight);
        }
        user.currentWeightKg := weightKg;
      }
      return Pass;
    }

    /** WeightLossTracker._estimate_days_to_target. */
    function EstimateDaysToTarget(): (d: int)
      reads this, user, dailyRecords
      ensures user == null || |dailyRecords| < 7 ==> d == -1
    {
      if user == null then -1
      else DaysToTarget(true, user.currentWeightKg, user.targetWeightKg, Records())
    }
  }
}
