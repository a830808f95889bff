/** The coordination code of a swimming exercise, as the classifier's tests
    pin it down: a lookup on the exercise's `Legs` and `Arms` flags. */
module Coordination {
  import opened Wrappers

  /** The swimming-exercise fields the test fixtures carry; their `Time` is null. */
  datatype SwimExercise = SwimExercise(
    volume: int,
    volumeUnits: string,
    time: Option<int>,
    timeUnits: string,
    stroke: string,
    speed: int,
    legs: bool,
    arms: bool,
    comments: string)

  /** `handle_coordination`: legs only "н/н", arms only "н/р", neither "упр.",
      both "в/к". */
  function CoordinationCode(e: SwimExercise): (code: string)
    ensures e.legs && !e.arms ==> code == "н/н"
    ensures !e.legs && e.arms ==> code == "н/р"
    ensures !e.legs && !e.arms ==> code == "упр."
    ensures e.legs && e.arms ==> code == "в/к"
  {
    if e.legs && e.arms then "в/к"
    else if e.legs then "н/н"
    else if e.arms then "н/р"
    else "упр."
  }

  /** Only the two flags matter: exercises that agree on them get the same code. */
  lemma CodeDependsOnlyOnLimbs(e: SwimExercise, f: SwimExercise)
    requires e.legs == f.legs && e.arms == f.arms
    ensures CoordinationCode(e) == CoordinationCode(f)
  {
  }

  /** Different flags give different codes: the code names the limbs used. */
  lemma CodeIdentifiesLimbs(e: SwimExercise, f: SwimExercise)
    requires CoordinationCode(e) == CoordinationCode(f)
    ensures e.legs == f.legs && e.arms == f.arms
  {
  }
}
