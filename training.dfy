/** `convert_json_personal_training_to_human_readable`: one fitness day-record
    rendered as numbered, emoji-annotated lines. */
module Training {
  import opened Wrappers
  import opened Text

  /** One entry of `Exercises`. `Time` may be JSON null, zero, or a (possibly
      fractional) amount; `TimeUnits` and `Comments` may be null. `None`
      stands for null: every key is present. */
  datatype Exercise = Exercise(
    name: string,
    nSets: int,
    nReps: int,
    time: Option<real>,
    timeUnits: Option<string>,
    comments: Option<string>)

  /** One day-record: the fields the renderer reads. */
  datatype DayRecord = DayRecord(
    inGym: bool,
    year: int,
    week: int,
    day: int,
    exercises: seq<Exercise>,
    totalNumberExercises: int,
    totalTime: real)

  /** The fixed phrases of the day text, gathered in one value so that the
      layout is stated once for any wording and the renderer's own wording is
      `Standard`. */
  datatype Wording = Wording(
    dayWord: string,
    weekWord: string,
    yearWord: string,
    titleEnd: string,
    gym: string,
    outdoor: string,
    header: string,
    minutes: string,
    seconds: string,
    setsBy: string,
    timeEnd: string,
    repsEnd: string,
    commentStart: string,
    totalExercisesStart: string,
    totalExercisesEnd: string,
    totalTimeStart: string,
    totalTimeEnd: string)

  // The phrases of utils/utils.py, one constant each.
  const DayWord: string := "День "
  const WeekWord: string := " КД "
  const YearWord: string := " Год "
  const TitleEnd: string := " - еще одна тренировочка, солнышко!!! 🌞\n"
  const GymText: string := "\U{1F3CB}\U{FE0F}\U{200D}\U{2640}\U{FE0F} Ой, как здорово! Сегодня тренировочка в тренажерном зале! 💪\n"
  const OutdoorText: string := "🌳 Ура! Сегодня тренируемся на свежем воздухе! 🍃\n"
  const Header: string := "Твои упражнения на сегодня:\n"
  const Minutes: string := "мин"
  const Seconds: string := "сек"
  const SetsBy: string := " серии по "
  const TimeEnd: string := ". 🌟"
  const RepsEnd: string := " повторений. ✨"
  const CommentStart: string := "\n    💬 Комментарии: "
  const TotalExercisesStart: string := "\n🔥 Всего упражнений сегодня: "
  const TotalExercisesEnd: string := " - ты молодец!"
  const TotalTimeStart: string := "⏱ Общее время тренировки: примерно "
  const TotalTimeEnd: string := " минут - замечательно!"

  /** The wording of utils/utils.py. */
  const Standard: Wording := Wording(
    DayWord, WeekWord, YearWord,
    TitleEnd, GymText, OutdoorText, Header,
    Minutes, Seconds, SetsBy, TimeEnd, RepsEnd, CommentStart,
    TotalExercisesStart, TotalExercisesEnd, TotalTimeStart, TotalTimeEnd)

  /** Python's `int(x)` on a float: truncation toward zero. */
  function TruncToInt(x: real): (n: int)
    ensures x >= 0.0 ==> n >= 0 && n as real <= x < n as real + 1.0
    ensures x < 0.0 ==> n <= 0 && n as real - 1.0 < x <= n as real
  {
    if x >= 0.0 then x.Floor else -((-x).Floor)
  }

  /** `if time and time != 0.0`: the time phrasing is used. */
  predicate UsesTime(e: Exercise) {
    e.time.Some? && e.time.value != 0.0
  }

  /** `if comments`: a non-empty comment is present. */
  predicate HasComment(e: Exercise) {
    e.comments.Some? && |e.comments.value| > 0
  }

  /** `"мин" if exercise["TimeUnits"] == "мин" else "сек"`. */
  function Units(w: Wording, e: Exercise): (u: string)
    ensures w.minutes != w.seconds ==> (u == w.minutes <==> e.timeUnits == Some(w.minutes))
    ensures u == w.minutes || u == w.seconds
  {
    if e.timeUnits == Some(w.minutes) then w.minutes else w.seconds
  }

  function Title(w: Wording, d: DayRecord): string {
    w.dayWord + IntToString(d.day) + w.weekWord + IntToString(d.week) + w.yearWord + IntToString(d.year)
      + w.titleEnd
  }

  function GymLine(w: Wording, inGym: bool): string {
    if inGym then w.gym else w.outdoor
  }

  /** The amount part of an exercise line: sets by time or sets by repetitions. */
  function Amount(w: Wording, e: Exercise): string {
    if UsesTime(e) then
      IntToString(TruncToInt(e.time.value)) + " " + Units(w, e) + w.timeEnd
    else
      IntToString(e.nReps) + w.repsEnd
  }

  function CommentLine(w: Wording, e: Exercise): string {
    if HasComment(e) then w.commentStart + e.comments.value + "\n" else ""
  }

  /** "{index}. {name} - {n_sets} серии по ". */
  function Lead(w: Wording, index: int, e: Exercise): string {
    IntToString(index) + ". " + e.name + " - " + IntToString(e.nSets) + w.setsBy
  }

  /** `exercise_info` for the exercise numbered `index`. */
  function ExerciseInfo(w: Wording, index: int, e: Exercise): string {
    Lead(w, index, e) + Amount(w, e) + CommentLine(w, e)
  }

  /** One line per exercise, numbered from 1 in input order. */
  function ExerciseLines(w: Wording, es: seq<Exercise>): (lines: seq<string>)
    ensures |lines| == |es|
    ensures forall k :: 0 <= k < |es| ==> lines[k] == ExerciseInfo(w, k + 1, es[k])
  {
    seq(|es|, k requires 0 <= k < |es| => ExerciseInfo(w, k + 1, es[k]))
  }

  function TotalExercisesLine(w: Wording, total: int): string {
    w.totalExercisesStart + IntToString(total) + w.totalExercisesEnd
  }

  /** `int(data["TotalTime"] / 60)`: seconds to whole minutes, truncated. */
  function TotalMinutes(totalTime: real): int {
    TruncToInt(totalTime / 60.0)
  }

  function TotalTimeLine(w: Wording, totalTime: real): string {
    w.totalTimeStart + IntToString(TotalMinutes(totalTime)) + w.totalTimeEnd
  }

  /** The three parts before the exercises. */
  function Opening(w: Wording, d: DayRecord): seq<string> {
    [Title(w, d), GymLine(w, d.inGym), w.header]
  }

  /** The two totals lines after the exercises. */
  function Totals(w: Wording, d: DayRecord): seq<string> {
    [TotalExercisesLine(w, d.totalNumberExercises), TotalTimeLine(w, d.totalTime)]
  }

  /** The list `output` holds when it is joined: title, place, header, the
      exercises, then both totals. */
  function DayParts(w: Wording, d: DayRecord): seq<string> {
    Opening(w, d) + ExerciseLines(w, d.exercises) + Totals(w, d)
  }

  /** The text of one day-record. */
  function DayText(d: DayRecord): string {
    Join(DayParts(Standard, d), "\n")
  }

  /** One more exercise adds one more line at the end. */
  lemma ExerciseLinesSnoc(w: Wording, es: seq<Exercise>, i: nat)
    requires i < |es|
    ensures ExerciseLines(w, es[..i + 1]) == ExerciseLines(w, es[..i]) + [ExerciseInfo(w, i + 1, es[i])]
  {
    var l1 := ExerciseLines(w, es[..i + 1]);
    var l0 := ExerciseLines(w, es[..i]);
    forall k | 0 <= k < i + 1 ensures l1[k] == (l0 + [ExerciseInfo(w, i + 1, es[i])])[k] {
      assert es[..i + 1][k] == es[k];
      if k < i {
        assert es[..i][k] == es[k];
      }
    }
  }

  /** One iteration of the renderer's loop keeps `output` equal to the
      opening parts followed by the lines of the exercises seen so far. */
  lemma RenderStep(w: Wording, d: DayRecord, i: nat)
    requires i < |d.exercises|
    ensures Opening(w, d) + ExerciseLines(w, d.exercises[..i]) + [ExerciseInfo(w, i + 1, d.exercises[i])]
            == Opening(w, d) + ExerciseLines(w, d.exercises[..i + 1])
  {
    ExerciseLinesSnoc(w, d.exercises, i);
    SnocAssoc(Opening(w, d), ExerciseLines(w, d.exercises[..i]), ExerciseInfo(w, i + 1, d.exercises[i]));
  }

  /** Appending both totals lines completes the parts. */
  lemma RenderTotals(w: Wording, d: DayRecord)
    ensures Opening(w, d) + ExerciseLines(w, d.exercises) + [TotalExercisesLine(w, d.totalNumberExercises)]
            + [TotalTimeLine(w, d.totalTime)] == DayParts(w, d)
  {
    SnocTwice(Opening(w, d) + ExerciseLines(w, d.exercises), TotalExercisesLine(w, d.totalNumberExercises),
              TotalTimeLine(w, d.totalTime));
  }

  lemma SnocAssoc<T>(a: seq<T>, b: seq<T>, x: T)
    ensures a + b + [x] == a + (b + [x])
  {
  }

  lemma SnocTwice<T>(a: seq<T>, x: T, y: T)
    ensures a + [x] + [y] == a + [x, y]
  {
  }

  /** Indexing into three fixed parts, a run of parts, then two fixed parts. */
  lemma Sandwich<T>(a: seq<T>, b: seq<T>, c: seq<T>)
    requires |a| == 3 && |c| == 2
    ensures |a + b + c| == |b| + 5
    ensures (a + b + c)[0] == a[0] && (a + b + c)[1] == a[1] && (a + b + c)[2] == a[2]
    ensures forall k :: 0 <= k < |b| ==> (a + b + c)[3 + k] == b[k]
    ensures (a + b + c)[|b| + 3] == c[0] && (a + b + c)[|b| + 4] == c[1]
  {
  }

  /** The renderer: it appends to `output` part by part, one exercise per
      iteration, and joins the list with newlines. */
  method RenderDay(w: Wording, d: DayRecord) returns (text: string)
    ensures text == Join(DayParts(w, d), "\n")
  {
    var output: seq<string> := [];
    output := output + [Title(w, d)];
    output := output + [GymLine(w, d.inGym)];
    output := output + [w.header];
    assert output == Opening(w, d);
    var index := 1;
    while index <= |d.exercises|
      invariant 1 <= index <= |d.exercises| + 1
      invariant output == Opening(w, d) + ExerciseLines(w, d.exercises[..index - 1])
    {
      var info := ExerciseInfo(w, index, d.exercises[index - 1]);
      RenderStep(w, d, index - 1);
      output := output + [info];
      index := index + 1;
    }
    assert d.exercises[..index - 1] == d.exercises;
    output := output + [TotalExercisesLine(w, d.totalNumberExercises)];
    output := output + [TotalTimeLine(w, d.totalTime)];
    RenderTotals(w, d);
    text := Join(output, "\n");
  }

  // ---------------------------------------------------------------- layout

  /** The layout of the parts: five fixed parts around one part per exercise. */
  lemma DayPartsLayout(w: Wording, d: DayRecord)
    ensures |DayParts(w, d)| == |d.exercises| + 5
    ensures DayParts(w, d)[0] == Title(w, d)
    ensures DayParts(w, d)[1] == (if d.inGym then w.gym else w.outdoor)
    ensures DayParts(w, d)[2] == w.header
    ensures forall k :: 0 <= k < |d.exercises| ==> DayParts(w, d)[3 + k] == ExerciseInfo(w, k + 1, d.exercises[k])
    ensures DayParts(w, d)[|d.exercises| + 3] == TotalExercisesLine(w, d.totalNumberExercises)
    ensures DayParts(w, d)[|d.exercises| + 4] == TotalTimeLine(w, d.totalTime)
  {
    Sandwich(Opening(w, d), ExerciseLines(w, d.exercises), Totals(w, d));
  }

  /** The text opens with "День {day} КД {week} Год {year}". */
  lemma RenderedStartsWithDay(w: Wording, d: DayRecord)
    ensures var t := Join(DayParts(w, d), "\n");
            var head := w.dayWord + IntToString(d.day) + w.weekWord + IntToString(d.week) + w.yearWord + IntToString(d.year);
            |head| <= |t| && t[..|head|] == head
  {
    var head := w.dayWord + IntToString(d.day) + w.weekWord + IntToString(d.week) + w.yearWord + IntToString(d.year);
    JoinStartsWithFirst(DayParts(w, d), "\n");
    assert Title(w, d) == head + w.titleEnd;
    assert Title(w, d)[..|head|] == head;
  }

  /** Hence the text contains "День {day}", the fact the rendering tests look for. */
  lemma RenderedContainsDay(d: DayRecord)
    ensures Contains(DayText(d), "День " + IntToString(d.day))
  {
    var w := Standard;
    RenderedStartsWithDay(w, d);
    var t := Join(DayParts(w, d), "\n");
    var p := w.dayWord + IntToString(d.day);
    var head := p + w.weekWord + IntToString(d.week) + w.yearWord + IntToString(d.year);
    assert t[..|p|] == head[..|p|] == p;
    ContainsPrefix(t, p);
  }

  /** Every exercise's line is in the text. */
  lemma RenderedContainsExercise(w: Wording, d: DayRecord, k: nat)
    requires k < |d.exercises|
    ensures Contains(Join(DayParts(w, d), "\n"), ExerciseInfo(w, k + 1, d.exercises[k]))
  {
    var parts := DayParts(w, d);
    assert parts[3 + k] == ExerciseLines(w, d.exercises)[k];
    JoinContainsPart(parts, "\n", 3 + k);
  }

  // ---------------------------------------------------------------- markers

  /** The three markers the phrasing lemmas look for. */
  predicate IsMarker(c: char) {
    c == '🌟' || c == '✨' || c == '💬'
  }

  /** `c` does not occur in the phrases around the numbers of an exercise line. */
  predicate PhrasesFreeOf(w: Wording, c: char) {
    c !in w.setsBy && c !in w.minutes && c !in w.seconds
  }

  /** Each phrasing carries its own marker and no other. */
  predicate MarkersPlaced(w: Wording) {
    PhrasesFreeOf(w, '🌟') && PhrasesFreeOf(w, '✨') && PhrasesFreeOf(w, '💬')
    && '🌟' in w.timeEnd && '✨' !in w.timeEnd && '💬' !in w.timeEnd
    && '✨' in w.repsEnd && '🌟' !in w.repsEnd && '💬' !in w.repsEnd
    && '💬' in w.commentStart && '🌟' !in w.commentStart && '✨' !in w.commentStart
  }

  lemma SetsByFree()
    ensures '🌟' !in SetsBy && '✨' !in SetsBy && '💬' !in SetsBy
  {
  }

  lemma UnitsFree()
    ensures '🌟' !in Minutes && '✨' !in Minutes && '💬' !in Minutes
    ensures '🌟' !in Seconds && '✨' !in Seconds && '💬' !in Seconds
  {
  }

  lemma TimeEndMarked()
    ensures '🌟' in TimeEnd && '✨' !in TimeEnd && '💬' !in TimeEnd
  {
  }

  lemma RepsEndMarked()
    ensures '✨' in RepsEnd && '🌟' !in RepsEnd && '💬' !in RepsEnd
  {
  }

  lemma CommentStartMarked()
    ensures '💬' in CommentStart && '🌟' !in CommentStart && '✨' !in CommentStart
  {
  }

  /** The source's wording places its markers as the phrasing lemmas need. */
  lemma StandardMarkersPlaced()
    ensures MarkersPlaced(Standard)
  {
    SetsByFree();
    UnitsFree();
    TimeEndMarked();
    RepsEndMarked();
    CommentStartMarked();
  }

  /** The numbered lead of an exercise line holds no marker of its own. */
  lemma LeadFreeOf(w: Wording, index: int, e: Exercise, c: char)
    requires IsMarker(c) && PhrasesFreeOf(w, c) && c !in e.name
    ensures c !in Lead(w, index, e)
  {
    IntToStringFreeOf(index, c);
    IntToStringFreeOf(e.nSets, c);
    var s1 := IntToString(index) + ". ";
    assert c !in s1;
    var s2 := s1 + e.name + " - ";
    assert c !in s2;
    var s3 := s2 + IntToString(e.nSets);
    assert c !in s3;
    assert Lead(w, index, e) == s3 + w.setsBy;
  }

  /** The amount shows 🌟 exactly when `Time` is used, ✨ otherwise, and never 💬. */
  lemma AmountMarks(w: Wording, e: Exercise)
    requires MarkersPlaced(w)
    ensures '🌟' in Amount(w, e) <==> UsesTime(e)
    ensures '✨' in Amount(w, e) <==> !UsesTime(e)
    ensures '💬' !in Amount(w, e)
  {
    if UsesTime(e) {
      var n := TruncToInt(e.time.value);
      IntToStringFreeOf(n, '✨');
      IntToStringFreeOf(n, '💬');
      assert Amount(w, e) == IntToString(n) + " " + Units(w, e) + w.timeEnd;
    } else {
      IntToStringFreeOf(e.nReps, '🌟');
      IntToStringFreeOf(e.nReps, '💬');
    }
  }

  /** The comment sub-line shows 💬 exactly when `Comments` is non-empty. */
  lemma CommentMarks(w: Wording, e: Exercise)
    requires MarkersPlaced(w)
    requires e.comments.Some? ==> '🌟' !in e.comments.value && '✨' !in e.comments.value
    ensures '💬' in CommentLine(w, e) <==> HasComment(e)
    ensures '🌟' !in CommentLine(w, e) && '✨' !in CommentLine(w, e)
  {
  }

  /** The time phrasing, marked by 🌟, is used exactly when `Time` is present
      and non-zero; otherwise the repetitions phrasing, marked by ✨. The markers
      are told apart as long as the exercise's own name and comment do not
      contain them. */
  lemma TimePhrasingIff(w: Wording, index: int, e: Exercise)
    requires MarkersPlaced(w)
    requires '🌟' !in e.name && '✨' !in e.name
    requires e.comments.Some? ==> '🌟' !in e.comments.value && '✨' !in e.comments.value
    ensures '🌟' in ExerciseInfo(w, index, e) <==> UsesTime(e)
    ensures '✨' in ExerciseInfo(w, index, e) <==> !UsesTime(e)
  {
    LeadFreeOf(w, index, e, '🌟');
    LeadFreeOf(w, index, e, '✨');
    AmountMarks(w, e);
    CommentMarks(w, e);
  }

  /** The comment sub-line, marked by 💬, is appended exactly when `Comments`
      is non-empty (given the name does not itself contain the marker). */
  lemma CommentLineIff(w: Wording, index: int, e: Exercise)
    requires MarkersPlaced(w)
    requires '💬' !in e.name
    ensures '💬' in ExerciseInfo(w, index, e) <==> HasComment(e)
  {
    LeadFreeOf(w, index, e, '💬');
    AmountMarks(w, e);
  }

  // ---------------------------------------------------------------- numbers

  /** A whole-seconds total shows its minutes rounded down: `div 60`. */
  lemma TotalMinutesOfSeconds(t: nat)
    ensures TotalMinutes(t as real) == t / 60
  {
    var q := t / 60;
    var m := t % 60;
    assert t == 60 * q + m;
    assert (t as real) / 60.0 == q as real + (m as real) / 60.0;
    assert q as real <= (t as real) / 60.0 < q as real + 1.0;
  }

  lemma SmallNumbers()
    ensures IntToString(1) == "1" && IntToString(3) == "3" && IntToString(10) == "10"
  {
    assert NatToString(1) == [DigitChar(1)] == "1";
    assert NatToString(3) == [DigitChar(3)] == "3";
    assert NatToString(10) == NatToString(1) + [DigitChar(0)] == "10";
  }

  /** Three sets of ten with `Time` zero fall back to the repetitions phrasing. */
  lemma ZeroTimeUsesRepetitions(w: Wording, name: string)
    ensures ExerciseInfo(w, 1, Exercise(name, 3, 10, Some(0.0), None, None))
            == "1. " + name + " - 3" + w.setsBy + "10" + w.repsEnd
  {
    var e := Exercise(name, 3, 10, Some(0.0), None, None);
    assert !UsesTime(e);
    SmallNumbers();
    assert Amount(w, e) == "10" + w.repsEnd;
    assert Lead(w, 1, e) == "1. " + name + " - 3" + w.setsBy;
    assert CommentLine(w, e) == "";
  }
}
