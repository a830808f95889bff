/** The client report kept by the bot, and the two string steps applied to the
    language model's answer before it is parsed as a report. */
module Reports {
  import opened Wrappers
  import opened Text

  /** `Report`, with pydantic's field defaults. */
  datatype Report = Report(
    isInjured: bool,
    allDaysDone: bool,
    allExercisesDone: bool,
    problematicExercises: seq<string>,
    comments: Option<string>)

  function DefaultReport(): (r: Report)
    ensures !r.isInjured && r.allDaysDone && r.allExercisesDone
    ensures r.problematicExercises == [] && r.comments == None
  {
    Report(false, true, true, [], None)
  }

  datatype MetaData = MetaData(tgId: int, year: int, week: int)

  /** `ReportWithMetadata(Report)`: every report field plus the three metadata fields. */
  datatype ReportWithMetadata = ReportWithMetadata(
    tgId: int,
    year: int,
    week: int,
    isInjured: bool,
    allDaysDone: bool,
    allExercisesDone: bool,
    problematicExercises: seq<string>,
    comments: Option<string>)

  /** The report fields of a `ReportWithMetadata`. */
  function ReportPart(x: ReportWithMetadata): Report {
    Report(x.isInjured, x.allDaysDone, x.allExercisesDone, x.problematicExercises, x.comments)
  }

  /** The metadata fields of a `ReportWithMetadata`. */
  function MetadataPart(x: ReportWithMetadata): MetaData {
    MetaData(x.tgId, x.year, x.week)
  }

  /** `ReportWithMetadata.from_report_and_metadata`: the identity fields come from
      the metadata, every other field is copied from the report. */
  function FromReportAndMetadata(report: Report, metadata: MetaData): (x: ReportWithMetadata)
    ensures ReportPart(x) == report && MetadataPart(x) == metadata
  {
    ReportWithMetadata(metadata.tgId, metadata.year, metadata.week,
      report.isInjured, report.allDaysDone, report.allExercisesDone,
      report.problematicExercises, report.comments)
  }

  /** Nothing is lost: every record is built from its own two parts. */
  lemma FromPartsRebuilds(x: ReportWithMetadata)
    ensures FromReportAndMetadata(ReportPart(x), MetadataPart(x)) == x
  {
  }

  // ---------------------------------------------------------------- boolean spelling

  /** `last_response.replace("False", "false").replace("True", "true")`: Python's
      capitalised booleans become JSON's. Only `F` and `T` ever change, the length
      is kept, and neither capitalised word is left anywhere. */
  function NormalizeBooleans(s: string): (r: string)
    ensures |r| == |s|
    ensures forall i :: 0 <= i < |s| ==>
              r[i] == s[i] || (s[i] == 'F' && r[i] == 'f') || (s[i] == 'T' && r[i] == 't')
    ensures !Contains(r, "True") && !Contains(r, "False")
  {
    var s1 := ReplaceAll(s, "False", "false");
    var r := ReplaceAll(s1, "True", "true");
    assert SelfErasing("False", "false") by {
      assert "False"[1..] == "false"[1..] == "alse";
    }
    assert SelfErasing("True", "true") by {
      assert "True"[1..] == "true"[1..] == "rue";
    }
    ReplaceFirstLetterPointwise(s, "False", "false");
    ReplaceLeavesNoOccurrence(s, "False", "false");
    ReplaceFirstLetterPointwise(s1, "True", "true");
    ReplaceLeavesNoOccurrence(s1, "True", "true");
    ChangedOnlyAtKeepsAbsence(s1, r, 'T', 't', "False");
    r
  }

  /** Normalising twice is normalising once. */
  lemma NormalizeIdempotent(s: string)
    ensures NormalizeBooleans(NormalizeBooleans(s)) == NormalizeBooleans(s)
  {
    var r := NormalizeBooleans(s);
    ReplaceAbsent(r, "False", "false");
    ReplaceAbsent(r, "True", "true");
  }

  /** Text that already spells its booleans in JSON passes unchanged. */
  lemma NormalizeKeepsJson(s: string)
    requires !Contains(s, "True") && !Contains(s, "False")
    ensures NormalizeBooleans(s) == s
  {
    ReplaceAbsent(s, "False", "false");
    ReplaceAbsent(s, "True", "true");
  }

  // ---------------------------------------------------------------- backtick fallback

  /** `cleaned_response = last_response.strip("`")`. */
  function StripBackticks(s: string): (r: string)
    ensures |r| == 0 || (r[0] != '`' && r[|r| - 1] != '`')
    ensures exists a | 0 <= a <= |s| - |r| ::
              OccursAt(s, r, a)
              && (forall i :: 0 <= i < a ==> s[i] == '`')
              && (forall i :: a + |r| <= i < |s| ==> s[i] == '`')
  {
    Strip(s, '`')
  }

  lemma StripBackticksIdempotent(s: string)
    ensures StripBackticks(StripBackticks(s)) == StripBackticks(s)
  {
    StripIdempotent(s, '`');
  }

  /** The first `json.loads` and, when it fails, the second one on the stripped
      text. `parse` stands for `json.loads`: `None` is a `JSONDecodeError`. */
  function ParseWithFallback<J>(text: string, parse: string -> Option<J>): (r: Option<J>)
    ensures parse(text).Some? ==> r == parse(text)
    ensures parse(text).None? ==> r == parse(StripBackticks(text))
    ensures r.None? <==> parse(text).None? && parse(StripBackticks(text)).None?
  {
    match parse(text)
    case Some(j) => Some(j)
    case None => parse(StripBackticks(text))
  }

  /** When the first parse succeeds, the stripped text is never looked at: two
      parsers that agree on the text itself give the same result. */
  lemma FallbackOnlyAfterFailure<J>(text: string, p: string -> Option<J>, q: string -> Option<J>)
    requires p(text).Some? && p(text) == q(text)
    ensures ParseWithFallback(text, p) == ParseWithFallback(text, q) == p(text)
  {
  }

  /** Text without backticks at its ends gains nothing from the fallback. */
  lemma FallbackUselessWithoutBackticks<J>(text: string, parse: string -> Option<J>)
    requires |text| == 0 || (text[0] != '`' && text[|text| - 1] != '`')
    ensures ParseWithFallback(text, parse) == parse(text)
  {
    assert LeadingRun(text, '`') == 0;
    assert text[0..] == text;
    assert TrailingRun(text, '`') == 0;
    assert text[..|text|] == text;
  }

  datatype ExtractError = ParseError | SchemaError

  /** Lines 169 to 176 of `format_report_with_gpt`: normalise the booleans, parse
      (with the fallback), validate as a `Report` (`validate` stands for pydantic),
      and attach the metadata. */
  function ExtractReport<J>(content: string, metadata: MetaData,
                            parse: string -> Option<J>, validate: J -> Option<Report>)
    : (r: Result<ReportWithMetadata, ExtractError>)
    ensures r.Ok? ==> MetadataPart(r.value) == metadata
    ensures var p := ParseWithFallback(NormalizeBooleans(content), parse);
              (r.Ok? <==> p.Some? && validate(p.value).Some?)
              && (r.Ok? ==> validate(p.value) == Some(ReportPart(r.value)))
              && (r == Err(ParseError) <==> p.None?)
  {
    match ParseWithFallback(NormalizeBooleans(content), parse)
    case None => Err(ParseError)
    case Some(j) =>
      match validate(j)
      case None => Err(SchemaError)
      case Some(report) => Ok(FromReportAndMetadata(report, metadata))
  }
}
