/** The message texts loaded from the bot's message file, and the one piece of
    `str.format` the handlers use: a named placeholder filled with a value. */
module Messages {
  import opened Text

  datatype Messages = Messages(
    descriptionTitle: string,
    descriptionInfo: string,
    noPersonalTraining: string,
    requestTimeout: string,
    unexpectedData: string,
    exception: string)

  /** `template.format(name=value)` for a template whose only braces are
      `{name}` placeholders. */
  function FormatField(template: string, name: string, value: string): (r: string)
  {
    ReplaceAll(template, "{" + name + "}", value)
  }

  /** A template without the placeholder comes back unchanged. */
  lemma FormatWithoutPlaceholder(template: string, name: string, value: string)
    requires !Contains(template, "{" + name + "}")
    ensures FormatField(template, name, value) == template
  {
    ReplaceAbsent(template, "{" + name + "}", value);
  }

  /** A template with the placeholder shows the value. */
  lemma FormatShowsValue(template: string, name: string, value: string)
    requires Contains(template, "{" + name + "}")
    ensures Contains(FormatField(template, name, value), value)
  {
    ReplaceContainsRep(template, "{" + name + "}", value);
  }

  /** `messages["no_personal_training"].format(calendar_week=week)`. */
  function NoTrainingText(m: Messages, week: int): string {
    FormatField(m.noPersonalTraining, "calendar_week", IntToString(week))
  }

  /** `messages["exception"].format(exception=str(e))`. */
  function ExceptionText(m: Messages, error: string): string {
    FormatField(m.exception, "exception", error)
  }
}
