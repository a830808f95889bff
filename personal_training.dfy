/** `send_personal_training_for_current_week`: ask the backend for this week's
    plan, render it, send it in chunks, then send the menu. */
module PersonalTraining {
  import opened Wrappers
  import opened Text
  import opened Chunking
  import opened Consts
  import opened Transport
  import opened Messages
  import opened Commands
  import opened Backend
  import opened Training
  import Menu

  /** The query parameters. */
  datatype TrainingParams = TrainingParams(tgId: string, year: int, week: int)

  /** The chat id travels as its decimal text, the year is always 2023, and the
      week is the current calendar week (read from the clock by the caller). */
  function RequestParams(chatId: int, week: int): (p: TrainingParams)
    ensures p.year == 2023 && p.week == week
    ensures p.tgId == IntToString(chatId) && ParseInt(p.tgId) == chatId
  {
    IntRoundTrip(chatId);
    TrainingParams(IntToString(chatId), 2023, week)
  }

  /** The text one resource contributes. */
  function ResourceText(r: Resource<DayRecord>): string {
    match r
    case Record(d) => DayText(d)
    case Other(repr) => repr
  }

  function ResourceTexts(rs: seq<Resource<DayRecord>>): (ts: seq<string>)
    ensures |ts| == |rs|
    ensures forall i :: 0 <= i < |rs| ==> ts[i] == ResourceText(rs[i])
  {
    seq(|rs|, i requires 0 <= i < |rs| => ResourceText(rs[i]))
  }

  /** `formatted_list`, built resource by resource, joined with newlines. */
  method FormatResources(rs: seq<Resource<DayRecord>>) returns (text: string)
    ensures text == Join(ResourceTexts(rs), "\n")
  {
    var formattedList: seq<string> := [];
    for i := 0 to |rs|
      invariant formattedList == ResourceTexts(rs[..i])
    {
      var piece: string;
      match rs[i] {
        case Record(d) =>
          piece := RenderDay(Standard, d);
        case Other(repr) =>
          piece := repr;
      }
      assert rs[..i + 1] == rs[..i] + [rs[i]];
      formattedList := formattedList + [piece];
    }
    assert rs[..|rs|] == rs;
    text := Join(formattedList, "\n");
  }

  /** `formatted_data`. */
  function FormattedData(p: Payload<DayRecord>, m: Messages, week: int): string {
    match p
    case NotListing(repr) => repr
    case Listing(rs) =>
      if |rs| == 0 then NoTrainingText(m, week) else Join(ResourceTexts(rs), "\n")
  }

  /** The texts sent before the menu, for each way the request can end. The
      failed-request reply fills the same placeholder as the empty-plan reply. */
  function Replies(response: Response<DayRecord>, m: Messages, week: int, size: MessageLength): seq<string> {
    match response
    case TimedOut => [m.requestTimeout]
    case Failed(_) => [NoTrainingText(m, week)]
    case Received(status, _, body) =>
      if IsHttpError(status) then [NoTrainingText(m, week)]
      else if body.None? then [m.unexpectedData]
      else Chunks(FormattedData(body.value, m, week), size)
  }

  /** Everything the chat receives: the replies, then the menu. */
  function TrainingEvents(cfg: Config, tables: CommandTables, m: Messages, chatId: int, week: int,
                          response: Response<DayRecord>): seq<Event>
  {
    SentAll(chatId, Replies(response, m, week, cfg.maxMessageLength)) + [Menu.MenuEvent(tables, cfg, chatId)]
  }

  /** A decoded body: build `formatted_data` and send it chunk by chunk. */
  method SendFormatted(bot: Bot, chatId: int, p: Payload<DayRecord>, m: Messages, week: int, size: MessageLength)
    modifies bot
    ensures bot.outbox == old(bot.outbox) + SentAll(chatId, Chunks(FormattedData(p, m, week), size))
  {
    var formattedData: string;
    match p {
      case NotListing(repr) =>
        formattedData := repr;
      case Listing(rs) =>
        if |rs| == 0 {
          formattedData := NoTrainingText(m, week);
        } else {
          formattedData := FormatResources(rs);
        }
    }
    var dataChunks := Chunks(formattedData, size);
    bot.SendEach(chatId, dataChunks);
  }

  method SendPersonalTraining(bot: Bot, cfg: Config, tables: CommandTables, m: Messages,
                              chatId: int, week: int, response: Response<DayRecord>)
    modifies bot
    ensures bot.outbox == old(bot.outbox) + TrainingEvents(cfg, tables, m, chatId, week, response)
  {
    ghost var replies := Replies(response, m, week, cfg.maxMessageLength);
    match response {
      case TimedOut =>
        bot.SendMessage(chatId, m.requestTimeout);
      case Failed(_) =>
        bot.SendMessage(chatId, NoTrainingText(m, week));
      case Received(status, _, body) =>
        if IsHttpError(status) {
          bot.SendMessage(chatId, NoTrainingText(m, week));
        } else if body.None? {
          bot.SendMessage(chatId, m.unexpectedData);
        } else {
          SendFormatted(bot, chatId, body.value, m, week, cfg.maxMessageLength);
        }
    }
    assert bot.outbox == old(bot.outbox) + SentAll(chatId, replies);
    Menu.SendMenu(bot, cfg, tables, chatId);
  }

  // ---------------------------------------------------------------- properties

  /** The menu is the last thing sent, on every path. */
  lemma MenuComesLast(cfg: Config, tables: CommandTables, m: Messages, chatId: int, week: int,
                      response: Response<DayRecord>)
    ensures var e := TrainingEvents(cfg, tables, m, chatId, week, response);
            |e| > 0 && e[|e| - 1] == Menu.MenuEvent(tables, cfg, chatId)
  {
  }

  /** On success the chunks put back together are exactly `formatted_data`. */
  lemma DeliveredIsFormatted(cfg: Config, m: Messages, chatId: int, week: int,
                             status: int, errorText: string, p: Payload<DayRecord>)
    requires !IsHttpError(status)
    ensures Concat(TextsTo(chatId, SentAll(chatId,
              Replies(Received(status, errorText, Some(p)), m, week, cfg.maxMessageLength))))
            == FormattedData(p, m, week)
  {
    var cs := Chunks(FormattedData(p, m, week), cfg.maxMessageLength);
    TextsToSentAll(chatId, cs);
    ChunksConcat(FormattedData(p, m, week), cfg.maxMessageLength);
  }

  /** An empty plan list yields exactly the no-training text for the week. */
  lemma EmptyPlanSaysNoTraining(m: Messages, week: int, size: MessageLength, status: int, errorText: string)
    requires !IsHttpError(status)
    ensures Concat(Replies(Received(status, errorText, Some(Listing([]))), m, week, size))
            == NoTrainingText(m, week)
  {
    ChunksConcat(NoTrainingText(m, week), size);
  }

  /** A non-empty list shows every day-record's "День {day}" title. */
  lemma ListingShowsEveryDay(rs: seq<Resource<DayRecord>>, i: nat, m: Messages, week: int)
    requires i < |rs| && rs[i].Record?
    ensures Contains(FormattedData(Listing(rs), m, week), "День " + IntToString(rs[i].record.day))
  {
    var ts := ResourceTexts(rs);
    JoinContainsPart(ts, "\n", i);
    RenderedContainsDay(rs[i].record);
    ContainsTransitive(Join(ts, "\n"), ts[i], "День " + IntToString(rs[i].record.day));
  }

  /** For a non-empty list, the text the chat reads holds each resource's text
      at its place, in list order: resource `i` is followed by one newline and
      then resource `i + 1`. */
  lemma ListingKeepsOrder(cfg: Config, m: Messages, chatId: int, week: int,
                          status: int, errorText: string, rs: seq<Resource<DayRecord>>)
    requires !IsHttpError(status) && |rs| > 0
    ensures var read := Concat(TextsTo(chatId, SentAll(chatId,
                          Replies(Received(status, errorText, Some(Listing(rs))), m, week, cfg.maxMessageLength))));
            var ts := ResourceTexts(rs);
            (forall i :: 0 <= i < |ts| ==> OccursAt(read, ts[i], JoinOffset(ts, "\n", i)))
            && (forall i :: 0 <= i < |ts| - 1 ==>
                  JoinOffset(ts, "\n", i + 1) == JoinOffset(ts, "\n", i) + |ts[i]| + 1
                  && OccursAt(read, "\n", JoinOffset(ts, "\n", i) + |ts[i]|))
  {
    DeliveredIsFormatted(cfg, m, chatId, week, status, errorText, Listing(rs));
    JoinLayout(ResourceTexts(rs), "\n");
  }
}
