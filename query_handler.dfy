/** `callback_query`: answer the query, then run at most one handler, chosen
    by the callback data and gated on the chat being the admin or the client. */
module QueryHandler {
  import opened Text
  import opened Consts
  import opened Transport
  import opened Messages
  import opened Commands
  import opened Backend
  import opened Training
  import Access
  import Description
  import PersonalTraining

  datatype Action = ShowDescription | ShowPersonalTraining | SendReport | Deny

  /** `user_chat_id in [cfg.ADMIN_CHAT_ID, cfg.CLIENT_CHAT_ID]`: list membership. */
  predicate Authorised(cfg: Config, chatKey: string) {
    chatKey in [cfg.adminChatId, cfg.clientChatId]
  }

  /** Membership in the list is equality with one of the two ids. */
  lemma AuthorisedIff(cfg: Config, chatKey: string)
    ensures Authorised(cfg, chatKey) <==> Access.IsAdmin(cfg, chatKey) || Access.IsClientExact(cfg, chatKey)
  {
  }

  /** The if/elif chain. */
  function Dispatch(cfg: Config, data: string, chatKey: string): Action {
    if data == "get_description" && Authorised(cfg, chatKey) then ShowDescription
    else if data == "get_personal_training" && Authorised(cfg, chatKey) then ShowPersonalTraining
    else if data == "send_report" && Authorised(cfg, chatKey) then SendReport
    else Deny
  }

  /** Each handler runs exactly for its own data from an authorised chat, and
      everything else is denied. */
  lemma DispatchIff(cfg: Config, data: string, chatKey: string)
    ensures Dispatch(cfg, data, chatKey) == ShowDescription <==> data == "get_description" && Authorised(cfg, chatKey)
    ensures Dispatch(cfg, data, chatKey) == ShowPersonalTraining <==> data == "get_personal_training" && Authorised(cfg, chatKey)
    ensures Dispatch(cfg, data, chatKey) == SendReport <==> data == "send_report" && Authorised(cfg, chatKey)
    ensures Dispatch(cfg, data, chatKey) == Deny <==>
              !Authorised(cfg, chatKey) || (data != "get_description" && data != "get_personal_training" && data != "send_report")
  {
  }

  /** Every id that passes `is_client` only as a piece of the client's id,
      and is not the admin's id, is denied here whatever the data. */
  lemma PieceOfClientIdDenied(cfg: Config, data: string, chatKey: string)
    requires Access.IsClient(cfg, chatKey) && chatKey != cfg.clientChatId && chatKey != cfg.adminChatId
    ensures Dispatch(cfg, data, chatKey) == Deny
  {
  }

  /** An instance: "23456" passes `is_client` for the client "1234567890" and
      is still denied. */
  lemma SubstringIdDenied(cfg: Config, data: string)
    requires cfg.clientChatId == "1234567890" && cfg.adminChatId != "23456"
    ensures Access.IsClient(cfg, "23456") && Dispatch(cfg, data, "23456") == Deny
  {
    Access.IsClientAdmitsOtherChat(cfg);
    PieceOfClientIdDenied(cfg, data, "23456");
  }

  const DeniedText: string := "Доступ запрещен."

  /** What the chat receives after the answer. The report handler is not
      implemented and sends nothing. */
  function CallbackEvents(cfg: Config, tables: CommandTables, m: Messages, data: string,
                          chatId: int, week: int, response: Response<DayRecord>): seq<Event>
  {
    match Dispatch(cfg, data, IntToString(chatId))
    case ShowDescription => SentAll(chatId, Description.DescriptionChunks(cfg, m))
    case ShowPersonalTraining => PersonalTraining.TrainingEvents(cfg, tables, m, chatId, week, response)
    case SendReport => []
    case Deny => [Sent(chatId, DeniedText)]
  }

  method CallbackQuery(bot: Bot, cfg: Config, tables: CommandTables, m: Messages, data: string,
                       chatId: int, week: int, response: Response<DayRecord>)
    modifies bot
    ensures bot.outbox == old(bot.outbox) + [Answered] + CallbackEvents(cfg, tables, m, data, chatId, week, response)
  {
    bot.AnswerCallbackQuery();
    var userChatId := IntToString(chatId);
    var authorised := userChatId in [cfg.adminChatId, cfg.clientChatId];
    if data == "get_description" && authorised {
      Description.GetDescription(bot, cfg, m, chatId);
    } else if data == "get_personal_training" && authorised {
      PersonalTraining.SendPersonalTraining(bot, cfg, tables, m, chatId, week, response);
    } else if data == "send_report" && authorised {
    } else {
      bot.SendMessage(chatId, DeniedText);
    }
  }

  /** The answer comes first, and a denied query gets exactly the refusal. */
  lemma AnsweredFirst(cfg: Config, tables: CommandTables, m: Messages, data: string,
                      chatId: int, week: int, response: Response<DayRecord>)
    ensures var e := [Answered] + CallbackEvents(cfg, tables, m, data, chatId, week, response);
            e[0] == Answered
            && (Dispatch(cfg, data, IntToString(chatId)) == Deny ==> e == [Answered, Sent(chatId, DeniedText)])
  {
  }
}
