/** The token conversation: `get_token` asks for the token, and
    `receive_and_set_api_key_token` stores it, asks the backend whether it
    grants access, and writes it to the `X-API-Key` environment variable only
    when the first dict resource says `Allowed`. */
module Authorize {
  import opened Wrappers
  import opened Text
  import opened Consts
  import opened Transport
  import opened Messages
  import opened Commands
  import opened Backend
  import Menu

  /** The conversation states: `TOKEN` and `ConversationHandler.END`. */
  const TokenState: int := 0
  const End: int := -1

  const TokenPrompt: string := "Пожалуйста, введите ваш токен:"
  const NoAccessText: string := "ОЙ! Доступа нет! :("
  const UnknownTokenText: string := "Такого токена нет :("
  const WelcomeText: string := "Отлично! Солнышко, я тебя узнал! Ты моя умничка, давай начнем тренировки!!!"
  const ExpiredText: string := "Ой! А доступ уже закончился! Нужно запросить новый!"

  const ApiTokenKey: string := "api_token"
  const ApiKeyVariable: string := "X-API-Key"

  /** `get_token`: prompt for the token and wait in state `TOKEN`. */
  method GetToken(bot: Bot, chatId: int) returns (state: int)
    modifies bot
    ensures state == TokenState
    ensures bot.outbox == old(bot.outbox) + [Sent(chatId, TokenPrompt)]
  {
    bot.SendMessage(chatId, TokenPrompt);
    state := TokenState;
  }

  // ---------------------------------------------------------------- the deciding resource

  /** The `Allowed` flag of the first dict resource, if there is one. */
  function FirstRecord(rs: seq<Resource<bool>>): Option<bool>
    decreases |rs|
  {
    if |rs| == 0 then None
    else match rs[0]
      case Record(allowed) => Some(allowed)
      case Other(_) => FirstRecord(rs[1..])
  }

  /** Position `i` holds a dict resource and nothing before it does. */
  predicate IsFirstRecord(rs: seq<Resource<bool>>, i: int) {
    0 <= i < |rs| && rs[i].Record? && forall j :: 0 <= j < i ==> rs[j].Other?
  }

  /** `FirstRecord` is the flag at the first dict position, and `None` exactly
      when there is no dict resource at all. */
  lemma {:induction false} FirstRecordIsFirst(rs: seq<Resource<bool>>)
    ensures FirstRecord(rs).None? <==> forall j :: 0 <= j < |rs| ==> rs[j].Other?
    ensures forall i :: IsFirstRecord(rs, i) ==> FirstRecord(rs) == Some(rs[i].record)
    decreases |rs|
  {
    if |rs| > 0 {
      FirstRecordIsFirst(rs[1..]);
      if rs[0].Other? {
        forall i | IsFirstRecord(rs, i) ensures FirstRecord(rs) == Some(rs[i].record) {
          assert i > 0;
          assert IsFirstRecord(rs[1..], i - 1) by {
            forall j | 0 <= j < i - 1 ensures rs[1..][j].Other? {
              assert rs[1..][j] == rs[j + 1];
            }
          }
        }
        if forall j :: 0 <= j < |rs[1..]| ==> rs[1..][j].Other? {
          forall j | 0 <= j < |rs| ensures rs[j].Other? {
            if j > 0 {
              assert rs[j] == rs[1..][j - 1];
            }
          }
        }
      }
    }
  }

  // ---------------------------------------------------------------- the outcome

  /** The texts sent, whether the menu follows, whether the key is written, and
      the returned state. */
  datatype AuthOutcome = AuthOutcome(replies: seq<string>, menu: bool, grant: bool, next: Option<int>)

  function Outcome(response: Response<bool>, m: Messages): (o: AuthOutcome)
    ensures o.grant ==> o.menu
    ensures o.menu <==> o.next == Some(End)
    ensures o.next == None || o.next == Some(End)
  {
    match response
    case TimedOut => AuthOutcome([m.requestTimeout], false, false, None)
    case Failed(error) => AuthOutcome([ExceptionText(m, error)], false, false, None)
    case Received(status, errorText, body) =>
      if status == 403 then AuthOutcome([NoAccessText], true, false, Some(End))
      else if IsHttpError(status) then AuthOutcome([ExceptionText(m, errorText)], false, false, None)
      else match body
        case None => AuthOutcome([m.unexpectedData], false, false, None)
        case Some(NotListing(_)) => AuthOutcome([], false, false, None)
        case Some(Listing(rs)) =>
          if |rs| == 0 then AuthOutcome([UnknownTokenText], false, false, None)
          else match FirstRecord(rs)
            case None => AuthOutcome([], false, false, None)
            case Some(true) => AuthOutcome([WelcomeText], true, true, Some(End))
            case Some(false) => AuthOutcome([ExpiredText], true, false, Some(End))
  }

  /** The events an outcome puts in the chat. */
  function OutcomeEvents(o: AuthOutcome, cfg: Config, tables: CommandTables, chatId: int): seq<Event> {
    SentAll(chatId, o.replies) + (if o.menu then [Menu.MenuEvent(tables, cfg, chatId)] else [])
  }

  /** The per-user session data and the process environment. */
  class Session {
    var userData: map<string, string>
    var environ: map<string, string>

    constructor (userData0: map<string, string>, environ0: map<string, string>)
      ensures userData == userData0 && environ == environ0
    {
      userData := userData0;
      environ := environ0;
    }

    /** `receive_and_set_api_key_token` over the backend's `response`; `params`
        is the query the request carries. */
    method ReceiveAndSetApiKeyToken(bot: Bot, cfg: Config, tables: CommandTables, m: Messages,
                                    text: string, chatId: int, response: Response<bool>)
      returns (next: Option<int>, params: map<string, string>)
      modifies this, bot
      ensures userData == old(userData)[ApiTokenKey := text]
      ensures params == map["api_key" := text]
      ensures next == Outcome(response, m).next
      ensures environ == if Outcome(response, m).grant then old(environ)[ApiKeyVariable := text] else old(environ)
      ensures bot.outbox == old(bot.outbox) + OutcomeEvents(Outcome(response, m), cfg, tables, chatId)
    {
      userData := userData[ApiTokenKey := text];
      var token := userData[ApiTokenKey];
      params := map["api_key" := token];
      next := None;
      match response {
        case TimedOut =>
          bot.SendMessage(chatId, m.requestTimeout);
        case Failed(error) =>
          bot.SendMessage(chatId, ExceptionText(m, error));
        case Received(status, errorText, body) =>
          if status == 403 {
            bot.SendMessage(chatId, NoAccessText);
            Menu.SendMenu(bot, cfg, tables, chatId);
            next := Some(End);
          } else if IsHttpError(status) {
            bot.SendMessage(chatId, ExceptionText(m, errorText));
          } else if body.None? {
            bot.SendMessage(chatId, m.unexpectedData);
          } else if body.value.Listing? {
            var resources := body.value.resources;
            if |resources| == 0 {
              bot.SendMessage(chatId, UnknownTokenText);
            } else {
              next := DecideByFirstRecord(bot, cfg, tables, chatId, token, resources);
            }
          }
      }
    }

    /** The loop over the resources: the first dict one decides, and returns. */
    method DecideByFirstRecord(bot: Bot, cfg: Config, tables: CommandTables, chatId: int,
                               token: string, resources: seq<Resource<bool>>)
      returns (next: Option<int>)
      modifies this`environ, bot
      ensures next == (if FirstRecord(resources).Some? then Some(End) else None)
      ensures environ == if FirstRecord(resources) == Some(true) then old(environ)[ApiKeyVariable := token] else old(environ)
      ensures bot.outbox == old(bot.outbox) + match FirstRecord(resources)
                case None => []
                case Some(true) => [Sent(chatId, WelcomeText), Menu.MenuEvent(tables, cfg, chatId)]
                case Some(false) => [Sent(chatId, ExpiredText), Menu.MenuEvent(tables, cfg, chatId)]
    {
      var i := 0;
      while i < |resources|
        invariant 0 <= i <= |resources|
        invariant FirstRecord(resources) == FirstRecord(resources[i..])
        invariant environ == old(environ) && bot.outbox == old(bot.outbox)
      {
        assert resources[i..][1..] == resources[i + 1..];
        if resources[i].Record? {
          if resources[i].record {
            environ := environ[ApiKeyVariable := token];
            bot.SendMessage(chatId, WelcomeText);
            Menu.SendMenu(bot, cfg, tables, chatId);
          } else {
            bot.SendMessage(chatId, ExpiredText);
            Menu.SendMenu(bot, cfg, tables, chatId);
          }
          return Some(End);
        }
        i := i + 1;
      }
      return None;
    }
  }

  // ---------------------------------------------------------------- properties

  /** 403: the no-access reply, the menu and `END`; the key is not written. */
  lemma ForbiddenEnds(m: Messages, errorText: string, body: Option<Payload<bool>>)
    ensures var o := Outcome(Received(403, errorText, body), m);
            o.replies == [NoAccessText] && o.menu && !o.grant && o.next == Some(End)
  {
  }

  /** Any other client or server error is reported through the `exception`
      message, with no menu and no state. */
  lemma HttpErrorReported(m: Messages, status: int, errorText: string, body: Option<Payload<bool>>)
    requires IsHttpError(status) && status != 403
    ensures var o := Outcome(Received(status, errorText, body), m);
            o.replies == [ExceptionText(m, errorText)] && !o.menu && !o.grant && o.next == None
  {
  }

  /** An empty resource list: the unknown-token reply and no state. */
  lemma EmptyListingUnknownToken(m: Messages, status: int, errorText: string)
    requires !IsHttpError(status)
    ensures var o := Outcome(Received(status, errorText, Some(Listing([]))), m);
            o.replies == [UnknownTokenText] && !o.menu && !o.grant && o.next == None
  {
  }

  /** The key is written exactly when the request succeeds and the first dict
      resource is `Allowed`. */
  lemma GrantIff(response: Response<bool>, m: Messages)
    ensures Outcome(response, m).grant <==>
              response.Received? && !IsHttpError(response.status)
              && response.body.Some? && response.body.value.Listing?
              && FirstRecord(response.body.value.resources) == Some(true)
  {
  }

  /** `END` is returned, always with the menu, exactly on a 403 or when a dict
      resource decides; otherwise no state is returned. */
  lemma EndIff(response: Response<bool>, m: Messages)
    ensures var o := Outcome(response, m);
            (o.next == Some(End) <==> o.menu)
            && (o.next != Some(End) ==> o.next == None)
            && (o.next == Some(End) <==>
                  response.Received?
                  && (response.status == 403
                      || (!IsHttpError(response.status) && response.body.Some? && response.body.value.Listing?
                          && FirstRecord(response.body.value.resources).Some?)))
  {
  }

  /** Only the first dict resource counts: whatever follows it is ignored. */
  lemma FirstRecordDecides(others: seq<Resource<bool>>, allowed: bool, rest: seq<Resource<bool>>)
    requires forall j :: 0 <= j < |others| ==> others[j].Other?
    ensures FirstRecord(others + [Record(allowed)] + rest) == Some(allowed)
  {
    var rs := others + [Record(allowed)] + rest;
    FirstRecordIsFirst(rs);
    assert IsFirstRecord(rs, |others|) by {
      forall j | 0 <= j < |others| ensures rs[j].Other? {
        assert rs[j] == others[j];
      }
    }
  }
}
