# Fitness-coaching Telegram bot: a Dafny model of its core

The bot is the front end of a personal fitness-coaching service. This
project models the deterministic parts of the bot and proves properties of
them:

- The configuration and its validators: the bot token, the admin chat id,
  and the phone pattern. The model also covers the message-size and version
  constants.
- The command tables, and the menu each role sees.
- The role checks `is_admin` and `is_client`, and the callback
  dispatcher.
- The training-day renderer. It turns one day-record into numbered,
  emoji-annotated lines.
- The personal-training and description handlers. Both split their text
  into message-sized chunks and send them in order. The personal-training
  handler then sends the menu.
- The token-authorisation conversation. It stores the token and writes the
  `X-API-Key` environment variable only when the backend grants access.
- The string steps applied to the language model's report. These are
  boolean normalisation and the backtick-stripping fallback, together with
  attaching the report's metadata.
- The swimming coordination code, as its tests define it.

Sending a message appends `Sent(chatId, text)` to the outbox of a `Bot`
object, and answering a callback query appends `Answered`. A backend reply
is an abstract `Response`: a timeout, a failed request, or a status code
with an optional decoded JSON body. The session's `user_data` and the
process environment are `map` fields of an `Authorize.Session` object.

The training renderer takes its fixed phrases from a `Training.Wording`
value. `Training.Standard` holds the exact phrases of `utils/utils.py`, and
the handlers render with it. The layout lemmas hold for any wording. The
marker lemmas hold for any wording that places its markers as the source
does, and `Training.StandardMarkersPlaced` shows that the source's wording
does.

Modules: `Wrappers` (Option and Result), `Text` (Python's `join`, `split`,
`in`, `replace`, `strip`, `str(int)` and `int(str)`), `Chunking`,
`Transport`, `Consts`, `Commands`, `Access`, `Messages`, `Backend`,
`Reports`, `Training`, `Coordination`, `Menu`, `Description`,
`PersonalTraining`, `QueryHandler` and `Authorize`.

## Model

| member | source | states |
|---|---|---|
| Consts.ParseToken | utils/consts.py:36-40 | every accepted token is digits, `:`, `[A-Za-z0-9_-]+` and an optional final newline, and it renders back to the input |
| Consts.ParseRenderToken | utils/consts.py:38 | every well-formed token is accepted and parsed back into its own parts |
| Consts.TokenMatchesIff | utils/consts.py:38 | the recogniser accepts a string exactly when some well-formed token renders to it |
| Consts.ValidateToken | utils/consts.py:36-40 | Ok exactly for strings of the token's form; Ok returns the value unchanged; otherwise the error is "Invalid Telegram bot token format" |
| Consts.ParseChatId | utils/consts.py:42-46 | every accepted chat id is an optional `-`, one or more digits and an optional final newline, and it renders back to the input |
| Consts.ParseRenderChatId | utils/consts.py:44 | every well-formed chat id is accepted and parsed back into its parts |
| Consts.ChatIdMatchesIff | utils/consts.py:44 | accepted exactly when some well-formed chat id renders to the string |
| Consts.ValidateChatId | utils/consts.py:42-46 | Ok exactly for `-?digits`; Ok returns the value unchanged; otherwise the error is "Invalid Admin chat_id format" |
| Consts.IntToStringIsChatId | utils/consts.py:44 | the decimal text of any integer chat id passes the chat-id validator |
| Consts.ParseGroups | utils/consts.py:50-52 | the digit groups read have the sizes asked for, each with at most one `-` or space before it, and together with the rest they are the input |
| Consts.ParseRenderGroups | utils/consts.py:51 | well-formed groups followed by any rest are read back exactly |
| Consts.ParsePhone | utils/consts.py:50-52 | every accepted phone is `+7` or `8`, then groups of 3, 3, 2 and 2 digits each optionally preceded by `-` or a space, then an optional final newline, rendering back to the input |
| Consts.ParseRenderPhone | utils/consts.py:51 | every well-formed phone is accepted and parsed back into its parts |
| Consts.PhoneMatchesIff | utils/consts.py:50-52 | the pattern matches exactly the strings some well-formed phone renders to |
| Consts.NewConfig | utils/consts.py:11-46 | the configuration is built exactly when the token and admin chat id are valid, with `VERSION = "v1"` and `MAX_MESSAGE_LENGTH = 4090`; otherwise the field errors are listed in field order |
| Commands.UserTable | utils/commands.py:4-6 | the user table is `start` described as "Начать", then `menu` described as "🔍 Меню" |
| Commands.ClientTable | utils/commands.py:9-12 | the client table is the user table, unchanged and in the same order, followed by `get_personal_training` |
| Commands.AdminTable | utils/commands.py:15-16 | the admin table equals the client table |
| Commands.DefaultCommands | utils/commands.py:19-22 | `Commands` bundles the user, client and admin tables |
| Access.IsAdmin | utils/utils.py:127-129 | `is_admin` is equality with `ADMIN_CHAT_ID`; `Menu.RoleMatchesAccess` ties it to the admin menu |
| Access.IsClient | utils/utils.py:132-134 | `is_client` as written, a substring test on `CLIENT_CHAT_ID`; the lemmas below state what it admits |
| Access.ClientIsClient | utils/utils.py:132-134 | the client's own id passes `is_client` |
| Access.IsClientAdmitsOtherChat | utils/utils.py:132-134 | with client id "1234567890", the different chat id "23456" also passes `is_client` |
| Access.IsClientExactIff | utils/utils.py:132-134 | the exact client check holds exactly when the substring test holds for an id of the client id's full length |
| Reports.DefaultReport | utils/utils.py:15-20 | a default report: not injured, all days and all exercises done, no problematic exercises, no comments |
| Reports.FromReportAndMetadata | utils/utils.py:34-47 | the identity fields come from the metadata and every report field is copied unchanged |
| Reports.NormalizeBooleans | utils/utils.py:169 | the length is kept, only `F` becomes `f` and `T` becomes `t`, and neither "True" nor "False" is left |
| Reports.NormalizeIdempotent | utils/utils.py:169 | normalising twice equals normalising once |
| Reports.NormalizeKeepsJson | utils/utils.py:169 | text with no capitalised boolean passes unchanged |
| Reports.StripBackticks | utils/utils.py:173 | the result has no backtick at either end, and it is a contiguous piece of the input with only backticks around it |
| Reports.StripBackticksIdempotent | utils/utils.py:173 | stripping twice equals stripping once |
| Reports.FallbackOnlyAfterFailure | utils/utils.py:170-174 | after a successful first parse, the result does not depend on how the stripped text would parse |
| Reports.FallbackUselessWithoutBackticks | utils/utils.py:172-174 | for text without backticks at its ends, the fallback gives the same result as the first parse |
| Reports.ExtractReport | utils/utils.py:169-176 | a report is produced exactly when the normalised content parses (with the fallback) and validates; it carries the given metadata and the validated fields; a parse failure is reported as such |
| Training.TruncToInt | utils/utils.py:100 | `int()` of a float truncates toward zero: the result is within 1 of the input, on the zero side |
| Training.Units | utils/utils.py:96 | the unit is the minutes word exactly when `TimeUnits` equals it (given the two words differ), and the seconds word otherwise |
| Training.ExerciseLines | utils/utils.py:91-112 | one line per exercise, in input order, numbered from 1 |
| Training.ExerciseInfo | utils/utils.py:91-111 | `exercise_info`; its phrasing is stated by `Training.TimePhrasingIff`, `Training.CommentLineIff` and `Training.ZeroTimeUsesRepetitions` |
| Training.RenderDay | utils/utils.py:66-122 | the loop's output is the day's parts joined with newlines |
| Training.DayPartsLayout | utils/utils.py:73-120 | the parts are the title, the gym-or-outdoor line chosen by `inGym`, the header, one line per exercise numbered 1..N, then the two totals lines |
| Training.RenderedStartsWithDay | utils/utils.py:75-77 | the text opens with the day word, the day, the week word, the week, the year word and the year ("День {day} КД {week} Год {year}" in the source's wording) |
| Training.RenderedContainsDay | utils/utils.py:75-77 | the text of a day-record, in the source's wording, contains "День {day}" |
| Training.RenderedContainsExercise | utils/utils.py:91-112 | every exercise's line is in the text |
| Training.AmountMarks | utils/utils.py:99-107 | for a wording whose markers are placed as in the source, the amount carries 🌟 exactly when the time is present and non-zero, and ✨ otherwise |
| Training.TimePhrasingIff | utils/utils.py:99-107 | for a wording that places the markers (as `Standard` does) and names and comments free of them, an exercise line uses the time phrasing (🌟) iff `Time` is present and non-zero, and the repetitions phrasing (✨) otherwise |
| Training.CommentMarks | utils/utils.py:109-110 | the comment sub-line is present exactly when `Comments` is non-empty |
| Training.StandardMarkersPlaced | utils/utils.py:99-110 | the source's wording places 🌟 only in the time phrasing, ✨ only in the repetitions phrasing and 💬 only in the comment sub-line |
| Training.CommentLineIff | utils/utils.py:109-110 | for a wording that places the markers and names free of 💬, an exercise line carries the 💬 comment sub-line iff `Comments` is non-empty |
| Training.TotalMinutesOfSeconds | utils/utils.py:116 | for a whole, non-negative number of seconds, the minutes shown are `seconds div 60` |
| Training.ZeroTimeUsesRepetitions | utils/utils.py:99-107 | three sets of ten with `Time` 0 are shown with the repetitions phrasing, "1. {name} - 3 серии по 10 повторений. ✨" in the source's wording |
| Coordination.CoordinationCode | tests/test_reformatters.py:137-154 | legs only "н/н", arms only "н/р", neither "упр.", both "в/к" |
| Coordination.CodeDependsOnlyOnLimbs | tests/test_reformatters.py:9-66 | two exercises with the same `Legs` and `Arms` get the same code, whatever their other fields |
| Coordination.CodeIdentifiesLimbs | tests/test_reformatters.py:137-154 | different `Legs`/`Arms` combinations get different codes |
| Menu.RoleOf | handlers/lib/send_menu/send_menu.py:23-35 | admin exactly for the admin id; client exactly for the client id when it is not also the admin id; user otherwise |
| Menu.RoleMatchesAccess | handlers/lib/send_menu/send_menu.py:23-30 | the admin role is `is_admin`, and the client role uses exact equality, not `is_client`'s substring test |
| Menu.MenuLines | handlers/lib/send_menu/send_menu.py:24-35 | one "{cmd} - {desc}" line per table entry, in table order |
| Menu.MenuText | handlers/lib/send_menu/send_menu.py:22-35 | `commands_text`: the lines of the chat's role table joined with newlines; `Menu.MenuTextLines` splits it back |
| Menu.MenuTextLines | handlers/lib/send_menu/send_menu.py:24-35 | for a non-empty table whose entries have no newline, the menu text splits at newlines back into its lines |
| Menu.DefaultMenuLines | handlers/lib/send_menu/send_menu.py:24-35 | for every role, the default menu text splits back into its command lines |
| Menu.SendMenu | handlers/lib/send_menu/send_menu.py:16-36 | exactly one message is sent: the role's menu text |
| Chunking.CeilDivIsCeiling | handlers/lib/get_description/get_description.py:19-22 | the chunk count is zero exactly for empty text, and otherwise it is ceil(len / max) |
| Chunking.Chunks | handlers/lib/get_personal_training/get_personal_training.py:88-91 | there are ceil(len / max) chunks, each non-empty and at most max long, and all but the last exactly max long |
| Chunking.ChunksConcat | handlers/lib/get_personal_training/get_personal_training.py:88-91 | concatenating the chunks gives back the text exactly |
| Chunking.ChunksOfShortText | handlers/lib/get_description/get_description.py:19-22 | a non-empty text within the limit is sent as one message |
| Transport.Bot.SendEach | handlers/lib/get_description/get_description.py:23-24 | one message per chunk, in order, and nothing else |
| Transport.TextsToSentAll | handlers/lib/get_personal_training/get_personal_training.py:93-95 | the recipient reads exactly the chunks sent, in order |
| Description.GetDescription | handlers/lib/get_description/get_description.py:15-24 | the chunks of title+info are sent one message each, in order |
| Description.DescriptionDelivered | handlers/lib/get_description/get_description.py:15-24 | what the chat reads, put back together, is the title followed by the info |
| Description.DescriptionMessageCount | handlers/lib/get_description/get_description.py:19-22 | empty text sends nothing; otherwise ceil(len / max) messages, each within the limit and all but the last exactly at it |
| Messages.FormatWithoutPlaceholder | handlers/lib/get_personal_training/get_personal_training.py:65-67 | a template without the placeholder comes back unchanged |
| Messages.FormatShowsValue | handlers/lib/get_personal_training/get_personal_training.py:65-67 | a template with the placeholder shows the value |
| PersonalTraining.RequestParams | handlers/lib/get_personal_training/get_personal_training.py:30-36 | `tg_id` is the chat id's decimal text, and it parses back to the chat id; `year` is 2023; `week` is the given week |
| PersonalTraining.ResourceTexts | handlers/lib/get_personal_training/get_personal_training.py:73-82 | one text per resource, in order: a dict resource is rendered and any other value is stringified |
| PersonalTraining.FormattedData | handlers/lib/get_personal_training/get_personal_training.py:62-85 | `formatted_data`; `PersonalTraining.EmptyPlanSaysNoTraining` and `PersonalTraining.ListingKeepsOrder` state its two listing branches |
| PersonalTraining.FormatResources | handlers/lib/get_personal_training/get_personal_training.py:72-83 | the loop's output is the resource texts joined with newlines |
| PersonalTraining.SendFormatted | handlers/lib/get_personal_training/get_personal_training.py:62-95 | for a decoded body, the outbox gains one message per chunk of `formatted_data`, in order, and nothing else |
| PersonalTraining.SendPersonalTraining | handlers/lib/get_personal_training/get_personal_training.py:44-122 | the chat gets the replies for the response, then the menu |
| PersonalTraining.MenuComesLast | handlers/lib/get_personal_training/get_personal_training.py:96-122 | on every path, the last message is the menu |
| PersonalTraining.DeliveredIsFormatted | handlers/lib/get_personal_training/get_personal_training.py:84-95 | on success, the chunks the chat reads, put back together, are exactly `formatted_data`, including `str(data)` for a non-dict payload |
| PersonalTraining.EmptyPlanSaysNoTraining | handlers/lib/get_personal_training/get_personal_training.py:64-70 | an empty `Resources` list delivers exactly the no-training text for the week |
| PersonalTraining.ListingShowsEveryDay | handlers/lib/get_personal_training/get_personal_training.py:71-83 | the text for a non-empty list contains "День {day}" for every dict record |
| PersonalTraining.ListingKeepsOrder | handlers/lib/get_personal_training/get_personal_training.py:71-95 | for a non-empty list, the text the chat reads holds the text of resource `i` at its offset, followed by one newline and then the text of resource `i + 1`, in list order |
| QueryHandler.AuthorisedIff | handlers/lib/query_handler/query_handler.py:30-33 | authorised means exactly equal to the admin id or to the client id |
| QueryHandler.Dispatch | handlers/lib/query_handler/query_handler.py:30-56 | the if/elif chain of `callback_query`; `QueryHandler.DispatchIff` states each branch's condition both ways |
| QueryHandler.DispatchIff | handlers/lib/query_handler/query_handler.py:30-56 | each handler runs exactly for its own data from an authorised chat; every other query is denied |
| QueryHandler.PieceOfClientIdDenied | handlers/lib/query_handler/query_handler.py:30-56 | every id that passes `is_client` but is neither the client id nor the admin id is denied, whatever the data |
| QueryHandler.SubstringIdDenied | handlers/lib/query_handler/query_handler.py:30-56 | an instance: for client "1234567890", the id "23456" passes `is_client` and is still denied |
| QueryHandler.CallbackQuery | handlers/lib/query_handler/query_handler.py:25-56 | the query is answered first, then the dispatched handler's messages follow, or the refusal |
| QueryHandler.AnsweredFirst | handlers/lib/query_handler/query_handler.py:25-56 | the answer comes first, and a denied query gets exactly "Доступ запрещен." |
| Authorize.GetToken | handlers/lib/authorize/authorize.py:18-31 | the token prompt is sent, and the state returned is `TOKEN` = 0 |
| Authorize.FirstRecordIsFirst | handlers/lib/authorize/authorize.py:84-103 | the deciding flag is the one at the first dict resource, and there is none exactly when no resource is a dict |
| Authorize.Outcome | handlers/lib/authorize/authorize.py:56-126 | what each way the request ends sends and returns: a granted key always comes with the menu, and the menu is sent exactly when END is returned; otherwise no state is returned |
| Authorize.Session.ReceiveAndSetApiKeyToken | handlers/lib/authorize/authorize.py:33-126 | the token is stored in `api_token` and sent as `api_key`; the state, the environment and the messages sent follow the response's outcome |
| Authorize.Session.DecideByFirstRecord | handlers/lib/authorize/authorize.py:84-103 | the first dict resource decides: if it is allowed, the key is written and the welcome and menu follow; if not, the expired reply and menu follow; both return END; with no dict resource nothing happens |
| Authorize.ForbiddenEnds | handlers/lib/authorize/authorize.py:61-68 | a 403 gives the no-access reply, the menu and END, and writes no key |
| Authorize.HttpErrorReported | handlers/lib/authorize/authorize.py:69-70 | any other client or server error is reported through the `exception` message, with no menu and no state |
| Authorize.EmptyListingUnknownToken | handlers/lib/authorize/authorize.py:76-82 | an empty `Resources` list gives "Такого токена нет :(" and no state |
| Authorize.GrantIff | handlers/lib/authorize/authorize.py:84-95 | `X-API-Key` is written exactly when the request succeeds and the first dict resource is `Allowed` |
| Authorize.EndIff | handlers/lib/authorize/authorize.py:61-103 | END is returned, always after the menu, exactly on a 403 or when a dict resource decides; otherwise no state is returned |
| Authorize.FirstRecordDecides | handlers/lib/authorize/authorize.py:84-103 | resources after the first dict one are ignored |
| Text.SplitJoin | handlers/lib/send_menu/send_menu.py:24 | joining newline-free lines with a newline and splitting at newlines gives the lines back |
| Text.ReplaceLeavesNoOccurrence | utils/utils.py:169 | a replacement that changes only a first letter not found elsewhere in the pattern leaves no occurrence of the pattern |
| Text.StripIdempotent | utils/utils.py:173 | stripping a character is idempotent |
| Text.IntRoundTrip | handlers/lib/get_personal_training/get_personal_training.py:30 | `int(str(n)) == n` |

## Left out

- Python's `\d` also matches non-ASCII decimal digits. The validators and the phone pattern accept ASCII digits only.
- HTTP calls, timeouts and the language-model request become parameters. A reply is an abstract `Backend.Response`, and the model's answer is a `content` string.
- The exception texts are carried by the response. The `str()` of a `RequestException` and of the `HTTPError` that `raise_for_status` raises are library wording.
- JSON decoding and pydantic validation are function parameters of `Reports.ExtractReport`. Decoded bodies are values of `Backend.Payload`.
- Every modelled handler first checks `update.effective_chat is None` and then raises, sending nothing. The exception is `TypeError` at handlers/lib/get_description/get_description.py:13-14, handlers/lib/get_personal_training/get_personal_training.py:27-28, handlers/lib/send_menu/send_menu.py:17-18 and handlers/lib/authorize/authorize.py:37-38, and `ValueError` at handlers/lib/authorize/authorize.py:25-26. `callback_query` has no such check and reads `update.effective_chat.id` directly (handlers/lib/query_handler/query_handler.py:28). The model's handlers take a chat id, so they always have a chat, and none of these paths is modelled.
- A missing key raises `KeyError`, which no handler catches, so the handler stops before the menu is sent. This is not modelled for any key: `Resources` of a dict payload, the day-record keys (`inGym`, `Year`, `Week`, `Day`, `Exercises`, `TotalNumberExercises`, `TotalTime`), the exercise keys (`Name`, `nSets`, `nReps`, `Time`, `TimeUnits`, `Comments`), and `Allowed` of a resource (handlers/lib/authorize/authorize.py:86). The model's `None` for an optional field stands for JSON null.
- The handlers catch `ValueError` for a body that is not JSON. This model follows that branch. In requests versions whose `JSONDecodeError` also derives from `RequestException`, the earlier `RequestException` branch would catch it instead.
- The message file becomes a `Messages.Messages` value. `load_messages` and its file access are not part of this model.
- The calendar week and the year come from the clock. They are parameters.
- `str.format` is modelled only as filling single `{name}` placeholders. Escaped braces and format specifications are not modelled.
- In the failed-request branch of the personal-training handler, the placeholder is spelled `calender_week` instead of `calendar_week`. The model formats that reply like the empty-plan reply.
- `send_menu_handler_factory` is called with one argument in the source although it takes two. The model passes the command tables.
- `send_menu.py` reads `commands.ADMIN.items()` and similar. The model reads the tables of `Commands`.
- `Training.TruncToInt` applies Python's `int()` to a mathematical `real`. The rounding of binary floating point is not modelled.
- The `Training` renderer takes `Name`, `nSets` and `nReps` as already typed values. The inputs to `int(...)` are integers, and the name is text.
- `send_report` raises `NotImplementedError` in the source. In `QueryHandler.CallbackQuery` the report branch sends nothing.
- `EMAIL_PATTERN` has no caller shown, so whether it is used with `match` or `search` is unknown.
- These are not modelled: the prompts text, the start and cancel handlers, the conversation wiring, logging and container setup.
- The swimming renderer, `separator()`, the list renderer and the library form of `handle_coordination` are not part of this model. `Coordination` is fixed by the tests' assertions alone.
- The tests also assert that a separator appears in rendered lists. That depends on `separator()`, which is not part of this model.
- `Transport.TextsTo` ignores any message sent to another chat.
- `Consts.Config` holds only the fields the modelled operations read. The URLs, endpoint names, logging settings and the API key are not modelled.

## Findings

| source | as written | input that shows it | evidently intended | confidence | as-written member | corrected member |
|---|---|---|---|---|---|---|
| utils/utils.py:132-134 | `user_chat_id in cfg.CLIENT_CHAT_ID` is a substring test, because `CLIENT_CHAT_ID` is a string | client id "1234567890", chat id "23456" | `user_chat_id == cfg.CLIENT_CHAT_ID`, the test the menu and the dispatcher use | not executed | Access.IsClientAdmitsOtherChat | Access.IsClientExactIff |
