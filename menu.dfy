/** `send_menu`: the command table chosen by the chat's role, one
    "{cmd} - {desc}" line per entry, sent as one message. */
module Menu {
  import opened Text
  import opened Consts
  import opened Commands
  import opened Transport
  import Access

  datatype Role = AdminRole | ClientRole | UserRole

  /** The admin id is checked first, then the client id; both by equality. */
  function RoleOf(cfg: Config, chatKey: string): (r: Role)
    ensures r == AdminRole <==> chatKey == cfg.adminChatId
    ensures r == ClientRole <==> chatKey != cfg.adminChatId && chatKey == cfg.clientChatId
    ensures r == UserRole <==> chatKey != cfg.adminChatId && chatKey != cfg.clientChatId
  {
    if chatKey == cfg.adminChatId then AdminRole
    else if chatKey == cfg.clientChatId then ClientRole
    else UserRole
  }

  /** The menu's client test is the exact one, not the substring test of `is_client`. */
  lemma RoleMatchesAccess(cfg: Config, chatKey: string)
    ensures RoleOf(cfg, chatKey) == AdminRole <==> Access.IsAdmin(cfg, chatKey)
    ensures RoleOf(cfg, chatKey) == ClientRole <==>
              !Access.IsAdmin(cfg, chatKey) && Access.IsClientExact(cfg, chatKey)
  {
  }

  function TableFor(tables: CommandTables, role: Role): seq<Command> {
    match role
    case AdminRole => tables.admin
    case ClientRole => tables.client
    case UserRole => tables.user
  }

  function MenuLine(c: Command): string {
    c.name + " - " + c.description
  }

  function MenuLines(table: seq<Command>): (lines: seq<string>)
    ensures |lines| == |table|
    ensures forall i :: 0 <= i < |table| ==> lines[i] == MenuLine(table[i])
  {
    seq(|table|, i requires 0 <= i < |table| => MenuLine(table[i]))
  }

  /** `commands_text`. */
  function MenuText(tables: CommandTables, cfg: Config, chatKey: string): string {
    Join(MenuLines(TableFor(tables, RoleOf(cfg, chatKey))), "\n")
  }

  /** The text splits back at its newlines into the table's lines, in order. */
  lemma MenuTextLines(tables: CommandTables, cfg: Config, chatKey: string)
    requires var t := TableFor(tables, RoleOf(cfg, chatKey));
             |t| > 0 && forall i :: 0 <= i < |t| ==> SingleLine(t[i])
    ensures Split(MenuText(tables, cfg, chatKey), '\n') == MenuLines(TableFor(tables, RoleOf(cfg, chatKey)))
  {
    var t := TableFor(tables, RoleOf(cfg, chatKey));
    var lines := MenuLines(t);
    forall i | 0 <= i < |lines| ensures '\n' !in lines[i] {
      assert lines[i] == t[i].name + " - " + t[i].description;
    }
    SplitJoin(lines, '\n');
  }

  /** Every default table is non-empty and single-line, so the default menus
      always split back into their lines. */
  lemma DefaultMenuLines(cfg: Config, chatKey: string)
    ensures var tables := DefaultCommands();
            Split(MenuText(tables, cfg, chatKey), '\n') == MenuLines(TableFor(tables, RoleOf(cfg, chatKey)))
  {
    var tables := DefaultCommands();
    DefaultEntriesSingleLine();
    var t := TableFor(tables, RoleOf(cfg, chatKey));
    if RoleOf(cfg, chatKey) == UserRole {
      assert t == [StartCommand, MenuCommand];
    } else {
      assert t == [StartCommand, MenuCommand, GetPersonalTrainingCommand];
    }
    MenuTextLines(tables, cfg, chatKey);
  }

  /** The one message `send_menu` sends. */
  function MenuEvent(tables: CommandTables, cfg: Config, chatId: int): Event {
    Sent(chatId, MenuText(tables, cfg, IntToString(chatId)))
  }

  method SendMenu(bot: Bot, cfg: Config, tables: CommandTables, chatId: int)
    modifies bot
    ensures bot.outbox == old(bot.outbox) + [MenuEvent(tables, cfg, chatId)]
  {
    var chatKey := IntToString(chatId);
    var commandsText: string;
    if chatKey == cfg.adminChatId {
      commandsText := Join(MenuLines(tables.admin), "\n");
    } else if chatKey == cfg.clientChatId {
      commandsText := Join(MenuLines(tables.client), "\n");
    } else {
      commandsText := Join(MenuLines(tables.user), "\n");
    }
    bot.SendMessage(chatId, commandsText);
  }
}
