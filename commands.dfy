/** The command tables shown in the menu: the ordered `(command, description)`
    fields of the user, client and admin command models. */
module Commands {

  datatype Command = Command(name: string, description: string)

  const StartCommand: Command := Command("start", "Начать")
  const MenuCommand: Command := Command("menu", "🔍 Меню")
  const GetPersonalTrainingCommand: Command :=
    Command("get_personal_training", "🦾 Получить персональную тренировку")

  /** `UserCommands`: `start` described as "Начать", then `menu` described as "🔍 Меню". */
  function UserTable(): (t: seq<Command>)
    ensures |t| == 2 && t[0].name == "start" && t[1].name == "menu"
    ensures t[0].description == "Начать" && t[1].description == "🔍 Меню"
  {
    [StartCommand, MenuCommand]
  }

  /** `ClientCommands(UserCommands)`: the user entries, redeclared with the same
      values and in the same order, then `get_personal_training`. */
  function ClientTable(): (t: seq<Command>)
    ensures t == UserTable() + [GetPersonalTrainingCommand]
  {
    [Command("start", "Начать"), Command("menu", "🔍 Меню"), GetPersonalTrainingCommand]
  }

  /** `AdminCommands(ClientCommands)` adds nothing. */
  function AdminTable(): (t: seq<Command>)
    ensures t == ClientTable()
  {
    ClientTable()
  }

  /** `Commands`: the three tables together. */
  datatype CommandTables = CommandTables(user: seq<Command>, client: seq<Command>, admin: seq<Command>)

  function DefaultCommands(): (c: CommandTables)
    ensures c.user == UserTable() && c.client == ClientTable() && c.admin == AdminTable()
  {
    CommandTables(UserTable(), ClientTable(), AdminTable())
  }

  /** Field names are unique within every table, as model fields must be. */
  predicate DistinctNames(t: seq<Command>) {
    forall i, j :: 0 <= i < j < |t| ==> t[i].name != t[j].name
  }

  predicate SingleLine(c: Command) {
    '\n' !in c.name && '\n' !in c.description
  }

  /** No entry spans lines, so each becomes one menu line. */
  lemma DefaultEntriesSingleLine()
    ensures SingleLine(StartCommand) && SingleLine(MenuCommand) && SingleLine(GetPersonalTrainingCommand)
  {
    NoNewlineIn("start");
    NoNewlineIn("Начать");
    NoNewlineIn("menu");
    NoNewlineIn("🔍 Меню");
    NoNewlineIn("get_personal_training");
    NoNewlineIn("🦾 Получить персональную тренировку");
  }

  lemma NoNewlineIn(s: string)
    requires forall i :: 0 <= i < |s| ==> s[i] != '\n'
    ensures '\n' !in s
  {
  }

  lemma DefaultTablesDistinct()
    ensures DistinctNames(UserTable()) && DistinctNames(ClientTable()) && DistinctNames(AdminTable())
  {
  }
}
