/**
 * `process_command`: the command text is lower-cased and split on white
 * space, and only its first word chooses one of five fixed commands; `/stats`
 * is the only one that touches the table.
 */
module Commands {
  import opened Wrappers
  import opened PyText
  import opened PyJson
  import opened Counter

  datatype Command = Help | Joke | Time | Ping | Stats | Unrecognized

  /** The word that selects each recognised command. */
  function Keyword(c: Command): string
    requires c != Unrecognized
  {
    match c
    case Help => "/help"
    case Joke => "/joke"
    case Time => "/time"
    case Ping => "/ping"
    case Stats => "/stats"
  }

  /** The if/elif chain on `cmd[0]`. */
  function CommandFor(word: string): (c: Command)
    ensures c != Unrecognized ==> word == Keyword(c)
  {
    if word == "/help" then Help
    else if word == "/joke" then Joke
    else if word == "/time" then Time
    else if word == "/ping" then Ping
    else if word == "/stats" then Stats
    else Unrecognized
  }

  /** Each keyword selects its own command, so the chain has no shadowed branch. */
  lemma KeywordSelects(c: Command)
    requires c != Unrecognized
    ensures CommandFor(Keyword(c)) == c
  {
  }

  const ListIndexOutOfRange: PyException := PyException(IndexError, "list index out of range")

  /**
   * `cmd = command.lower().split()` followed by `cmd[0]`: the command the
   * first word names, or IndexError when there is no word at all.
   */
  function Lookup(command: string): (r: Result<Command, PyException>)
    ensures r.Failure? <==> AllSpace(command)
    ensures r.Failure? ==> r.error == ListIndexOutOfRange
  {
    var cmd := Split(Lower(command));
    if |cmd| == 0 then
      assert AllSpace(command) by {
        forall i | 0 <= i < |command| ensures IsSpace(command[i]) {
          assert IsSpace(Lower(command)[i]);
        }
      }
      Failure(ListIndexOutOfRange)
    else
      Success(CommandFor(cmd[0]))
  }

  const HelpText: string :=
    "**Comandos disponibles:**\n"
    + "• `/help` - Muestra esta ayuda\n"
    + "• `/joke` - Cuenta un chiste\n"
    + "• `/time` - Muestra la hora actual\n"
    + "• `/stats` - Estadísticas del bot\n"
    + "• `/ping` - Verifica conectividad"

  const Jokes: seq<string> := [
    "¿Por qué los programadores prefieren el modo oscuro? Porque la luz atrae bugs! 🐛",
    "¿Cuál es la diferencia entre HTML y HTML5? Unos 4 años de universidad 😅",
    "¿Por qué los desarrolladores odian la naturaleza? Tiene demasiados bugs 🌲🐛",
    "¿Cómo llamas a un algoritmo que no funciona? Un algo-ritmo! 🎵"
  ]

  /** The element `random.choice` picks from the four jokes. */
  type JokeIndex = i: nat | i < 4

  const PingText: string := "🏓 Pong! Bot funcionando correctamente ✅"

  /** The `/time` reply around the clock's `%Y-%m-%d %H:%M:%S` text; the clock is local, the label says UTC. */
  function TimeReply(clock: string): (text: string)
    ensures |text| > 0 && text[0] == '⏰'
  {
    "⏰ Hora actual: " + clock + " UTC"
  }

  /** What the handler's surroundings decide: the random joke, the clock, and whether the store raises. */
  datatype Env = Env(joke: JokeIndex, clock: string, fault: StoreFault)

  datatype CommandOutcome = CommandOutcome(result: Result<Option<string>, PyException>, rows: map<string, int>)

  /**
   * `process_command(command, username)`: the reply text, None for an
   * unrecognised first word, and the table afterwards.
   */
  function ProcessCommandOutcome(command: string, username: Json, env: Env, rows: map<string, int>): (o: CommandOutcome)
    ensures o.result.Failure? <==> AllSpace(command)
    ensures o.result.Success? ==> (o.result.value.None? <==> Lookup(command) == Success(Unrecognized))
    ensures o.result.Success? && o.result.value.Some? ==> |o.result.value.value| > 0
    ensures Lookup(command) != Success(Stats) ==> o.rows == rows
    ensures Lookup(command) == Success(Stats) ==>
      o == CommandOutcome(Success(Some(StatsCommand(rows, env.fault).text)), StatsCommand(rows, env.fault).rows)
    ensures Lookup(command) == Success(Help) ==> o.result == Success(Some(HelpText))
    ensures Lookup(command) == Success(Ping) ==> o.result == Success(Some(PingText))
    ensures Lookup(command) == Success(Time) ==> o.result == Success(Some(TimeReply(env.clock)))
    ensures Lookup(command) == Success(Joke) ==> o.result == Success(Some(Jokes[env.joke]))
  {
    match Lookup(command)
    case Failure(e) => CommandOutcome(Failure(e), rows)
    case Success(c) =>
      match c
      case Help => CommandOutcome(Success(Some(HelpText)), rows)
      case Joke => CommandOutcome(Success(Some(Jokes[env.joke])), rows)
      case Time => CommandOutcome(Success(Some(TimeReply(env.clock))), rows)
      case Ping => CommandOutcome(Success(Some(PingText)), rows)
      case Stats =>
        var s := StatsCommand(rows, env.fault);
        CommandOutcome(Success(Some(s.text)), s.rows)
      case Unrecognized => CommandOutcome(Success(None), rows)
  }

  /** `process_command` on the bot's table. */
  method ProcessCommand(table: CounterTable, command: string, username: Json, env: Env)
    returns (r: Result<Option<string>, PyException>)
    modifies table
    ensures CommandOutcome(r, table.rows) == ProcessCommandOutcome(command, username, env, old(table.rows))
  {
    var c := Lookup(command);
    if c.Failure? {
      return Failure(c.error);
    }
    match c.value
    case Help => r := Success(Some(HelpText));
    case Joke => r := Success(Some(Jokes[env.joke]));
    case Time => r := Success(Some(TimeReply(env.clock)));
    case Ping => r := Success(Some(PingText));
    case Stats =>
      var text := table.RecordStats(env.fault);
      r := Success(Some(text));
    case Unrecognized => r := Success(None);
  }

  /** The user name is passed to every command but decides nothing. */
  lemma UsernameIgnored(command: string, u1: Json, u2: Json, env: Env, rows: map<string, int>)
    ensures ProcessCommandOutcome(command, u1, env, rows) == ProcessCommandOutcome(command, u2, env, rows)
  {
  }

  /** Prefixing "/" to a name always leaves a first word, so `cmd[0]` never fails; that word is "/" and the name's first word, lower-cased. */
  lemma SlashLookup(name: string)
    ensures Lookup("/" + name) == Success(CommandFor("/" + Word(Lower(name))))
  {
    var s := Lower("/" + name);
    LowerConcat("/", name);
    assert s == "/" + Lower(name);
    FirstWord(s);
    assert s[1..] == Lower(name);
  }

  /** A recognised command is chosen exactly when the name's first word, lower-cased, is its keyword. */
  lemma SlashSelects(name: string, c: Command)
    requires c != Unrecognized
    ensures Lookup("/" + name) == Success(c) <==> "/" + Word(Lower(name)) == Keyword(c)
  {
    SlashLookup(name);
    var word := "/" + Word(Lower(name));
    if word == Keyword(c) {
      KeywordSelects(c);
    }
  }

  /** Lookup does not see letter case. */
  lemma CaseInsensitive(name: string)
    ensures Lookup("/" + name) == Lookup("/" + Lower(name))
  {
    SlashLookup(name);
    SlashLookup(Lower(name));
    LowerIdempotent(name);
  }

  /** Words after the first are ignored. */
  lemma TrailingWordsIgnored(name: string, rest: string)
    requires NoSpace(name)
    requires |rest| > 0 && IsSpace(rest[0])
    ensures Lookup("/" + (name + rest)) == Lookup("/" + name)
  {
    SlashLookup(name + rest);
    SlashLookup(name);
    LowerConcat(name, rest);
    WordStopsAtSpace(Lower(name), Lower(rest));
    WordOfWord(Lower(name));
  }

  /** A first word whose second character cannot start a keyword's name selects nothing. */
  lemma NotAKeyword(word: string)
    requires |word| > 1 && word[1] !in "hjtps"
    ensures CommandFor(word) == Unrecognized
  {
    assert "/help"[1] == 'h' && "/joke"[1] == 'j' && "/time"[1] == 't';
    assert "/ping"[1] == 'p' && "/stats"[1] == 's';
  }

  /** "/true..." selects nothing: only "/time" shares its first letter, and not its second. */
  lemma NotTimeKeyword(word: string)
    requires |word| > 2 && word[1] == 't' && word[2] == 'r'
    ensures CommandFor(word) == Unrecognized
  {
    assert "/time"[2] == 'i';
    assert "/help"[1] == 'h' && "/joke"[1] == 'j';
    assert "/ping"[1] == 'p' && "/stats"[1] == 's';
  }

  /** The first word of a name, lower-cased, starts with the name's first character lower-cased. */
  lemma WordStart(s: string)
    requires |s| > 0 && !IsSpace(s[0])
    ensures |Word(Lower(s))| > 0 && Word(Lower(s))[0] == LowerChar(s[0])
  {
    assert Lower(s)[0] == LowerChar(s[0]);
  }

  /** Apart from True, the text of a non-string value starts with a character no keyword has second. */
  lemma NonStringStart(v: Json)
    requires !v.JStr? && v != JBool(true)
    ensures LowerChar(PyStr(v)[0]) !in "hjtps"
  {
    var s := PyStr(v);
    assert s[0] in "-0123456789[{NF";
  }

  /** "True" lower-cased starts with "tr". */
  lemma TrueWord()
    ensures |Word(Lower("True"))| > 1 && Word(Lower("True"))[1] == 'r'
  {
    var t := Lower("True");
    assert t[0] == 't' && t[1] == 'r';
    assert Word(t) == [t[0]] + Word(t[1..]);
    assert Word(t[1..]) == [t[1]] + Word(t[2..]);
  }

  /** A name that is not a JSON string (None, a number, a list, ...) never names a command. */
  lemma NonStringNameUnrecognized(v: Json)
    requires !v.JStr?
    ensures Lookup("/" + PyStr(v)) == Success(Unrecognized)
  {
    var s := PyStr(v);
    SlashLookup(s);
    WordStart(s);
    var word := "/" + Word(Lower(s));
    assert word[1] == LowerChar(s[0]);
    if v == JBool(true) {
      TrueWord();
      assert word[2] == Word(Lower(s))[1];
      NotTimeKeyword(word);
    } else {
      NonStringStart(v);
      NotAKeyword(word);
    }
  }
}
