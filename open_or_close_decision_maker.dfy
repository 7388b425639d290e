/** `open_or_close`: the one structural branch in command routing. A name
    ending in ".exe" goes to the process killer, everything else to the
    exact-match table. `Execute` composes the routing with the effectors'
    observable results, given the state of the machine. */
module OpenOrCloseDecisionMaker {
  import opened Wrappers
  import opened Strings
  import opened JsonValue
  import opened OpenerDecisionMaker
  import ProgramCloser
  import Info
  import News

  /** `re.search(r"\.exe$", command)`: case-sensitive, at the very end, where
      `$` also matches just before one final newline. */
  predicate RoutesToKill(command: string)
  {
    EndsWith(command, ".exe") || EndsWith(command, ".exe\n")
  }

  datatype Route = KillRoute(program: string) | OpenerRoute(dispatch: Dispatch)

  /** `args = []` when None was passed. */
  function DefaultArgs(args: Json): Json
  {
    if args == JNull then JArray([]) else args
  }

  /** `open_or_close(command, args)`: a non-string command raises TypeError in
      the regular-expression search; a ".exe" name is handed whole to the
      killer; anything else goes to `opener` with the arguments unchanged
      (None having become the empty list). */
  function OpenOrClose(command: Json, args: Json): (r: Result<Route>)
    ensures !command.JString? ==> r == Raised("TypeError")
    ensures command.JString? && RoutesToKill(command.s) ==> r == Ok(KillRoute(command.s))
    ensures command.JString? && !RoutesToKill(command.s) ==>
              match Opener(command.s, DefaultArgs(args))
              case Ok(d) => r == Ok(OpenerRoute(d))
              case Raised(e) => r == Raised(e)
  {
    if !command.JString? then Raised("TypeError")
    else if RoutesToKill(command.s) then Ok(KillRoute(command.s))
    else
      match Opener(command.s, DefaultArgs(args))
      case Ok(d) => Ok(OpenerRoute(d))
      case Raised(e) => Raised(e)
  }

  /** The suffix test is exact: a trailing newline is tolerated, but not a
      further extension or a change of case. */
  lemma ExeSuffixExamples()
    ensures RoutesToKill("notepad.exe")
    ensures RoutesToKill("notepad.exe\n")
    ensures !RoutesToKill("notepad.exe.bak")
    ensures !RoutesToKill("NOTEPAD.EXE")
  {
    assert "notepad.exe"[7..] == ".exe";
    assert "notepad.exe\n"[7..] == ".exe\n";
    assert "notepad.exe.bak"[11..] != ".exe";
    assert "notepad.exe.bak"[10..] != ".exe\n";
    assert "NOTEPAD.EXE"[7..] != ".exe";
    assert "NOTEPAD.EXE"[6..] != ".exe\n";
  }

  /** No name of the table ends in ".exe". */
  lemma NameNotExe(c: Command)
    ensures !RoutesToKill(Name(c))
  {
    match c
    case OpenGoogleChrome | GoogleSearch | OpenCalculator | OpenNotepad | OpenFileExplorer | OpenCmd | OpenTaskManager => NamesNotExe1();
    case OpenWindowsMediaPlayer | OpenControlPanel | OpenSettings | WriteInNotepad | DisableWifi | EnableWifi | DisableBluetooth => NamesNotExe2();
    case EnableBluetooth | MuteVolume | UnmuteVolume | IncreaseVolume | DecreaseVolume | IncreaseBrightness | DecreaseBrightness => NamesNotExe3();
    case ShutdownSystem | RestartSystem | LockScreen | SignOut | GetTime | GetNews => NamesNotExe4();
  }

  // The names behind NameNotExe, a few at a time.

  lemma NamesNotExe1()
    ensures !RoutesToKill("open_google_chrome")
    ensures !RoutesToKill("google_search")
    ensures !RoutesToKill("open_calculator")
    ensures !RoutesToKill("open_notepad")
    ensures !RoutesToKill("open_file_explorer")
    ensures !RoutesToKill("open_cmd")
    ensures !RoutesToKill("open_task_manager")
  {
    assert "open_google_chrome"[16] != 'x';
    assert "google_search"[11] != 'x';
    assert "open_calculator"[13] != 'x';
    assert "open_notepad"[10] != 'x';
    assert "open_file_explorer"[16] != 'x';
    assert "open_cmd"[6] != 'x';
    assert "open_task_manager"[15] != 'x';
  }

  lemma NamesNotExe2()
    ensures !RoutesToKill("open_windows_media_player")
    ensures !RoutesToKill("open_control_panel")
    ensures !RoutesToKill("open_settings")
    ensures !RoutesToKill("write_in_notepad")
    ensures !RoutesToKill("disable_wifi")
    ensures !RoutesToKill("enable_wifi")
    ensures !RoutesToKill("disable_bluetooth")
  {
    assert "open_windows_media_player"[23] != 'x';
    assert "open_control_panel"[16] != 'x';
    assert "open_settings"[11] != 'x';
    assert "write_in_notepad"[14] != 'x';
    assert "disable_wifi"[10] != 'x';
    assert "enable_wifi"[9] != 'x';
    assert "disable_bluetooth"[15] != 'x';
  }

  lemma NamesNotExe3()
    ensures !RoutesToKill("enable_bluetooth")
    ensures !RoutesToKill("mute_volume")
    ensures !RoutesToKill("unmute_volume")
    ensures !RoutesToKill("increase_volume")
    ensures !RoutesToKill("decrease_volume")
    ensures !RoutesToKill("increase_brightness")
    ensures !RoutesToKill("decrease_brightness")
  {
    assert "enable_bluetooth"[14] != 'x';
    assert "mute_volume"[9] != 'x';
    assert "unmute_volume"[11] != 'x';
    assert "increase_volume"[13] != 'x';
    assert "decrease_volume"[13] != 'x';
    assert "increase_brightness"[17] != 'x';
    assert "decrease_brightness"[17] != 'x';
  }

  lemma NamesNotExe4()
    ensures !RoutesToKill("shutdown_system")
    ensures !RoutesToKill("restart_system")
    ensures !RoutesToKill("lock_screen")
    ensures !RoutesToKill("sign_out")
    ensures !RoutesToKill("get_time")
    ensures !RoutesToKill("get_news")
  {
    assert "shutdown_system"[13] != 'x';
    assert "restart_system"[12] != 'x';
    assert "lock_screen"[9] != 'x';
    assert "sign_out"[6] != 'x';
    assert "get_time"[6] != 'x';
    assert "get_news"[6] != 'x';
  }

  /** Every entry of the table stays reachable through `open_or_close`: its
      name is routed to `opener`, which acts on that very entry. */
  lemma TableNamesReachOpener(c: Command, args: Json)
    requires FirstArg(DefaultArgs(args)).Ok?
    ensures var r := OpenOrClose(JString(Name(c)), args);
            && r.Ok? && r.value.OpenerRoute?
            && (r.value.dispatch.Ran? || r.value.dispatch.Forwarded? ==> r.value.dispatch.effect.command == c)
  {
    NameNotExe(c);
    LookupName(c);
  }

  type Hour = h: nat | h < 24
  type Minute = m: nat | m < 60

  /** What the effectors see and do on this machine: the clock, the process
      table and the outcome of each kill, the news service's answer per
      topic, how a non-text topic is rendered, and which side-effecting
      effectors raise. */
  datatype World = World(
    hour: Hour,
    minute: Minute,
    processes: seq<ProgramCloser.Process>,
    kill: ProgramCloser.Process -> ProgramCloser.KillOutcome,
    news: Json -> News.Fetch,
    render: Json -> string,
    raises: Effect -> bool)

  /** The text of an f-string interpolation of a news topic. */
  function TopicText(topic: Json, w: World): string
  {
    if topic.JString? then topic.s else w.render(topic)
  }

  /** The text an effector that returns something gives back. */
  function Returned(e: Effect, w: World): string
  {
    if e.command == GetTime then Info.FormatTime(w.hour, w.minute)
    else
      var topic := e.arg.GetOr(JNull);
      News.GetNews(TopicText(topic, w), w.news(topic))
  }

  /** The value `open_or_close` returns in world `w`, or the exception it
      raises: the kill report, a fixed reply, None after an action, or the
      clock's / news service's text. */
  function Execute(command: Json, args: Json, w: World): (r: Result<Option<string>>)
    ensures command.JString? && RoutesToKill(command.s) ==>
              r == Ok(Some(ProgramCloser.Report(command.s, w.processes, w.kill)))
    ensures r.Ok? && r.value.None? ==>
              OpenOrClose(command, args).Ok? && OpenOrClose(command, args).value.OpenerRoute?
              && OpenOrClose(command, args).value.dispatch.Ran?
    ensures OpenOrClose(command, args).Raised? ==> r == Raised(OpenOrClose(command, args).exception)
    // A fixed reply is returned as it is, a forwarded effector's text is
    // returned, and an effector that only acts gives None unless it raises.
    ensures OpenOrClose(command, args).Ok? && OpenOrClose(command, args).value.OpenerRoute? ==>
              match OpenOrClose(command, args).value.dispatch
              case Replied(t) => r == Ok(Some(t))
              case Forwarded(e) => r == Ok(Some(Returned(e, w)))
              case Ran(e) => (r == Ok(None) <==> !w.raises(e)) && (r.Raised? <==> w.raises(e))
  {
    match OpenOrClose(command, args)
    case Raised(e) => Raised(e)
    case Ok(KillRoute(program)) => Ok(Some(ProgramCloser.Report(program, w.processes, w.kill)))
    case Ok(OpenerRoute(d)) =>
      match d
      case Replied(text) => Ok(Some(text))
      case Forwarded(e) => Ok(Some(Returned(e, w)))
      case Ran(e) => if w.raises(e) then Raised("Exception") else Ok(None)
  }

  /** "get_time" answers with the clock's reading, whatever its arguments,
      as long as they have a first argument `opener` can take. */
  lemma GetTimeReadsClock(args: Json, w: World)
    requires FirstArg(DefaultArgs(args)).Ok?
    ensures Execute(JString("get_time"), args, w) == Ok(Some(Info.FormatTime(w.hour, w.minute)))
  {
    NamesNotExe4();
    LookupTime();
  }
}
