/** `opener`: the flat, exact-match table from command names to effectors.
    Calling an effector is modelled by the `Effect` it would perform; what
    the effector does is outside this model. */
module OpenerDecisionMaker {
  import opened Wrappers
  import opened JsonValue

  /** The closed vocabulary of supported commands, in the table's order. */
  datatype Command =
    | OpenGoogleChrome | GoogleSearch | OpenCalculator | OpenNotepad | OpenFileExplorer
    | OpenCmd | OpenTaskManager | OpenWindowsMediaPlayer | OpenControlPanel | OpenSettings
    | WriteInNotepad
    | DisableWifi | EnableWifi | DisableBluetooth | EnableBluetooth
    | MuteVolume | UnmuteVolume | IncreaseVolume | DecreaseVolume
    | IncreaseBrightness | DecreaseBrightness
    | ShutdownSystem | RestartSystem | LockScreen | SignOut
    | GetTime | GetNews

  /** The name the classifier uses for each command. */
  function Name(c: Command): string
  {
    match c
    case OpenGoogleChrome => "open_google_chrome"
    case GoogleSearch => "google_search"
    case OpenCalculator => "open_calculator"
    case OpenNotepad => "open_notepad"
    case OpenFileExplorer => "open_file_explorer"
    case OpenCmd => "open_cmd"
    case OpenTaskManager => "open_task_manager"
    case OpenWindowsMediaPlayer => "open_windows_media_player"
    case OpenControlPanel => "open_control_panel"
    case OpenSettings => "open_settings"
    case WriteInNotepad => "write_in_notepad"
    case DisableWifi => "disable_wifi"
    case EnableWifi => "enable_wifi"
    case DisableBluetooth => "disable_bluetooth"
    case EnableBluetooth => "enable_bluetooth"
    case MuteVolume => "mute_volume"
    case UnmuteVolume => "unmute_volume"
    case IncreaseVolume => "increase_volume"
    case DecreaseVolume => "decrease_volume"
    case IncreaseBrightness => "increase_brightness"
    case DecreaseBrightness => "decrease_brightness"
    case ShutdownSystem => "shutdown_system"
    case RestartSystem => "restart_system"
    case LockScreen => "lock_screen"
    case SignOut => "sign_out"
    case GetTime => "get_time"
    case GetNews => "get_news"
  }

  /** The `if`/`elif` chain: the first branch whose name equals `name`,
      taken one section of the chain at a time. */
  function Lookup(name: string): (r: Option<Command>)
    ensures r.Some? ==> Name(r.value) == name
  {
    match LookupApps(name)
    case Some(c) => Some(c)
    case None =>
      match LookupSystem(name)
      case Some(c) => Some(c)
      case None =>
        match LookupPower(name)
        case Some(c) => Some(c)
        case None => LookupBaseUse(name)
  }

  /** The "Apps" section of the chain. */
  function LookupApps(name: string): (r: Option<Command>)
    ensures r.Some? ==> Name(r.value) == name
  {
    if name == "open_google_chrome" then Some(OpenGoogleChrome)
    else if name == "google_search" then Some(GoogleSearch)
    else if name == "open_calculator" then Some(OpenCalculator)
    else if name == "open_notepad" then Some(OpenNotepad)
    else if name == "open_file_explorer" then Some(OpenFileExplorer)
    else if name == "open_cmd" then Some(OpenCmd)
    else if name == "open_task_manager" then Some(OpenTaskManager)
    else if name == "open_windows_media_player" then Some(OpenWindowsMediaPlayer)
    else if name == "open_control_panel" then Some(OpenControlPanel)
    else if name == "open_settings" then Some(OpenSettings)
    else if name == "write_in_notepad" then Some(WriteInNotepad)
    else None
  }

  /** The "System" section of the chain: the radios, then sound and screen. */
  function LookupSystem(name: string): (r: Option<Command>)
    ensures r.Some? ==> Name(r.value) == name
  {
    match LookupRadios(name)
    case Some(c) => Some(c)
    case None => LookupSoundAndScreen(name)
  }

  function LookupRadios(name: string): (r: Option<Command>)
    ensures r.Some? ==> Name(r.value) == name
  {
    if name == "disable_wifi" then Some(DisableWifi)
    else if name == "enable_wifi" then Some(EnableWifi)
    else if name == "disable_bluetooth" then Some(DisableBluetooth)
    else if name == "enable_bluetooth" then Some(EnableBluetooth)
    else None
  }

  function LookupSoundAndScreen(name: string): (r: Option<Command>)
    ensures r.Some? ==> Name(r.value) == name
  {
    if name == "mute_volume" then Some(MuteVolume)
    else if name == "unmute_volume" then Some(UnmuteVolume)
    else if name == "increase_volume" then Some(IncreaseVolume)
    else if name == "decrease_volume" then Some(DecreaseVolume)
    else if name == "increase_brightness" then Some(IncreaseBrightness)
    else if name == "decrease_brightness" then Some(DecreaseBrightness)
    else None
  }

  /** The "Power / Session" section of the chain. */
  function LookupPower(name: string): (r: Option<Command>)
    ensures r.Some? ==> Name(r.value) == name
  {
    if name == "shutdown_system" then Some(ShutdownSystem)
    else if name == "restart_system" then Some(RestartSystem)
    else if name == "lock_screen" then Some(LockScreen)
    else if name == "sign_out" then Some(SignOut)
    else None
  }

  /** The "Base Use" section of the chain. */
  function LookupBaseUse(name: string): (r: Option<Command>)
    ensures r.Some? ==> Name(r.value) == name
  {
    if name == "get_time" then Some(GetTime)
    else if name == "get_news" then Some(GetNews)
    else None
  }

  /** Every command is reached by exactly its own name: no two branches of
      the table share a name, and no branch shadows another. */
  lemma LookupName(c: Command)
    ensures Lookup(Name(c)) == Some(c)
  {
    match c
    case OpenGoogleChrome | GoogleSearch | OpenCalculator | OpenNotepad | OpenFileExplorer | OpenCmd | OpenTaskManager | OpenWindowsMediaPlayer => LookupBrowserAndTools();
    case OpenControlPanel | OpenSettings | WriteInNotepad => LookupPanelsAndEditor();
    case DisableWifi | EnableWifi => LookupWifi();
    case DisableBluetooth | EnableBluetooth => LookupBluetooth();
    case MuteVolume | UnmuteVolume => LookupMute();
    case IncreaseVolume | DecreaseVolume => LookupVolumeSteps();
    case IncreaseBrightness => LookupBrightnessUp();
    case DecreaseBrightness => LookupBrightnessDown();
    case ShutdownSystem => LookupShutdown();
    case RestartSystem => LookupRestart();
    case LockScreen => LookupLock();
    case SignOut => LookupSignOut();
    case GetTime => LookupTime();
    case GetNews => LookupNews();
  }

  /** The table is exact: `Lookup` finds command `c` exactly for the name of
      `c`, and for no other string. */
  lemma LookupIffName(name: string, c: Command)
    ensures Lookup(name) == Some(c) <==> name == Name(c)
  {
    if name == Name(c) {
      LookupName(c);
    }
  }

  // The table lookups behind LookupName, a few names at a time so that each
  // proof obligation stays small.

  lemma LookupBrowserAndTools()
    ensures Lookup("open_google_chrome") == Some(OpenGoogleChrome)
    ensures Lookup("google_search") == Some(GoogleSearch)
    ensures Lookup("open_calculator") == Some(OpenCalculator)
    ensures Lookup("open_notepad") == Some(OpenNotepad)
    ensures Lookup("open_file_explorer") == Some(OpenFileExplorer)
    ensures Lookup("open_cmd") == Some(OpenCmd)
    ensures Lookup("open_task_manager") == Some(OpenTaskManager)
    ensures Lookup("open_windows_media_player") == Some(OpenWindowsMediaPlayer)
  {
  }

  lemma LookupPanelsAndEditor()
    ensures Lookup("open_control_panel") == Some(OpenControlPanel)
    ensures Lookup("open_settings") == Some(OpenSettings)
    ensures Lookup("write_in_notepad") == Some(WriteInNotepad)
  {
  }

  lemma LookupWifi()
    ensures Lookup("disable_wifi") == Some(DisableWifi)
    ensures Lookup("enable_wifi") == Some(EnableWifi)
  {
  }

  lemma LookupBluetooth()
    ensures Lookup("disable_bluetooth") == Some(DisableBluetooth)
    ensures Lookup("enable_bluetooth") == Some(EnableBluetooth)
  {
  }

  lemma LookupMute()
    ensures Lookup("mute_volume") == Some(MuteVolume)
    ensures Lookup("unmute_volume") == Some(UnmuteVolume)
  {
  }

  lemma LookupVolumeSteps()
    ensures Lookup("increase_volume") == Some(IncreaseVolume)
    ensures Lookup("decrease_volume") == Some(DecreaseVolume)
  {
  }

  lemma LookupBrightnessUp()
    ensures Lookup("increase_brightness") == Some(IncreaseBrightness)
  {
  }

  lemma LookupBrightnessDown()
    ensures Lookup("decrease_brightness") == Some(DecreaseBrightness)
  {
  }

  lemma LookupShutdown()
    ensures Lookup("shutdown_system") == Some(ShutdownSystem)
  {
  }

  lemma LookupRestart()
    ensures Lookup("restart_system") == Some(RestartSystem)
  {
  }

  lemma LookupLock()
    ensures Lookup("lock_screen") == Some(LockScreen)
  {
  }

  lemma LookupSignOut()
    ensures Lookup("sign_out") == Some(SignOut)
  {
  }

  lemma LookupTime()
    ensures Lookup("get_time") == Some(GetTime)
  {
  }

  lemma LookupNews()
    ensures Lookup("get_news") == Some(GetNews)
  {
  }

  /** `args[0] if args else None`, after `None` became `[]`: a falsy `args`
      gives None, a list its first element, a string its first character; a
      non-empty object raises KeyError, a non-zero number or `true` TypeError. */
  function FirstArg(args: Json): (r: Result<Option<Json>>)
    ensures !Truthy(args) ==> r == Ok(None)
    ensures args.JArray? && args.items != [] ==> r == Ok(Some(args.items[0]))
    ensures args.JString? && args.s != [] ==> r == Ok(Some(JString([args.s[0]])))
    ensures r.Raised? <==> Truthy(args) && (args.JObject? || args.JNumber? || args.JBool?)
  {
    if !Truthy(args) then Ok(None)
    else
      match args
      case JArray(items) => Ok(Some(items[0]))
      case JString(s) => Ok(Some(JString([s[0]])))
      case JObject(_) => Raised("KeyError")
      case _ => Raised("TypeError")
  }

  /** One effector call: the command and the argument it receives. */
  datatype Effect = Effect(command: Command, arg: Option<Json>)

  /** What `opener` does: call an effector and return None, call one and
      return its result, or return a fixed message without calling any. */
  datatype Dispatch = Ran(effect: Effect) | Forwarded(effect: Effect) | Replied(text: string)

  const UnknownCommand := "Sorry, I don't know how to do that."
  const NeedTopic := "Please specify a topic for the news."

  /** Only web search and typing into the editor take an argument. */
  predicate TakesArgument(c: Command)
  {
    c == GoogleSearch || c == WriteInNotepad
  }

  /** `opener(command, args)`. */
  function Opener(command: string, args: Json): (r: Result<Dispatch>)
    ensures FirstArg(args).Raised? <==> r.Raised?
    ensures r.Raised? ==> r == Raised(FirstArg(args).exception)
    ensures r.Ok? && Lookup(command).None? ==> r.value == Replied(UnknownCommand)
    ensures r.Ok? && Lookup(command) == Some(GetTime) ==> r.value == Forwarded(Effect(GetTime, None))
    ensures r.Ok? && Lookup(command) == Some(GetNews) ==>
              var first := FirstArg(args).value;
              r.value == if first.Some? && Truthy(first.value) then Forwarded(Effect(GetNews, first))
                         else Replied(NeedTopic)
    ensures r.Ok? && r.value.Forwarded? ==> r.value.effect.command in {GetTime, GetNews}
    ensures r.Ok? && r.value.Ran? ==>
              && Lookup(command) == Some(r.value.effect.command)
              && r.value.effect.command !in {GetTime, GetNews}
              && r.value.effect.arg == if TakesArgument(r.value.effect.command) then FirstArg(args).value else None
    // Every other command of the table runs its effector and returns None.
    ensures r.Ok? && Lookup(command).Some? && Lookup(command).value !in {GetTime, GetNews} ==>
              var c := Lookup(command).value;
              r.value == Ran(Effect(c, if TakesArgument(c) then FirstArg(args).value else None))
  {
    match FirstArg(args)
    case Raised(e) => Raised(e)
    case Ok(first) =>
      match Lookup(command)
      case None => Ok(Replied(UnknownCommand))
      case Some(GetTime) => Ok(Forwarded(Effect(GetTime, None)))
      case Some(GetNews) =>
        if first.Some? && Truthy(first.value) then Ok(Forwarded(Effect(GetNews, first)))
        else Ok(Replied(NeedTopic))
      case Some(c) => Ok(Ran(Effect(c, if TakesArgument(c) then first else None)))
  }

  /** "get_time" forwards the clock's reading; "get_news" forwards the news
      service's reply when the first argument is truthy and otherwise asks
      for a topic without calling the service. */
  lemma OpenerInfoCommands(args: Json)
    requires FirstArg(args).Ok?
    ensures Opener("get_time", args) == Ok(Forwarded(Effect(GetTime, None)))
    ensures var first := FirstArg(args).value;
            Opener("get_news", args) ==
              if first.Some? && Truthy(first.value) then Ok(Forwarded(Effect(GetNews, first)))
              else Ok(Replied(NeedTopic))
  {
    LookupTime();
    LookupNews();
  }
}
