/** The cross-platform command checker: how a launch command is judged
    available on Windows, macOS and Linux without running it, the per-OS
    record lists `test_command` fills, and the pass/fail counts of the
    summary. `shutil.which` on the host is a parameter. */
module CrossPlatform {
  import opened Wrappers
  import opened Strings

  /** The three OS keys, in the order `test_command` visits them. */
  const Oses: seq<string> := ["windows", "darwin", "linux"]

  const CommonWindows: seq<string> :=
    ["notepad", "calc", "explorer", "cmd", "taskmgr", "wmplayer", "control", "chrome", "ms-settings:"]

  const CommonLinux: seq<string> :=
    ["gedit", "kate", "gnome-calculator", "kcalc", "gnome-terminal", "konsole", "gnome-system-monitor",
     "rhythmbox", "vlc", "gnome-control-center", "google-chrome", "chromium-browser"]

  /** The three keys are distinct, so each OS has a list of its own. */
  lemma OsesDistinct()
    ensures forall j, k :: 0 <= j < |Oses| && 0 <= k < |Oses| && j != k ==> Oses[j] != Oses[k]
  {
    assert Oses[0][0] == 'w' && Oses[1][0] == 'd' && Oses[2][0] == 'l';
  }

  /** The placeholder `test_command` uses for an OS without a command. */
  const NotAvailable := "N/A"

  /** `any(win_cmd in command for win_cmd in common_windows)`: a listed
      executable occurs anywhere in the whole command. */
  predicate MentionsWindowsExecutable(command: string)
  {
    exists k :: 0 <= k < |CommonWindows| && Contains(command, CommonWindows[k])
  }

  /** The Windows branch on the non-empty token list `parts` of `command`:
      a bare "start" passes, otherwise a listed executable must occur
      somewhere in the command. */
  function CheckWindows(parts: seq<string>, command: string): (r: (bool, string))
    requires parts != []
    ensures r.0 <==> parts == ["start"] || MentionsWindowsExecutable(command)
    ensures parts == ["start"] ==> r == (true, "Windows START command")
    ensures !r.0 ==> r.1 == "Executable not verified"
  {
    if parts[0] == "start" && |parts| == 1 then (true, "Windows START command")
    else if MentionsWindowsExecutable(command) then (true, "Standard Windows command")
    else (false, "Executable not verified")
  }

  /** The macOS branch: only the `open` launcher passes. */
  function CheckDarwin(parts: seq<string>): (r: (bool, string))
    requires parts != []
    ensures r.0 <==> parts[0] == "open"
    ensures !r.0 ==> r.1 == "Non-standard macOS command"
  {
    if parts[0] == "open" then (true, "macOS OPEN command")
    else (false, "Non-standard macOS command")
  }

  /** The Linux branch: `xdg-open` passes on every host; otherwise a Linux
      host asks `which`, and any other host consults the fixed list. */
  function CheckLinux(currentOs: string, parts: seq<string>, which: string -> Option<string>): (r: (bool, string))
    requires parts != []
    ensures parts[0] == "xdg-open" ==> r == (true, "Standard Linux XDG command")
    ensures currentOs != "linux" ==> (r.0 <==> parts[0] == "xdg-open" || parts[0] in CommonLinux)
    ensures currentOs == "linux" ==>
              var found := which(parts[0]);
              (r.0 <==> parts[0] == "xdg-open" || (found.Some? && found.value != []))
    ensures currentOs == "linux" && parts[0] != "xdg-open" && r.0 ==>
              r.1 == "Found in PATH: " + which(parts[0]).value
  {
    if parts[0] == "xdg-open" then (true, "Standard Linux XDG command")
    else if currentOs == "linux" then
      var found := which(parts[0]);
      if found.Some? && found.value != [] then (true, "Found in PATH: " + found.value)
      else (false, "Not installed (alternative: use xdg-open)")
    else if parts[0] in CommonLinux then (true, "Common Linux application")
    else (false, "Needs verification on Linux")
  }

  /** `check_command_availability(os_type, command)` on a host whose
      `platform.system().lower()` is `currentOs`: (available, reason), or
      the IndexError of `parts[0]` when a known OS gets a blank command. */
  function CheckCommandAvailability(currentOs: string, osType: string, command: string,
                                    which: string -> Option<string>): (r: Result<(bool, string)>)
    ensures osType !in Oses ==> r == Ok((false, "Unknown OS"))
    ensures osType in Oses ==> (r.Raised? <==> IsBlank(command))
    ensures r.Raised? ==> r.exception == "IndexError"
    ensures r.Ok? && osType == "windows" ==> r.value == CheckWindows(Words(command), command)
    ensures r.Ok? && osType == "darwin" ==> r.value == CheckDarwin(Words(command))
    ensures r.Ok? && osType == "linux" ==> r.value == CheckLinux(currentOs, Words(command), which)
  {
    var parts := Words(command);
    WordsEmptyIffBlank(command);
    if osType !in Oses then Ok((false, "Unknown OS"))
    else if parts == [] then Raised("IndexError")
    else if osType == "windows" then Ok(CheckWindows(parts, command))
    else if osType == "darwin" then Ok(CheckDarwin(parts))
    else Ok(CheckLinux(currentOs, parts, which))
  }

  /** A bare "start", blanks around it allowed, is accepted on Windows
      without naming an executable. */
  lemma WindowsStartAlone(currentOs: string, command: string, which: string -> Option<string>)
    requires Words(command) == ["start"]
    ensures CheckCommandAvailability(currentOs, "windows", command, which) == Ok((true, "Windows START command"))
  {
    var r := CheckCommandAvailability(currentOs, "windows", command, which);
    assert "windows" in Oses by { assert Oses[0] == "windows"; }
    assert !IsBlank(command) by { WordsEmptyIffBlank(command); }
    assert r.Ok?;
    assert r.value == CheckWindows(["start"], command);
  }

  /** The command "start" is that bare word. */
  lemma StartIsOneWord()
    ensures Words("start") == ["start"] && !IsBlank("start")
  {
    assert NoSpace("start");
    WordsOfWord("start");
  }

  /** One line of a per-OS result list. */
  datatype Record = Record(name: string, command: string, available: bool, reason: string)

  /** The record `test_command` appends for `osType`, or the exception that
      stops it; a missing command is indistinguishable from an explicit "N/A". */
  function RecordFor(currentOs: string, osType: string, name: string, commands: map<string, string>,
                     which: string -> Option<string>): (r: Result<Record>)
    ensures (osType !in commands || commands[osType] == NotAvailable) ==>
              r == Ok(Record(name, NotAvailable, false, "No command defined"))
    ensures r.Ok? && osType in commands && commands[osType] != NotAvailable ==>
              var check := CheckCommandAvailability(currentOs, osType, commands[osType], which);
              check.Ok? && r.value == Record(name, commands[osType], check.value.0, check.value.1)
    ensures r.Raised? <==>
              osType in commands && commands[osType] != NotAvailable
              && CheckCommandAvailability(currentOs, osType, commands[osType], which).Raised?
  {
    var command := if osType in commands then commands[osType] else NotAvailable;
    if command == NotAvailable then Ok(Record(name, NotAvailable, false, "No command defined"))
    else
      match CheckCommandAvailability(currentOs, osType, command, which)
      case Raised(e) => Raised(e)
      case Ok((available, reason)) => Ok(Record(name, command, available, reason))
  }

  /** What `test_command` makes of each OS in turn, were it to reach it. */
  function Outcomes(currentOs: string, name: string, commands: map<string, string>,
                    which: string -> Option<string>): seq<Result<Record>>
  {
    seq(|Oses|, k requires 0 <= k < |Oses| => RecordFor(currentOs, Oses[k], name, commands, which))
  }

  /** The position of the first exception in `rs` from the `k`-th on, or
      `|rs|` when there is none. */
  function FirstFault<T>(rs: seq<Result<T>>, k: nat): (n: nat)
    requires k <= |rs|
    ensures k <= n <= |rs|
    ensures forall j :: k <= j < n ==> rs[j].Ok?
    ensures n < |rs| ==> rs[n].Raised?
    decreases |rs| - k
  {
    if k == |rs| || rs[k].Raised? then k else FirstFault(rs, k + 1)
  }

  /** The number of available records: `sum(1 for r in results if r["available"])`. */
  function Passed(records: seq<Record>): nat
  {
    if records == [] then 0
    else Passed(records[..|records| - 1]) + if records[|records| - 1].available then 1 else 0
  }

  /** The count is bounded by the list, and reaches it exactly when every
      record is available. */
  lemma {:induction false} PassedBounds(records: seq<Record>)
    ensures Passed(records) <= |records|
    ensures Passed(records) == |records| <==> forall k :: 0 <= k < |records| ==> records[k].available
    ensures Passed(records) == 0 <==> forall k :: 0 <= k < |records| ==> !records[k].available
  {
    if records != [] {
      var prefix := records[..|records| - 1];
      PassedBounds(prefix);
      assert forall k :: 0 <= k < |prefix| ==> prefix[k] == records[k];
    }
  }

  /** `CommandTester`: the host's OS and the per-OS record lists. */
  class CommandTester {
    var currentOs: string
    var osName: string
    var results: map<string, seq<Record>>

    /** The three OS lists exist. */
    predicate Valid()
      reads this
    {
      forall k :: 0 <= k < |Oses| ==> Oses[k] in results
    }

    /** `CommandTester()` on a host whose `platform.system()` is `system`. */
    constructor (system: string)
      ensures Valid()
      ensures currentOs == Lower(system)
      ensures osName == if currentOs == "darwin" then "macOS" else if currentOs == "linux" then "Linux"
                        else if currentOs == "windows" then "Windows" else currentOs
      ensures results == map["windows" := [], "darwin" := [], "linux" := []]
    {
      currentOs := Lower(system);
      var os := Lower(system);
      if os == "darwin" {
        osName := "macOS";
      } else if os == "linux" {
        osName := "Linux";
      } else if os == "windows" {
        osName := "Windows";
      } else {
        osName := os;
      }
      results := map["windows" := [], "darwin" := [], "linux" := []];
    }

    /** `test_command(name, commands)`: one record appended to each OS list in
        turn, until an exception stops it; the other lists are untouched. */
    method TestCommand(name: string, commands: map<string, string>, which: string -> Option<string>)
      returns (fault: Option<string>)
      requires Valid()
      modifies this
      ensures Valid() && currentOs == old(currentOs) && osName == old(osName)
      ensures results.Keys == old(results).Keys
      ensures forall os :: os in results && os !in Oses ==> results[os] == old(results)[os]
      ensures var rs := Outcomes(currentOs, name, commands, which);
              var n := FirstFault(rs, 0);
              && (forall k :: 0 <= k < |Oses| ==>
                    results[Oses[k]] == old(results)[Oses[k]] + if k < n then [rs[k].value] else [])
              && fault == if n < |Oses| then Some(rs[n].exception) else None
    {
      ghost var rs := Outcomes(currentOs, name, commands, which);
      ghost var n := FirstFault(rs, 0);
      OsesDistinct();
      var i := 0;
      while i < |Oses|
        invariant 0 <= i <= n
        invariant Valid() && results.Keys == old(results).Keys
        invariant currentOs == old(currentOs) && osName == old(osName)
        invariant forall os :: os in results && os !in Oses ==> results[os] == old(results)[os]
        invariant forall k :: 0 <= k < |Oses| ==>
                    results[Oses[k]] == old(results)[Oses[k]]
                      + if k < i then [rs[k].value] else []
      {
        var osType := Oses[i];
        var outcome := RecordFor(currentOs, osType, name, commands, which);
        if outcome.Raised? {
          return Some(outcome.exception);
        }
        results := results[osType := results[osType] + [outcome.value]];
        i := i + 1;
      }
      fault := None;
    }

    /** `print_summary`'s counts for one OS: passed, failed and total. */
    function Summary(osType: string): (counts: (nat, nat, nat))
      reads this
      requires osType in results
      ensures counts.0 + counts.1 == counts.2 == |results[osType]|
      ensures counts.0 == Passed(results[osType])
    {
      var records := results[osType];
      PassedBounds(records);
      (Passed(records), |records| - Passed(records), |records|)
    }
  }
}
