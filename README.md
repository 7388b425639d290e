# Tanglish voice assistant: the logic between microphone, language model and OS

This project models the deterministic control and data logic of the Tanglish
AI voice assistant in Dafny and proves properties of it. The logic covers:

- **Capture** (`AudioRecorder`). The end-pointing state machine of the
  microphone callback. It calibrates a noise level during the first half
  second, keeps only the blocks that are louder than the threshold, and stops
  after a pause of more than one second. The recorder is a class whose `Step`
  method takes one block. It also models the conversion of the kept blocks to
  clipped 16-bit samples.
- **Orchestration** (`Orchestrator`). `process_command`: three early exits,
  the conversational `no_action` turn, and the ordered dispatch loop that
  collects the confirmation texts and keeps the last result worth keeping.
  The transcriber, the command classifier, the JSON decoder, the reply
  rewriter and the effector are parameters (`Services`).
- **Batch normalisation** (`CommandResponseFetcher`). `parse_commands` turns
  a decoded JSON value, or a decode failure, into a list of tasks.
- **Routing** (`OpenOrCloseDecisionMaker`, `OpenerDecisionMaker`). The `.exe`
  suffix test sends a name either to the process killer or to the exact-match
  command table. The table answers with an effect to run, an effect whose
  text is returned, or a fixed reply. `Execute` puts the routing together with
  a `World`: the clock, the process table, the news service and the effectors
  that may raise.
- **Process killing** (`ProgramCloser`). The loop over the process table that
  kills every case-insensitive name match and builds the report.
- **Helpers**:
  - translation-marker removal on the rewritten reply (`CommandAndResponseGiver`);
  - headline formatting (`News`);
  - the 12-hour clock text `"%I:%M %p"` of POSIX `strftime` (`Info`);
  - voice and style selection (`TtsPlayer`).
- **Compatibility tester** (`CrossPlatform`). The per-OS availability
  classifier, the `CommandTester` class that appends one record per OS, and
  the summary counts.
- **Shared modules**:
  - `Strings`: Python's `str.strip`, `str.split()`, `in`, `str.split(sep)[0]`,
    `.lower()`/`.upper()`, decimal rendering;
  - `JsonValue`: decoded JSON values with Python truthiness;
  - `Wrappers`: `Option` and `Result`. `Result` carries the name of a raised
    exception.

Python exceptions are modelled as `Raised(name)` values. Floating-point
quantities (RMS energies, timestamps, samples) are `real`.

## Model

| member | source | states |
|---|---|---|
| AudioRecorder.Threshold | audio_recorder.py:65 | the effective threshold is never below 0.005 nor below the noise level, and equals one of them |
| AudioRecorder.ThresholdMonotone | audio_recorder.py:65 | the threshold is monotone non-decreasing in the calibrated noise level |
| AudioRecorder.Next | audio_recorder.py:50-81 | calibration touches only the noise samples, and ends on the first block later than 0.5 s after the start with the level set once to twice the mean including that block; a loud block is appended, starts recording and clears the pause; a quiet block is never appended, and before recording it changes nothing; the first quiet block of a pause only marks its start; stop iff a quiet block comes more than 1.0 s after the pause began, leaving the state as it was; recording never reverts |
| AudioRecorder.CaptureEngine.constructor | audio_recorder.py:21-27 | a new recorder holds the initial state: no samples, nothing calibrated, nothing recorded |
| AudioRecorder.CaptureEngine.Step | audio_recorder.py:50-81 | the callback updates the recorder's fields exactly as `Next` prescribes, and `recording` only ever gains the current block at its end |
| AudioRecorder.RunMonotone | audio_recorder.py:56-72 | over any block stream the recording only grows (append-only, order kept), started stays started, and the calibration is never redone |
| AudioRecorder.RunAppend | audio_recorder.py:50-81 | running a stream in two parts is running it whole: the second part is fed to the state the first left, unless the first already stopped |
| AudioRecorder.QuietBeforeSpeech | audio_recorder.py:65-73 | once calibrated and before speech, any number of quiet blocks leave the state unchanged and never stop |
| AudioRecorder.PauseHeld | audio_recorder.py:73-81 | during an open pause quiet blocks leave the state unchanged, and the stream stops iff one of them comes more than 1.0 s after the pause began |
| AudioRecorder.LongPauseStops | audio_recorder.py:73-81 | after speech, a run of quiet blocks spanning more than 1.0 s stops the stream without adding anything to the recording |
| AudioRecorder.RunKeepsOnlyLoudFrames | audio_recorder.py:67-72 | every frame added to the recording is one of the stream's blocks whose energy exceeds 0.005 |
| AudioRecorder.QuietStreamRecordsNothing | audio_recorder.py:56-81 | a stream of blocks no louder than 0.005 records nothing, never starts and never stops |
| AudioRecorder.StopAfterPause | audio_recorder.py:73-81 | a stream stops only after recording started and a pause began |
| AudioRecorder.PauseOpenedBy | audio_recorder.py:71-76 | an open pause started at some block's time, and every later block was quiet |
| AudioRecorder.StopNeedsLongPause | audio_recorder.py:73-81 | the stopping block lies more than 1.0 s after some earlier block from which on every block was quiet, so no loud block came in between |
| AudioRecorder.TruncToward0 | audio_recorder.py:38 | NumPy's float-to-int cast truncates toward zero |
| AudioRecorder.ToInt16 | audio_recorder.py:38 | a saved sample lies in [-32767, 32767], saturates beyond ±1, is within one of x·32767 inside [-1, 1] and never further from zero than it (the cast truncates), and keeps the sign |
| AudioRecorder.ConcatLength | audio_recorder.py:37 | the concatenation holds exactly the summed sample count of the blocks |
| AudioRecorder.ConcatBlock | audio_recorder.py:37 | each block appears, unchanged and in order, at its offset in the concatenation |
| AudioRecorder.FullChunks | audio_recorder.py:37 | blocks of CHUNK_SIZE samples give blocks × 512 samples |
| AudioRecorder.SaveArtifact | audio_recorder.py:35-43 | no artifact iff nothing was recorded; otherwise one converted sample per recorded sample, never -32768 |
| CommandResponseFetcher.ParseCommands | command_response_fetcher.py:3-25 | an object gives the one-element list, an array is returned unchanged, and any other value or a decode failure gives [] |
| CommandAndResponseGiver.StripTranslation | command_and_response_giver.py:237-242 | without a marker the reply is returned unstripped; with one it is the stripped prefix before the first "(Translation:" then before the first "(translation:", and holds no marker |
| CommandAndResponseGiver.CutHasNoMarker | command_and_response_giver.py:240 | cutting before both markers leaves neither marker |
| CommandAndResponseGiver.StripTranslationIdempotent | command_and_response_giver.py:238-240 | the post-processing applied to its own output changes nothing |
| OpenerDecisionMaker.LookupName | opener_decision_maker.py:15-50 | each table name selects its own command: no branch shadows another (proved section by section of the chain) |
| OpenerDecisionMaker.LookupIffName | opener_decision_maker.py:15-50 | the chain finds command c for exactly one string, the name of c: both directions of the exact match |
| OpenerDecisionMaker.Lookup | opener_decision_maker.py:15-50 | a command found by the chain is the one whose name equals the requested string |
| OpenerDecisionMaker.FirstArg | opener_decision_maker.py:8-12 | falsy args give None; a non-empty list gives its head; a non-empty string gives its first character; a truthy object, number or bool raises, and nothing else does |
| OpenerDecisionMaker.Opener | opener_decision_maker.py:3-62 | raises iff taking the first argument raises, with its exception; an unknown name gets the fixed apology; "get_time" forwards the clock's text; "get_news" forwards the news text for a truthy topic and otherwise asks for a topic; every other table name runs exactly its own effect, with the first argument only for google_search and write_in_notepad, and returns None |
| OpenerDecisionMaker.OpenerInfoCommands | opener_decision_maker.py:46-55 | "get_time" and "get_news" dispatch as above for any usable arguments |
| OpenOrCloseDecisionMaker.OpenOrClose | open_or_close_decision_maker.py:4-14 | a non-text command raises TypeError; a name ending in ".exe" (before an optional final newline) goes to the killer with the full name; anything else goes to the opener with None args replaced by [] |
| OpenOrCloseDecisionMaker.ExeSuffixExamples | open_or_close_decision_maker.py:10 | "notepad.exe" and "notepad.exe\n" are killed; "notepad.exe.bak" and "NOTEPAD.EXE" are not: the test is a case-sensitive suffix |
| OpenOrCloseDecisionMaker.NameNotExe | open_or_close_decision_maker.py:10-14 | no name of the opener's table is routed to the killer |
| OpenOrCloseDecisionMaker.TableNamesReachOpener | open_or_close_decision_maker.py:12-14 | each table name reaches the opener, and an effect it runs or forwards is that name's own command |
| OpenOrCloseDecisionMaker.Execute | open_or_close_decision_maker.py:4-14 | a ".exe" name returns the kill report for the process table; a routing exception surfaces unchanged; a fixed reply is returned as it is, a forwarded effector's text is returned, and an acting effector gives None iff it does not raise, and raises iff it does; None comes back only after the opener ran an action effect |
| OpenOrCloseDecisionMaker.GetTimeReadsClock | opener_decision_maker.py:46-47 | "get_time" returns the clock text of the current hour and minute |
| ProgramCloser.Candidates | program_closer.py:7-8 | every selected process matches: its non-empty name contains the requested name, both lower-cased |
| ProgramCloser.CandidatesExactly | program_closer.py:7-8 | a process is selected iff it is in the table and matches: no match is missed |
| ProgramCloser.CandidatesAppend | program_closer.py:7-8 | selection works process by process, so it keeps table order |
| ProgramCloser.Pids | program_closer.py:11 | the pids of the processes, one per process, in order |
| ProgramCloser.KillProgram | program_closer.py:3-21 | the report is the candidate lines followed by the verdict, and a kill is attempted on exactly the candidates, in table order |
| ProgramCloser.LinesAppend | program_closer.py:7-14 | the report lines are built process by process in table order |
| ProgramCloser.LinesAreConcat | program_closer.py:7-14 | the report lines are the concatenation of one piece per process: a kill line or an error line for a candidate, nothing for the others |
| ProgramCloser.ConcatAppend | program_closer.py:7-14 | concatenating per-process pieces over a split table is concatenating the two halves |
| ProgramCloser.OnlyCandidatesReported | program_closer.py:7-10 | non-candidates add nothing to the report |
| ProgramCloser.OnlyCandidatesFound | program_closer.py:7-12 | non-candidates never set `found` |
| ProgramCloser.FoundIffSomeKilled | program_closer.py:9-14 | `found` holds iff some candidate was killed successfully; a failed kill does not set it |
| ProgramCloser.ReportVerdict | program_closer.py:16-19 | the report ends with "All matching programs killed ✅\n" iff a kill succeeded, and with "Program not running ❌\n" iff none did |
| News.Headlines | program_opener/news.py:25 | headline i is "{i+1}. {title}" of article i |
| News.Top3 | program_opener/news.py:25 | at most the first three articles, in their original order |
| News.GetNews | program_opener/news.py:14-35 | no articles give the "couldn't find" message; a request failure gives the connection message; an untitled article among the first three (the KeyError of `article['title']`) and any other failure give the unexpected-error message |
| News.GetNewsHeadlines | program_opener/news.py:21-28 | with articles, the text is the intro followed by the first (at most three) numbered headlines joined by single spaces |
| Info.Hour12 | program_opener/info.py:8 | the `%I` hour lies in 1..12 and agrees with the 24-hour value modulo 12 |
| Info.TwoDigits | program_opener/info.py:8 | zero-padded two-digit rendering whose digits read back the number |
| Info.FormatTime | program_opener/info.py:3-8 | the text has the shape "HH:MM XM" of length 8, hour 01..12, the given minute, and "AM" iff the hour is below 12 |
| Info.FormatTimeRoundTrip | program_opener/info.py:8 | reading the text back recovers the 24-hour hour and the minute |
| Info.FormatTimeBoundaries | program_opener/info.py:8 | hour 0 is "12 … AM", hour 12 is "12 … PM", hour 13 is "01 … PM" |
| Info.FormatTimeEvening | program_opener/info.py:8 | 21:30 renders as "09:30 PM" |
| TtsPlayer.SelectVoice | tts_player.py:37-55 | blank text selects nothing; otherwise lang defaults to "en-IN" and gender to "FEMALE", upper-cased; known pairs get their voice, others Neerja; the style is "expressive" iff lang contains "en-", else "default" |
| TtsPlayer.DefaultSelection | tts_player.py:42-55 | with no lang and no gender the voice is "en-IN-NeerjaNeural", expressive |
| TtsPlayer.VoiceMap | tts_player.py:46-51 | exactly the pairs of "ta-IN" or "en-IN" with "MALE" or "FEMALE" have a voice, and each voice is named after its language tag |
| Orchestrator.FailureEndsDispatch | main.py:94 | an exception from an effector ends the loop: later tasks change nothing |
| Orchestrator.Dispatched | main.py:89-90 | every dispatched task has a command that is neither None nor "no_action" |
| Orchestrator.DispatchedExactly | main.py:84-90 | a task is dispatched iff it is an object of the list whose command is neither None nor "no_action" |
| Orchestrator.DispatchedAppend | main.py:84-90 | the tasks are dispatched in list order: a split list is dispatched part by part |
| Orchestrator.DispatchStep | main.py:85-97 | one task adds at most one effector call and, with it, its confirmation text, keeps the earlier calls and texts, and changes the final result or raises only through that call, except that a non-object task raises |
| Orchestrator.Dispatch | main.py:84-97 | the loop makes one call per confirmation text collected, and at most one per task |
| Orchestrator.DispatchInOrder | main.py:84-94 | without exceptions, each dispatched task calls the effector once with its command and args, in list order, and contributes its response (default "Working on it...") in the same order |
| Orchestrator.FirstRaiseEndsCalls | main.py:94 | only the last effector call can have raised |
| Orchestrator.LastKeptResultWins | main.py:82-97 | the final result is "" iff no call gave a truthy result; otherwise it is the result of a call after which no call gave a truthy result |
| Orchestrator.LastCallStep | main.py:94-97 | one more dispatched task keeps the last-truthy-result property |
| Orchestrator.Texts | main.py:101 | `" ".join` succeeds iff every response is text, and keeps them in order |
| Orchestrator.FullResponse | main.py:101-102 | the summary raises iff some collected response is not text |
| Orchestrator.Respond | command_and_response_giver.py:235-242 | the rewritten reply never holds a translation marker, and a reply without one is passed on unchanged |
| Orchestrator.ProcessCommand | main.py:40-108 | failed load gives the fixed texts and calls nothing; a blank transcript answers "didn't hear anything" with "(Silence)" and skips the classifier; an empty batch answers "trouble understanding"; a non-object first task raises; a "no_action" first task rewrites its response (default "I'm not sure how to respond.") and runs no effector; otherwise the loop runs as `ExecuteTasks` states |
| Orchestrator.ExecuteTasks | main.py:79-108 | the effector calls are exactly those of the dispatch loop, in order; an effector exception or a non-text response surfaces; otherwise the rewriter gets `(join(responses, " ") + " " + final).strip()` |
| Orchestrator.SingleTaskResponse | main.py:93-102 | one task with a truthy result gives "response result", stripped |
| Orchestrator.TimeRequestExample | main.py:84-102 | a "get_time" task with response "Getting time" at 21:30 gives "Getting time 09:30 PM" |
| Orchestrator.TimeRequestText | main.py:102 | the stripped join of that example is "Getting time 09:30 PM" |
| CrossPlatform.OsesDistinct | cross_platform.py:161 | the three OS keys are distinct |
| CrossPlatform.CheckWindows | cross_platform.py:110-124 | exactly "start" is the START command; otherwise available iff a listed executable occurs in the whole command, else "Executable not verified" |
| CrossPlatform.CheckDarwin | cross_platform.py:127-130 | available iff the first token is "open", else "Non-standard macOS command" |
| CrossPlatform.CheckLinux | cross_platform.py:133-152 | "xdg-open" is available on any host; on Linux, availability is the PATH probe's answer and the reason names the found path; elsewhere it is membership in the fixed list |
| CrossPlatform.CheckCommandAvailability | cross_platform.py:101-154 | a blank command raises IndexError for a known OS; an unknown OS gives (False, "Unknown OS"); otherwise the per-OS check on the tokens |
| CrossPlatform.WindowsStartAlone | cross_platform.py:111-115 | a command that is the single word "start" is (True, "Windows START command") |
| CrossPlatform.StartIsOneWord | cross_platform.py:107 | "start" splits into the single word "start" |
| CrossPlatform.RecordFor | cross_platform.py:163-186 | a missing or "N/A" command is recorded unavailable with "No command defined"; otherwise the record carries the check's verdict and reason, and the check's exception surfaces |
| CrossPlatform.FirstFault | cross_platform.py:161-171 | the position of the first exception, with all outcomes before it fine |
| CrossPlatform.PassedBounds | cross_platform.py:207-209 | passed is at most total, equals total iff every record is available, and is zero iff none is |
| CrossPlatform.CommandTester.constructor | cross_platform.py:76-91 | the OS is the lower-cased system name, its display name is chosen as in the source, and the three result lists start empty |
| CrossPlatform.CommandTester.TestCommand | cross_platform.py:156-186 | each OS list gains exactly its one record, in OS order, up to the first exception, which is reported; nothing else changes |
| CrossPlatform.CommandTester.Summary | cross_platform.py:205-209 | passed counts the available records and passed + failed = total |
| Strings.LStrip | main.py:53 | the result is a suffix that does not start with whitespace, and only whitespace was removed |
| Strings.RStrip | main.py:53 | the result is a prefix that does not end with whitespace, and only whitespace was removed |
| Strings.Strip | command_and_response_giver.py:240 | the result starts and ends with non-whitespace, and is empty iff the text is blank |
| Strings.StripInside | command_and_response_giver.py:240 | the stripped text is the slice of the text left after removing its leading whitespace and its trailing whitespace, and nothing else |
| Strings.StripPieces | command_and_response_giver.py:240 | a left strip followed by a right strip cuts only whitespace from the two ends |
| Strings.BlankIffLStripEmpty | main.py:53 | stripping leaves nothing iff the text is all whitespace |
| Strings.BlankLStrip | main.py:53 | an all-whitespace text strips to nothing |
| Strings.BlankConcat | main.py:53 | all-whitespace texts concatenate to one |
| Strings.StripTrimmed | main.py:102 | a text without surrounding whitespace is unchanged by strip |
| Strings.StripIdempotent | command_and_response_giver.py:240 | strip applied twice is strip applied once |
| Strings.TakeWord | cross_platform.py:107 | the first word is a whitespace-free prefix ending at whitespace or at the end |
| Strings.AllWordsCons | cross_platform.py:107 | a word in front of words is still a list of words |
| Strings.Words | cross_platform.py:107 | `split()` gives non-empty whitespace-free words, none iff the text is blank, and the first is the run after the leading whitespace up to the next whitespace |
| Strings.WordsKeepText | cross_platform.py:107 | the words, concatenated, are the text with its whitespace removed: nothing is lost or invented |
| Strings.NonSpaceAppend | cross_platform.py:107 | removing whitespace distributes over concatenation |
| Strings.NonSpaceBlank | cross_platform.py:107 | removing whitespace from blank text leaves nothing |
| Strings.NonSpaceWord | cross_platform.py:107 | removing whitespace leaves a word unchanged |
| Strings.WordsOfWord | cross_platform.py:107 | a single word splits into itself |
| Strings.TakeWholeWord | cross_platform.py:107 | a whitespace-free text is its own first word |
| Strings.WordsEmptyIffBlank | cross_platform.py:107 | `split()` is empty iff the text is blank, where `parts[0]` raises |
| Strings.StripAvoids | command_and_response_giver.py:240 | stripping cannot create a substring |
| Strings.OccursInSlice | command_and_response_giver.py:240 | an occurrence in a slice is an occurrence in the text |
| Strings.SliceAvoids | command_and_response_giver.py:240 | a slice of a text without a substring lacks it too |
| Strings.FindFrom | command_and_response_giver.py:240 | the first occurrence at or after a position, or none |
| Strings.Find | command_and_response_giver.py:238 | found iff the substring occurs (`in`), at its first occurrence |
| Strings.Before | command_and_response_giver.py:240 | `split(sep)[0]`: the prefix up to the first separator, free of it, or the whole text without one |
| Strings.JoinLength | main.py:101 | the length of `sep.join` is the parts' total length plus one separator for each two neighbours |
| Strings.JoinParts | main.py:101 | `sep.join` is the first part followed by every later part in order, each after exactly one separator, and nothing else |
| Strings.PrefixedAppend | main.py:101 | the separator-prefixed reading of the parts extends part by part at the end |
| Strings.Lower | program_closer.py:8 | lower-casing keeps the length |
| Strings.LowerMaps | program_closer.py:8 | lower-casing maps each ASCII capital to its small letter, keeps every other character, and leaves no capital |
| Strings.Upper | tts_player.py:43 | upper-casing keeps the length |
| Strings.UpperMaps | tts_player.py:43 | upper-casing maps each ASCII small letter to its capital, keeps every other character, and leaves no small letter |
| Strings.Decimal | program_closer.py:11 | the decimal rendering is a non-empty string of digits without leading zeros: one digit iff below ten, and a leading "0" only for zero |
| Strings.DecimalRoundTrip | program_closer.py:11 | reading the decimal rendering back gives the number |

## Left out

- Audio I/O: the `sounddevice` stream, `sd.sleep`, `CallbackStop`, the `KeyboardInterrupt` path and the WAV file written by SciPy. A stop is the `true` returned by `Step`.
- The RMS computation of a block: the energy is an input of `Step`.
- The background save thread and the wait for it: concurrency. `SaveArtifact` models only the samples it would write.
- Floating-point rounding: energies, times and samples are `real`, so there is no NaN, infinity or float32 rounding.
- The Whisper transcriber, librosa loading, the command classifier's and the reply rewriter's LLM calls: parameters of `Services`.
- Exceptions raised by the transcriber, the classifier or the rewriter: not modelled. Only the effector, non-object tasks and non-text responses raise.
- Orchestrator.ProcessCommand: the audio is either loaded samples or a failed load; the file path and the decoding are not modelled.
- The effectors of program_opener/app.py, system.py, power.py and utils.py: reduced to an `Effect` tag, with a `raises` oracle saying which of them raise.
- psutil: the process table and the outcome of each kill are inputs.
- OpenOrCloseDecisionMaker.Execute: the `World` is one fixed snapshot. The effector in `Services` is a pure function of command and arguments. So one task cannot affect the next through the machine: a process killed earlier is still listed, and the clock does not advance. `Orchestrator.Dispatch` passes no state between calls.
- Console output: every `print` in audio_recorder.py, main.py, opener_decision_maker.py (the unknown-command warning at line 59) and program_opener/news.py is dropped. None of it changes a returned value or a recorded block.
- The news HTTP request, `.env` loading and JSON decoding: a `Fetch` value per topic. A non-text topic's f-string rendering is an oracle (`render`).
- `shutil.which` is an oracle; its second call is assumed to return what its first did.
- Text-to-speech synthesis, the temporary file and pygame playback in `speak`: I/O. Only the guard and the voice and style selection are modelled.
- `.lower()` and `.upper()`: ASCII letters only, without Unicode case mapping.
- All printing, colours, the header, the percentage and its colour thresholds in cross_platform.py, `test_all` (a loop of `test_command` over the fixed table) and `test_actual_execution`.
- main_gui.py: Qt user interface and worker threads.
- The prompt texts and LLM client setup of command_and_response_giver.py: only the post-processing of `responser` is modelled.
