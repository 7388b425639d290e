/** `kill_program`: terminate every running process whose name contains the
    requested program name, and report what happened. The process table and
    the outcome of each kill are inputs. */
module ProgramCloser {
  import opened Wrappers
  import opened Strings

  /** One entry of the process table; the name may be missing. */
  datatype Process = Process(pid: nat, name: Option<string>)

  /** What `proc.kill()` did: succeeded, or raised with this message. */
  datatype KillOutcome = Killed | KillFailed(message: string)

  const NotRunning := "Program not running \U{274C}\n"
  const AllKilled := "All matching programs killed \U{2705}\n"

  /** A process is touched iff it has a non-empty name that contains the
      requested name, both lower-cased. */
  predicate IsCandidate(program: string, p: Process)
  {
    p.name.Some? && p.name.value != [] && Contains(Lower(p.name.value), Lower(program))
  }

  /** The report line for one kill attempt. */
  function Line(p: Process, outcome: KillOutcome): string
    requires p.name.Some?
  {
    match outcome
    case Killed => "Killed " + p.name.value + " (PID " + Decimal(p.pid) + ") \U{2705}\n"
    case KillFailed(msg) => "Error killing " + p.name.value + ": " + msg + "\n"
  }

  /** The lines the loop has written after the processes `ps`. */
  function Lines(program: string, ps: seq<Process>, kill: Process -> KillOutcome): string
  {
    if ps == [] then ""
    else
      var p := ps[|ps| - 1];
      Lines(program, ps[..|ps| - 1], kill) + (if IsCandidate(program, p) then Line(p, kill(p)) else "")
  }

  /** The `found` flag after the processes `ps`. */
  function Found(program: string, ps: seq<Process>, kill: Process -> KillOutcome): bool
  {
    if ps == [] then false
    else
      var p := ps[|ps| - 1];
      Found(program, ps[..|ps| - 1], kill) || (IsCandidate(program, p) && kill(p) == Killed)
  }

  /** The candidates among `ps`, in order. */
  function Candidates(program: string, ps: seq<Process>): (cs: seq<Process>)
    ensures forall i :: 0 <= i < |cs| ==> IsCandidate(program, cs[i])
  {
    if ps == [] then []
    else
      var p := ps[|ps| - 1];
      Candidates(program, ps[..|ps| - 1]) + (if IsCandidate(program, p) then [p] else [])
  }

  function Pids(ps: seq<Process>): (pids: seq<nat>)
    ensures |pids| == |ps|
    ensures forall i :: 0 <= i < |ps| ==> pids[i] == ps[i].pid
  {
    if ps == [] then [] else Pids(ps[..|ps| - 1]) + [ps[|ps| - 1].pid]
  }

  /** The whole report: the lines, then the closing verdict. */
  function Report(program: string, ps: seq<Process>, kill: Process -> KillOutcome): string
  {
    Lines(program, ps, kill) + (if Found(program, ps, kill) then AllKilled else NotRunning)
  }

  /** `kill_program(program)` over the process table `procs`: the report, and
      the pids on which a kill was attempted, in table order. */
  method KillProgram(program: string, procs: seq<Process>, kill: Process -> KillOutcome)
    returns (report: string, attempted: seq<nat>)
    ensures report == Report(program, procs, kill)
    ensures attempted == Pids(Candidates(program, procs))
  {
    report := "";
    attempted := [];
    var found := false;
    var i := 0;
    while i < |procs|
      invariant 0 <= i <= |procs|
      invariant report == Lines(program, procs[..i], kill)
      invariant found == Found(program, procs[..i], kill)
      invariant attempted == Pids(Candidates(program, procs[..i]))
    {
      var p := procs[i];
      assert procs[..i + 1][..i] == procs[..i] && procs[..i + 1][i] == p;
      if p.name.Some? && p.name.value != [] && Contains(Lower(p.name.value), Lower(program)) {
        ghost var cs := Candidates(program, procs[..i]);
        assert Candidates(program, procs[..i + 1]) == cs + [p];
        assert Pids(cs + [p]) == Pids(cs) + [p.pid] by {
          assert (cs + [p])[..|cs|] == cs;
        }
        attempted := attempted + [p.pid];
        match kill(p)
        case Killed =>
          report := report + Line(p, Killed);
          found := true;
        case KillFailed(msg) =>
          report := report + Line(p, KillFailed(msg));
      }
      i := i + 1;
    }
    assert procs[..i] == procs;
    if !found {
      report := report + NotRunning;
    } else {
      report := report + AllKilled;
    }
  }

  /** What each process adds to the report: its line if it is a candidate. */
  function PieceOf(program: string, kill: Process -> KillOutcome): Process -> string
  {
    p => if IsCandidate(program, p) then Line(p, kill(p)) else ""
  }

  /** The text the processes `ps` contribute, one piece each, in order. */
  function Concat(ps: seq<Process>, piece: Process -> string): string
  {
    if ps == [] then "" else Concat(ps[..|ps| - 1], piece) + piece(ps[|ps| - 1])
  }

  lemma {:induction false} ConcatAppend(a: seq<Process>, b: seq<Process>, piece: Process -> string)
    ensures Concat(a + b, piece) == Concat(a, piece) + Concat(b, piece)
    decreases |b|
  {
    if b == [] {
      assert a + b == a;
      assert Concat(a, piece) + "" == Concat(a, piece);
    } else {
      var b' := b[..|b| - 1];
      var p := b[|b| - 1];
      ConcatAppend(a, b', piece);
      assert (a + b)[..|a + b| - 1] == a + b' && (a + b)[|a + b| - 1] == p;
      var x, y := Concat(a, piece), Concat(b', piece);
      assert (x + y) + piece(p) == x + (y + piece(p));
    }
  }

  lemma {:induction false} LinesAreConcat(program: string, ps: seq<Process>, kill: Process -> KillOutcome)
    ensures Lines(program, ps, kill) == Concat(ps, PieceOf(program, kill))
  {
    if ps != [] {
      LinesAreConcat(program, ps[..|ps| - 1], kill);
    }
  }

  /** The lines of a table split in two are the lines of each part in turn:
      every process contributes its own piece, in table order. */
  lemma LinesAppend(program: string, a: seq<Process>, b: seq<Process>, kill: Process -> KillOutcome)
    ensures Lines(program, a + b, kill) == Lines(program, a, kill) + Lines(program, b, kill)
  {
    LinesAreConcat(program, a + b, kill);
    LinesAreConcat(program, a, kill);
    LinesAreConcat(program, b, kill);
    ConcatAppend(a, b, PieceOf(program, kill));
  }

  /** The candidates of a table split in two are those of each part in
      turn: `Candidates` keeps table order. */
  lemma {:induction false} CandidatesAppend(program: string, a: seq<Process>, b: seq<Process>)
    ensures Candidates(program, a + b) == Candidates(program, a) + Candidates(program, b)
    decreases |b|
  {
    if b == [] {
      assert a + b == a;
    } else {
      var b' := b[..|b| - 1];
      var p := b[|b| - 1];
      var keep := if IsCandidate(program, p) then [p] else [];
      assert (a + b)[..|a + b| - 1] == a + b' && (a + b)[|a + b| - 1] == p;
      assert Candidates(program, a + b) == Candidates(program, a + b') + keep;
      assert Candidates(program, b) == Candidates(program, b') + keep;
      CandidatesAppend(program, a, b');
    }
  }

  /** A process is among the candidates exactly when it is in the table
      and its name matches. */
  lemma {:induction false} CandidatesExactly(program: string, ps: seq<Process>)
    ensures forall p :: p in Candidates(program, ps) <==> p in ps && IsCandidate(program, p)
  {
    if ps != [] {
      var ps' := ps[..|ps| - 1];
      var last := ps[|ps| - 1];
      CandidatesExactly(program, ps');
      assert ps == ps' + [last];
      var keep := if IsCandidate(program, last) then [last] else [];
      assert Candidates(program, ps) == Candidates(program, ps') + keep;
    }
  }

  /** Processes that are not candidates add nothing: the report lines are
      those of the candidates alone. */
  lemma {:induction false} OnlyCandidatesReported(program: string, ps: seq<Process>, kill: Process -> KillOutcome)
    ensures Lines(program, ps, kill) == Lines(program, Candidates(program, ps), kill)
  {
    if ps != [] {
      var p := ps[|ps| - 1];
      var ps' := ps[..|ps| - 1];
      OnlyCandidatesReported(program, ps', kill);
      var cs' := Candidates(program, ps');
      if IsCandidate(program, p) {
        var cs := cs' + [p];
        assert cs[..|cs| - 1] == cs' && cs[|cs| - 1] == p;
        assert Candidates(program, ps) == cs;
        assert Lines(program, ps, kill) == Lines(program, ps', kill) + Line(p, kill(p));
        assert Lines(program, cs, kill) == Lines(program, cs', kill) + Line(p, kill(p));
      } else {
        assert Candidates(program, ps) == cs';
        assert Lines(program, ps, kill) == Lines(program, ps', kill);
      }
    }
  }

  /** Likewise, whether anything was killed depends on the candidates alone. */
  lemma {:induction false} OnlyCandidatesFound(program: string, ps: seq<Process>, kill: Process -> KillOutcome)
    ensures Found(program, ps, kill) == Found(program, Candidates(program, ps), kill)
  {
    if ps != [] {
      var p := ps[|ps| - 1];
      var ps' := ps[..|ps| - 1];
      OnlyCandidatesFound(program, ps', kill);
      var cs' := Candidates(program, ps');
      if IsCandidate(program, p) {
        var cs := cs' + [p];
        assert cs[..|cs| - 1] == cs' && cs[|cs| - 1] == p;
        assert Candidates(program, ps) == cs;
        assert Found(program, cs, kill) == (Found(program, cs', kill) || kill(p) == Killed);
      } else {
        assert Candidates(program, ps) == cs';
      }
    }
  }

  /** `found` holds exactly when some candidate was killed successfully; a
      failed kill never sets it. */
  lemma {:induction false} FoundIffSomeKilled(program: string, ps: seq<Process>, kill: Process -> KillOutcome)
    ensures Found(program, ps, kill) <==>
              exists i :: 0 <= i < |ps| && IsCandidate(program, ps[i]) && kill(ps[i]) == Killed
  {
    if ps != [] {
      var ps' := ps[..|ps| - 1];
      FoundIffSomeKilled(program, ps', kill);
      if Found(program, ps', kill) {
        var i :| 0 <= i < |ps'| && IsCandidate(program, ps'[i]) && kill(ps'[i]) == Killed;
        assert ps[i] == ps'[i];
      }
      if exists i :: 0 <= i < |ps| && IsCandidate(program, ps[i]) && kill(ps[i]) == Killed {
        var i :| 0 <= i < |ps| && IsCandidate(program, ps[i]) && kill(ps[i]) == Killed;
        if i < |ps'| {
          assert ps'[i] == ps[i];
        }
      }
    }
  }

  /** The report closes with "All matching programs killed" exactly when a
      kill succeeded, and with "Program not running" otherwise. */
  lemma ReportVerdict(program: string, ps: seq<Process>, kill: Process -> KillOutcome)
    ensures EndsWith(Report(program, ps, kill), AllKilled) <==> Found(program, ps, kill)
    ensures EndsWith(Report(program, ps, kill), NotRunning) <==> !Found(program, ps, kill)
  {
    var r := Report(program, ps, kill);
    if Found(program, ps, kill) {
      assert r[|r| - |AllKilled|..] == AllKilled;
      assert r[|r| - 2] == '\U{2705}';
      assert NotRunning[|NotRunning| - 2] == '\U{274C}';
    } else {
      assert r[|r| - |NotRunning|..] == NotRunning;
      assert r[|r| - 2] == '\U{274C}';
      assert AllKilled[|AllKilled| - 2] == '\U{2705}';
    }
  }
}
