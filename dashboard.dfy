/**
 * The dashboard's control plane (app.py): the module-level `runtime`,
 * `last_run`, `selected_color` and `theme_key` dicts and the in-memory
 * `logs` list, and the request handlers that change them. The child game
 * process is an abstract handle: whether it is still alive, whether the
 * launch succeeds and when it exits are inputs. Wall-clock times are
 * `real` inputs.
 */
module Dashboard {
  import opened Wrappers
  import opened Settings
  import opened Geometry
  import opened Colors
  import opened Fifo
  import GameState

  /** The in-memory log keeps at most this many entries. */
  const LOG_CAP: nat := 2000
  /** Entries kept from the log file when the dashboard starts. */
  const PERSISTED_KEPT: nat := 300
  /** Entries returned by the log query. */
  const LOG_PAGE: nat := 400
  /** Polls of a terminated game before it is killed. */
  const STOP_POLLS: nat := 10

  const DEFAULT_HEX := "#0f766e"
  const DEFAULT_NAME := "Teal Dark"

  datatype Level = Info | Warn | Error

  /** One log entry; the structured `extra` payload is not modelled. */
  datatype LogEntry = LogEntry(t: real, level: Level, msg: string)

  /** The handle returned by the process launch. */
  datatype Child = Child(pid: int)

  /** The `runtime` dict: the tracked child, its pid, start time and argument list. */
  datatype Runtime = Runtime(proc: Option<Child>, pid: Option<int>,
                             startTime: Option<real>, args: Option<seq<string>>)

  /** The `last_run` dict. */
  datatype LastRun = LastRun(score: Option<int>, lanes: Option<int>, startTime: Option<real>,
                             endTime: Option<real>, durationS: Option<int>)

  /** The `selected_color` dict. */
  datatype NamedColor = NamedColor(hex: string, name: string)

  /** What the process launch does: a child with a pid, or an error text. */
  datatype LaunchOutcome = Spawned(child: Child) | LaunchError(reason: string)

  datatype StartReply =
    | Launched(pid: int, lanes: int)
    | ScriptMissing
    | AlreadyRunning(runningPid: Option<int>)
    | LaunchFailed(error: string)

  datatype StopReply = Stopped(killed: bool) | NoProcess

  /** The fields of a score document, each absent or already converted by `int()`. */
  datatype ScoreRequest = ScoreRequest(score: Option<int>, lanes: Option<int>)

  /** The `hex` field of a colour request: absent, a string, or another JSON value. */
  datatype HexField = Absent | Text(s: string) | NotText(truthy: bool)

  datatype ColorRequest = ColorRequest(hex: HexField, name: Option<string>)

  datatype SetColorReply = ColorSet(color: NamedColor) | MissingHex | InvalidHex | SetColorFailed

  /** A theme request; `key` is None when absent or not a string. */
  datatype ThemeRequest = ThemeRequest(key: Option<string>)

  datatype ThemeReply = ThemeSet(key: string) | SetThemeFailed

  datatype LogsReply = LogsReply(logs: seq<LogEntry>, launchCount: nat, scoredRuns: nat)

  /** Python truthiness of an optional time stamp: present and non-zero. */
  predicate Truthy(t: Option<real>) {
    t.Some? && t.value != 0.0
  }

  /** The last `n` entries of `s` (`s[-n:]`). */
  function LastN<T>(s: seq<T>, n: nat): (r: seq<T>)
    ensures |r| == if |s| < n then |s| else n
    ensures r == s[|s| - |r|..]
  {
    if |s| <= n then s else s[|s| - n..]
  }

  /** The prefix-and-length test that `/api/set_color` applies to a hex string. */
  predicate HexShapeOk(h: string) {
    |h| > 0 && h[0] == '#' && (|h| == 4 || |h| == 7)
  }

  /** `str(n)` for a one-digit lane count. */
  function DigitString(n: int): (s: string)
    requires 0 <= n <= 9
    ensures |s| == 1 && '0' <= s[0] <= '9' && s[0] as int - '0' as int == n
  {
    [('0' as int + n) as char]
  }

  /**
   * The game's command line: interpreter, script, the lane count and the
   * caller marker, then `--hard` exactly in hard mode, then the car colour
   * exactly when a colour is selected.
   */
  function LaunchArgs(interpreter: string, gamePath: string, lanes: int, mode: string, hex: string): (args: seq<string>)
    requires 2 <= lanes <= 6
    ensures |args| == 6 + (if mode == "hard" then 1 else 0) + (if hex != "" then 2 else 0)
    ensures args[..6] == [interpreter, gamePath, "--lanes", DigitString(lanes), "--caller", "dashboard"]
    ensures mode == "hard" ==> args[6] == "--hard"
    ensures hex != "" ==> args[|args| - 2..] == ["--car-color", hex]
  {
    [interpreter, gamePath, "--lanes", DigitString(lanes), "--caller", "dashboard"]
    + (if mode == "hard" then ["--hard"] else [])
    + (if hex != "" then ["--car-color", hex] else [])
  }

  /**
   * The end-of-run stamp shared by the runtime poll and the stop handler:
   * only a run that has started and has not yet ended gets an end time and
   * a whole-second duration.
   */
  function StampEnd(r: LastRun, now: real): (s: LastRun)
    ensures s.score == r.score && s.lanes == r.lanes && s.startTime == r.startTime
    ensures Truthy(r.startTime) && !Truthy(r.endTime) ==>
      s.endTime == Some(now) && s.durationS == Some(Trunc(now - r.startTime.value))
    ensures !(Truthy(r.startTime) && !Truthy(r.endTime)) ==> s == r
  {
    if Truthy(r.startTime) && !Truthy(r.endTime) then
      r.(endTime := Some(now), durationS := Some(Trunc(now - r.startTime.value)))
    else r
  }

  /** A run is stamped at most once: a second stamp at a non-zero time changes nothing. */
  lemma StampEndOnce(r: LastRun, t1: real, t2: real)
    requires t1 != 0.0
    ensures StampEnd(StampEnd(r, t1), t2) == StampEnd(r, t1)
  {
  }

  /** A run that ends no earlier than it started has a non-negative duration. */
  lemma StampedDurationNonNegative(r: LastRun, now: real)
    requires Truthy(r.startTime) && !Truthy(r.endTime) && r.startTime.value <= now
    ensures StampEnd(r, now).durationS.value >= 0
  {
  }

  /** ASCII lower-casing of one character. */
  function LowerChar(c: char): char {
    if 'A' <= c <= 'Z' then (c as int - 'A' as int + 'a' as int) as char else c
  }

  /** `s.lower()`, restricted to ASCII letters. */
  function Lower(s: string): (r: string)
    ensures |r| == |s| && forall i :: 0 <= i < |s| ==> r[i] == LowerChar(s[i])
  {
    seq(|s|, i requires 0 <= i < |s| => LowerChar(s[i]))
  }

  /** `part` occurs in `s` starting at position `i`. */
  predicate OccursAt(s: string, part: string, i: int) {
    0 <= i <= |s| - |part| && s[i..i + |part|] == part
  }

  /** Python's `part in s` on strings. */
  predicate Contains(s: string, part: string) {
    exists i :: 0 <= i <= |s| - |part| && OccursAt(s, part, i)
  }

  predicate StartsWith(s: string, prefix: string) {
    |prefix| <= |s| && s[..|prefix|] == prefix
  }

  predicate IsLaunchEntry(e: LogEntry) {
    Contains(Lower(e.msg), "launch")
  }

  predicate IsScoreEntry(e: LogEntry) {
    StartsWith(Lower(e.msg), "score submitted")
  }

  /** The number of entries whose lower-cased message mentions "launch". */
  function LaunchCount(logs: seq<LogEntry>): (n: nat)
    ensures n <= |logs|
  {
    if logs == [] then 0
    else LaunchCount(logs[..|logs| - 1]) + (if IsLaunchEntry(logs[|logs| - 1]) then 1 else 0)
  }

  /** The number of entries whose lower-cased message starts with "score submitted". */
  function ScoredRuns(logs: seq<LogEntry>): (n: nat)
    ensures n <= |logs|
  {
    if logs == [] then 0
    else ScoredRuns(logs[..|logs| - 1]) + (if IsScoreEntry(logs[|logs| - 1]) then 1 else 0)
  }

  /** Both counters add up over a concatenation of logs. */
  lemma {:induction false} CountsOfConcat(a: seq<LogEntry>, b: seq<LogEntry>)
    ensures LaunchCount(a + b) == LaunchCount(a) + LaunchCount(b)
    ensures ScoredRuns(a + b) == ScoredRuns(a) + ScoredRuns(b)
    decreases |b|
  {
    if b == [] {
      assert a + b == a;
    } else {
      var b' := b[..|b| - 1];
      assert (a + b)[..|a + b| - 1] == a + b';
      CountsOfConcat(a, b');
    }
  }

  /** An entry is a launch entry exactly when the counter counts it. */
  lemma LaunchCountOfOne(e: LogEntry)
    ensures LaunchCount([e]) == (if IsLaunchEntry(e) then 1 else 0)
    ensures ScoredRuns([e]) == (if IsScoreEntry(e) then 1 else 0)
  {
    assert [e][..0] == [];
  }

  /** Lower-casing works character by character, so it distributes over concatenation. */
  lemma LowerConcat(a: string, b: string)
    ensures Lower(a + b) == Lower(a) + Lower(b)
  {
  }

  /**
   * A start that reaches the launch writes two entries that the launch
   * counter counts: "Launching game", then "Game launched" or "Failed to
   * launch game".
   */
  lemma LaunchingCounted(t: real)
    ensures IsLaunchEntry(LogEntry(t, Info, "Launching game"))
  {
    LaunchAt("Launching game", 0);
  }

  lemma LaunchedCounted(t: real)
    ensures IsLaunchEntry(LogEntry(t, Info, "Game launched"))
  {
    LaunchAt("Game launched", 5);
  }

  lemma LaunchFailureCounted(t: real)
    ensures IsLaunchEntry(LogEntry(t, Error, "Failed to launch game"))
  {
    LaunchAt("Failed to launch game", 10);
  }

  /** A message whose six characters from `i` on spell "launch" in either case mentions it. */
  lemma LaunchAt(msg: string, i: nat)
    requires i + 6 <= |msg|
    requires msg[i] in "Ll" && msg[i + 1] == 'a' && msg[i + 2] == 'u'
    requires msg[i + 3] == 'n' && msg[i + 4] == 'c' && msg[i + 5] == 'h'
    ensures Contains(Lower(msg), "launch")
  {
    var l := Lower(msg);
    assert l[i..i + 6] == "launch";
    assert OccursAt(l, "launch", i);
  }

  /** A submitted score writes one entry that the score counter counts. */
  lemma ScoreMessageCounted(t: real)
    ensures IsScoreEntry(LogEntry(t, Info, "Score submitted by game"))
  {
    assert Lower("Score submitted") == "score submitted";
    assert "Score submitted by game" == "Score submitted" + " by game";
    LowerConcat("Score submitted", " by game");
  }

  /**
   * The dashboard accepts "#zzz" as a colour: it checks only the prefix and
   * the length, while the game cannot parse it and keeps its default colour.
   */
  lemma UnparsableColourAccepted()
    ensures HexShapeOk("#zzz") && HexToRgb("#zzz").None?
  {
    HexToRgbDefinedIff("#zzz");
    assert StripHashes("#zzz") == "zzz";
    assert !IsHexDigit('z');
  }

  /**
   * The default selection "#0f766e" is (15, 118, 110), one step of green
   * away from the colour (15, 119, 110) the game uses when it is given none.
   */
  lemma DefaultSelectionNearGameDefault()
    ensures HexShapeOk(DEFAULT_HEX)
    ensures HexToRgb(DEFAULT_HEX) == Some(Rgb(15, 118, 110))
    ensures GameState.DEFAULT_CAR_COLOR == Rgb(15, 119, 110)
  {
    HexRoundTrip(Rgb(15, 118, 110));
    DefaultHexSpellsOut();
  }

  lemma DefaultHexSpellsOut()
    ensures ToHex(Rgb(15, 118, 110)) == DEFAULT_HEX
  {
    var c := Rgb(15, 118, 110);
    assert 15 / 16 == 0 && 15 % 16 == 15 && 118 / 16 == 7 && 118 % 16 == 6;
    assert 110 / 16 == 6 && 110 % 16 == 14;
    assert ToHex(c) == ['#', HexChar(0), HexChar(15), HexChar(7), HexChar(6), HexChar(6), HexChar(14)];
    assert HexChar(0) == '0' && HexChar(15) == 'f' && HexChar(7) == '7';
    assert HexChar(6) == '6' && HexChar(14) == 'e';
  }

  /**
   * The stop handler's wait: after the terminate signal the child is polled
   * up to ten times with a sleep after each poll that still finds it alive,
   * then polled once more and killed if it is still alive. The child shows
   * as exited from its `exitsAfter`-th poll on.
   */
  method AwaitExit(exitsAfter: nat) returns (sleeps: nat, killed: bool)
    ensures sleeps == if exitsAfter < STOP_POLLS then exitsAfter else STOP_POLLS
    ensures killed <==> exitsAfter > STOP_POLLS
  {
    var polls: nat := 0;
    sleeps := 0;
    var i := 0;
    while i < STOP_POLLS
      invariant 0 <= i <= STOP_POLLS
      invariant polls == i && sleeps == i && i <= exitsAfter
    {
      var exited := polls >= exitsAfter;
      polls := polls + 1;
      if exited {
        break;
      }
      sleeps := sleeps + 1;
      i := i + 1;
    }
    var exitedNow := polls >= exitsAfter;
    killed := !exitedNow;
  }

  class Dashboard {
    /** `sys.executable` and the game script's path. */
    const interpreter: string
    const gamePath: string
    var runtime: Runtime
    var lastRun: LastRun
    var selectedColor: NamedColor
    var themeKey: string
    var logs: seq<LogEntry>

    ghost predicate Valid()
      reads this
    {
      && |logs| <= LOG_CAP
      && (runtime.proc.Some? <==> runtime.pid.Some?)
      && (runtime.proc.Some? ==> runtime.pid.value == runtime.proc.value.pid)
      && HexShapeOk(selectedColor.hex)
      && (themeKey == "green" || themeKey == "blue")
    }

    /**
     * Module load: the last 300 entries of a readable log file are kept (a
     * file that does not parse leaves a warning instead), then the start
     * entry is appended.
     */
    constructor (interpreter: string, gamePath: string, persisted: Option<seq<LogEntry>>, now: real)
      ensures Valid()
      ensures this.interpreter == interpreter && this.gamePath == gamePath
      ensures runtime == Runtime(None, None, None, None)
      ensures lastRun == LastRun(None, None, None, None, None)
      ensures selectedColor == NamedColor(DEFAULT_HEX, DEFAULT_NAME) && themeKey == "green"
      ensures persisted.Some? ==>
        logs == LastN(persisted.value, PERSISTED_KEPT) + [LogEntry(now, Info, "Dashboard starting (Asphalt Rush \U{2014} JV)")]
      ensures persisted.None? ==>
        logs == [LogEntry(now, Warn, "failed to load logs"), LogEntry(now, Info, "Dashboard starting (Asphalt Rush \U{2014} JV)")]
    {
      this.interpreter := interpreter;
      this.gamePath := gamePath;
      runtime := Runtime(None, None, None, None);
      lastRun := LastRun(None, None, None, None, None);
      selectedColor := NamedColor(DEFAULT_HEX, DEFAULT_NAME);
      themeKey := "green";
      var loaded := if persisted.Some? then LastN(persisted.value, PERSISTED_KEPT)
                    else [LogEntry(now, Warn, "failed to load logs")];
      logs := loaded + [LogEntry(now, Info, "Dashboard starting (Asphalt Rush \U{2014} JV)")];
    }

    /**
     * `append_log`, in memory: the new entry goes last, and once the log
     * holds more than 2000 entries the oldest is dropped.
     */
    method AppendLog(level: Level, msg: string, now: real)
      modifies this`logs
      ensures logs == BoundedAppend(old(logs), LogEntry(now, level, msg), LOG_CAP)
    {
      logs := logs + [LogEntry(now, level, msg)];
      if |logs| > LOG_CAP {
        logs := logs[1..];
      }
    }

    /**
     * `/api/runtime`: a live tracked child is reported with its pid and
     * nothing changes; an exited one is detected here, logged, forgotten, and
     * its run stamped as ended.
     */
    method ApiRuntime(alive: bool, now: real) returns (running: bool, pid: Option<int>)
      requires Valid()
      modifies this`runtime, this`lastRun, this`logs
      ensures Valid()
      ensures running <==> old(runtime.proc).Some? && alive
      ensures running ==> pid == old(runtime.pid) && pid.Some?
      ensures !running ==> pid.None?
      ensures old(runtime.proc).None? || alive ==>
        runtime == old(runtime) && lastRun == old(lastRun) && logs == old(logs)
      ensures old(runtime.proc).Some? && !alive ==>
        && runtime == old(runtime).(proc := None, pid := None)
        && lastRun == StampEnd(old(lastRun), now)
        && logs == BoundedAppend(old(logs), LogEntry(now, Info, "Game terminated (detected)"), LOG_CAP)
    {
      running := false;
      pid := None;
      if runtime.proc.Some? {
        if alive {
          running := true;
          pid := runtime.pid;
        } else {
          AppendLog(Info, "Game terminated (detected)", now);
          runtime := runtime.(proc := None, pid := None);
          lastRun := StampEnd(lastRun, now);
        }
      }
    }

    /**
     * `/api/start`. A missing game script is refused (and logged); a live
     * tracked child is refused with nothing changed; a dead one is forgotten
     * first. The launch then runs with the clamped lane count, the mode and
     * the selected colour; on success the runtime records the child and the
     * last run starts afresh, on failure the runtime is left as it was.
     */
    method ApiStart(scriptExists: bool, alive: bool, lanesReq: Option<int>, modeReq: Option<string>,
                    launch: LaunchOutcome, now: real) returns (reply: StartReply)
      requires Valid()
      modifies this`runtime, this`lastRun, this`logs
      ensures Valid()
      ensures !scriptExists ==>
        && reply == ScriptMissing && runtime == old(runtime) && lastRun == old(lastRun)
        && logs == BoundedAppend(old(logs), LogEntry(now, Error, "Game script not found: " + gamePath), LOG_CAP)
      ensures scriptExists && old(runtime.proc).Some? && alive ==>
        && reply == AlreadyRunning(old(runtime.pid))
        && runtime == old(runtime) && lastRun == old(lastRun) && logs == old(logs)
      ensures scriptExists && (old(runtime.proc).None? || !alive) ==>
        var lanes := ClampLanes(lanesReq.GetOr(3));
        var args := LaunchArgs(interpreter, gamePath, lanes, modeReq.GetOr("normal"), selectedColor.hex);
        var launching := BoundedAppend(old(logs), LogEntry(now, Info, "Launching game"), LOG_CAP);
        match launch
        case Spawned(child) =>
          && reply == Launched(child.pid, lanes)
          && runtime == Runtime(Some(child), Some(child.pid), Some(now), Some(args))
          && lastRun == LastRun(None, Some(lanes), Some(now), None, None)
          && logs == BoundedAppend(launching, LogEntry(now, Info, "Game launched"), LOG_CAP)
        case LaunchError(e) =>
          && reply == LaunchFailed(e)
          && runtime == old(runtime).(proc := None, pid := None)
          && lastRun == old(lastRun)
          && logs == BoundedAppend(launching, LogEntry(now, Error, "Failed to launch game"), LOG_CAP)
    {
      if !scriptExists {
        AppendLog(Error, "Game script not found: " + gamePath, now);
        return ScriptMissing;
      }
      if runtime.proc.Some? {
        if alive {
          return AlreadyRunning(runtime.pid);
        }
        runtime := runtime.(proc := None, pid := None);
      }
      var lanes := ClampLanes(lanesReq.GetOr(3));
      var mode := modeReq.GetOr("normal");
      var args := LaunchArgs(interpreter, gamePath, lanes, mode, selectedColor.hex);
      AppendLog(Info, "Launching game", now);
      match launch {
        case Spawned(child) =>
          runtime := Runtime(Some(child), Some(child.pid), Some(now), Some(args));
          lastRun := LastRun(None, Some(lanes), Some(now), None, None);
          AppendLog(Info, "Game launched", now);
          reply := Launched(child.pid, lanes);
        case LaunchError(e) =>
          AppendLog(Error, "Failed to launch game", now);
          reply := LaunchFailed(e);
      }
    }

    /**
     * `/api/stop`: refused with nothing changed when no child is tracked;
     * otherwise the child is terminated (and killed if it outlives the
     * polls), the run is stamped as ended, and all four runtime fields are
     * cleared whatever happened to the child.
     */
    method ApiStop(exitsAfter: nat, now: real) returns (reply: StopReply)
      requires Valid()
      modifies this`runtime, this`lastRun, this`logs
      ensures Valid()
      ensures old(runtime.proc).None? ==>
        reply == NoProcess && runtime == old(runtime) && lastRun == old(lastRun) && logs == old(logs)
      ensures old(runtime.proc).Some? ==>
        && reply == Stopped(exitsAfter > STOP_POLLS)
        && runtime == Runtime(None, None, None, None)
        && lastRun == StampEnd(old(lastRun), now)
        && logs == BoundedAppend(BoundedAppend(old(logs), LogEntry(now, Info, "Stopping game"), LOG_CAP),
                                 LogEntry(now, Info, "Game stopped"), LOG_CAP)
    {
      if runtime.proc.None? {
        return NoProcess;
      }
      AppendLog(Info, "Stopping game", now);
      var sleeps, killed := AwaitExit(exitsAfter);
      AppendLog(Info, "Game stopped", now);
      lastRun := StampEnd(lastRun, now);
      runtime := Runtime(None, None, None, None);
      reply := Stopped(killed);
    }

    /**
     * `/submit_score`: an unparsable document is refused with the last run
     * unchanged; otherwise score, lanes and end time are overwritten, and the
     * duration is recomputed when the run has a start time.
     */
    method SubmitScore(payload: Option<ScoreRequest>, now: real) returns (ok: bool)
      requires Valid()
      modifies this`lastRun, this`logs
      ensures Valid()
      ensures ok <==> payload.Some?
      ensures payload.None? ==>
        && lastRun == old(lastRun)
        && logs == BoundedAppend(old(logs), LogEntry(now, Warn, "submit_score invalid JSON"), LOG_CAP)
      ensures payload.Some? ==>
        && lastRun.score == Some(payload.value.score.GetOr(0))
        && lastRun.lanes == Some(payload.value.lanes.GetOr(0))
        && lastRun.startTime == old(lastRun.startTime) && lastRun.endTime == Some(now)
        && lastRun.durationS == (if Truthy(old(lastRun.startTime))
                                 then Some(Trunc(now - old(lastRun.startTime).value))
                                 else old(lastRun.durationS))
        && logs == BoundedAppend(old(logs), LogEntry(now, Info, "Score submitted by game"), LOG_CAP)
    {
      if payload.None? {
        AppendLog(Warn, "submit_score invalid JSON", now);
        return false;
      }
      var score := payload.value.score.GetOr(0);
      var lanes := payload.value.lanes.GetOr(0);
      AppendLog(Info, "Score submitted by game", now);
      lastRun := lastRun.(score := Some(score), lanes := Some(lanes), endTime := Some(now));
      if Truthy(lastRun.startTime) {
        lastRun := lastRun.(durationS := Some(Trunc(now - lastRun.startTime.value)));
      }
      ok := true;
    }

    /** `/api/last_run`: the five fields of the last run, read without change. */
    method ApiLastRun() returns (r: LastRun)
      ensures r == lastRun
    {
      r := lastRun;
    }

    /**
     * `/api/logs`: the most recent 400 entries, in order, and the two counters
     * over the whole in-memory log.
     */
    method ApiLogs() returns (reply: LogsReply)
      ensures |reply.logs| == (if |logs| < LOG_PAGE then |logs| else LOG_PAGE)
      ensures reply.logs == logs[|logs| - |reply.logs|..]
      ensures reply.launchCount == LaunchCount(logs) && reply.scoredRuns == ScoredRuns(logs)
    {
      reply := LogsReply(LastN(logs, LOG_PAGE), LaunchCount(logs), ScoredRuns(logs));
    }

    /** `/api/clear_logs`: the log is emptied and then records its own clearing. */
    method ApiClearLogs(now: real)
      requires Valid()
      modifies this`logs
      ensures Valid()
      ensures logs == [LogEntry(now, Info, "In-memory logs cleared by user")]
    {
      logs := [];
      AppendLog(Info, "In-memory logs cleared by user", now);
    }

    /** `/api/color`: the selected colour, read without change. */
    method ApiColor() returns (c: NamedColor)
      requires Valid()
      ensures c == selectedColor && HexShapeOk(c.hex)
    {
      c := selectedColor;
    }

    /**
     * `/api/set_color`: a missing or falsy hex, and a hex that is not a string
     * starting with '#' of length 4 or 7, are refused with the selection
     * unchanged; an accepted one replaces the selection with exactly the hex
     * and name given. A body that is not a JSON object fails and is logged.
     */
    method ApiSetColor(payload: Option<ColorRequest>, now: real) returns (reply: SetColorReply)
      requires Valid()
      modifies this`selectedColor, this`logs
      ensures Valid()
      ensures reply.ColorSet? <==>
        payload.Some? && payload.value.hex.Text? && HexShapeOk(payload.value.hex.s)
      ensures reply.ColorSet? ==>
        && selectedColor == NamedColor(payload.value.hex.s, payload.value.name.GetOr(""))
        && reply.color == selectedColor
        && logs == BoundedAppend(old(logs), LogEntry(now, Info, "Color selected on dashboard"), LOG_CAP)
      ensures !reply.ColorSet? ==> selectedColor == old(selectedColor)
      ensures reply == MissingHex <==>
        payload.Some? && (payload.value.hex.Absent? || payload.value.hex == Text("")
                          || payload.value.hex == NotText(false))
      ensures reply == MissingHex || reply == InvalidHex ==> logs == old(logs)
      ensures reply == SetColorFailed <==> payload.None?
      ensures payload.None? ==> logs == BoundedAppend(old(logs), LogEntry(now, Error, "Failed to set color"), LOG_CAP)
    {
      if payload.None? {
        AppendLog(Error, "Failed to set color", now);
        return SetColorFailed;
      }
      var hex := payload.value.hex;
      var missing := match hex
        case Absent => true
        case Text(s) => s == ""
        case NotText(truthy) => !truthy;
      if missing {
        return MissingHex;
      }
      if !(hex.Text? && HexShapeOk(hex.s)) {
        return InvalidHex;
      }
      selectedColor := NamedColor(hex.s, payload.value.name.GetOr(""));
      AppendLog(Info, "Color selected on dashboard", now);
      reply := ColorSet(selectedColor);
    }

    /** `/api/set_theme`: "green" and "blue" are kept, any other key becomes "green". */
    method ApiSetTheme(payload: Option<ThemeRequest>, now: real) returns (reply: ThemeReply)
      requires Valid()
      modifies this`themeKey, this`logs
      ensures Valid()
      ensures payload.None? ==> reply == SetThemeFailed && themeKey == old(themeKey)
      ensures payload.None? ==> logs == BoundedAppend(old(logs), LogEntry(now, Error, "Failed to set theme"), LOG_CAP)
      ensures payload.Some? ==>
        && themeKey == (if payload.value.key == Some("blue") then "blue" else "green")
        && reply == ThemeSet(themeKey)
        && logs == BoundedAppend(old(logs), LogEntry(now, Info, "Theme changed"), LOG_CAP)
    {
      if payload.None? {
        AppendLog(Error, "Failed to set theme", now);
        return SetThemeFailed;
      }
      var key := payload.value.key.GetOr("green");
      if key != "green" && key != "blue" {
        key := "green";
      }
      themeKey := key;
      AppendLog(Info, "Theme changed", now);
      reply := ThemeSet(themeKey);
    }
  }

  /** A fresh dashboard whose launch of a three-lane game succeeds at `t1`. */
  method LaunchThreeLanes(interpreter: string, gamePath: string, pid: int, t0: real, t1: real)
    returns (d: Dashboard)
    ensures fresh(d) && d.Valid()
    ensures d.lastRun == LastRun(None, Some(3), Some(t1), None, None)
  {
    d := new Dashboard(interpreter, gamePath, Some([]), t0);
    var started := d.ApiStart(true, false, Some(3), None, Spawned(Child(pid)), t1);
  }

  /**
   * A run launched with three lanes whose game submits a score of 12 is
   * reported with that score, those lanes and the whole seconds elapsed
   * between the launch and the submission.
   */
  method StartThenSubmit(interpreter: string, gamePath: string, pid: int, t0: real, t1: real, t2: real)
    returns (summary: LastRun)
    requires t1 != 0.0
    ensures summary.score == Some(12) && summary.lanes == Some(3)
    ensures summary.startTime == Some(t1) && summary.endTime == Some(t2)
    ensures summary.durationS == Some(Trunc(t2 - t1))
  {
    var d := LaunchThreeLanes(interpreter, gamePath, pid, t0, t1);
    var ok := d.SubmitScore(Some(ScoreRequest(Some(12), Some(3))), t2);
    summary := d.ApiLastRun();
  }

  /**
   * Pushing "#0f766e" named "Teal Dark" and then "not-a-color" leaves the
   * first colour selected: the second push is refused, and the colour read
   * back is exactly the document accepted first.
   */
  method PushThenPushInvalid(interpreter: string, gamePath: string, t0: real, t1: real, t2: real)
    returns (first: SetColorReply, second: SetColorReply, c: NamedColor)
    ensures first == ColorSet(NamedColor("#0f766e", "Teal Dark"))
    ensures second == InvalidHex
    ensures c == NamedColor("#0f766e", "Teal Dark")
  {
    var d := new Dashboard(interpreter, gamePath, Some([]), t0);
    first := d.ApiSetColor(Some(ColorRequest(Text("#0f766e"), Some("Teal Dark"))), t1);
    second := d.ApiSetColor(Some(ColorRequest(Text("not-a-color"), None)), t2);
    c := d.ApiColor();
  }
}
