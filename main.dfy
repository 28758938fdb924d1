/** The process state of the Telegram front end (main.py): the `BotState` object and
    its bounded event log, the state effects of the phase commands, the engine label and
    last event shown by `/status`, and the path and binary choice of the audio
    conversion. Clocks, the file system and the ffmpeg run are parameters. */
module BotMain {
  import opened Wrappers
  import opened Strings
  import ResolveIa

  // ---------------------------------------------------------------------------
  // The event log

  /** `add_log` keeps at most this many entries. */
  const MaxLogs := 30

  /** One log entry: the dictionary with keys `time`, `type`, `msg` and `status`. */
  datatype LogEntry = LogEntry(time: string, kind: string, msg: string, status: string)

  /** What `add_log` does to the list: insert the entry at the front, and drop the last
      entry once the list has grown past the cap. */
  function PushCapped(logs: seq<LogEntry>, entry: LogEntry): (r: seq<LogEntry>)
    ensures |r| == if |logs| < MaxLogs then |logs| + 1 else |logs|
    ensures r[0] == entry
    ensures forall i :: 1 <= i < |r| ==> r[i] == logs[i - 1]
  {
    var grown := [entry] + logs;
    if |grown| > MaxLogs then grown[..|grown| - 1] else grown
  }

  function Reversed(s: seq<LogEntry>): (r: seq<LogEntry>)
    ensures |r| == |s|
    ensures forall i :: 0 <= i < |s| ==> r[i] == s[|s| - 1 - i]
    decreases |s|
  {
    if s == [] then [] else [s[|s| - 1]] + Reversed(s[..|s| - 1])
  }

  /** The list after `add_log` has been called with each of `entries`, in order. */
  function PushAll(logs: seq<LogEntry>, entries: seq<LogEntry>): seq<LogEntry>
    decreases |entries|
  {
    if entries == [] then logs
    else PushCapped(PushAll(logs, entries[..|entries| - 1]), entries[|entries| - 1])
  }

  function Min(a: int, b: int): int {
    if a <= b then a else b
  }

  /** From a list within the cap, any run of `add_log` calls leaves the newest entries
      first, followed by the older ones, cut to the cap: the log is a window of the
      `MaxLogs` most recent events. */
  lemma {:induction false} KeepsNewest(logs: seq<LogEntry>, entries: seq<LogEntry>)
    requires |logs| <= MaxLogs
    ensures var all := Reversed(entries) + logs;
            PushAll(logs, entries) == all[..Min(|all|, MaxLogs)]
    decreases |entries|
  {
    if entries == [] {
      assert Reversed(entries) + logs == logs;
    } else {
      var n := |entries|;
      var init, e := entries[..n - 1], entries[n - 1];
      KeepsNewest(logs, init);
      var allPrev := Reversed(init) + logs;
      assert Reversed(entries) + logs == [e] + allPrev;
      PushWindow(PushAll(logs, init), allPrev, e);
    }
  }

  /** One `add_log` call moves the window of the most recent entries on by one. */
  lemma PushWindow(prev: seq<LogEntry>, all: seq<LogEntry>, e: LogEntry)
    requires prev == all[..Min(|all|, MaxLogs)]
    ensures PushCapped(prev, e) == ([e] + all)[..Min(|all| + 1, MaxLogs)]
  {
    var r := PushCapped(prev, e);
    if |prev| < MaxLogs {
      assert prev == all;
      assert r == [e] + prev;
    } else {
      assert r == [e] + all[..MaxLogs - 1];
    }
  }

  // ---------------------------------------------------------------------------
  // Audio conversion: the output path and the ffmpeg binary

  /** The locations `converter_audio_nativo` looks for ffmpeg in, in order. */
  const FfmpegCandidates := ["/opt/homebrew/bin/ffmpeg", "/usr/local/bin/ffmpeg", "/usr/bin/ffmpeg"]

  /** The command used when none of the candidates exists: ffmpeg from `PATH`. */
  const DefaultFfmpeg := "ffmpeg"

  /** The first path that exists, or the default command. */
  function FirstExisting(paths: seq<string>, pathExists: string -> bool): (r: string)
    ensures (forall k :: 0 <= k < |paths| ==> !pathExists(paths[k])) ==> r == DefaultFfmpeg
    ensures (exists k :: 0 <= k < |paths| && pathExists(paths[k])) ==>
              exists k :: 0 <= k < |paths| && pathExists(paths[k]) && r == paths[k] &&
                          forall j :: 0 <= j < k ==> !pathExists(paths[j])
    decreases |paths|
  {
    if paths == [] then DefaultFfmpeg
    else if pathExists(paths[0]) then paths[0]
    else
      var r := FirstExisting(paths[1..], pathExists);
      assert forall k :: 1 <= k < |paths| ==> paths[k] == paths[1..][k - 1];
      assert (exists k :: 0 <= k < |paths| && pathExists(paths[k])) ==>
               exists k :: 0 <= k < |paths[1..]| && pathExists(paths[1..][k]);
      r
  }

  /** The conversion's output path: `input_path.replace(".ogg", ".wav")`. Every `.ogg`
      of the input is a `.wav` at the same place, every other character is kept, and no
      `.ogg` is left. */
  function OutputPath(inputPath: string): (r: string)
    ensures |r| == |inputPath|
    ensures forall i :: OccursAt(inputPath, ".ogg", i) ==> r[i..i + 4] == ".wav"
    ensures forall i :: 0 <= i < |inputPath| && !Covered(inputPath, ".ogg", i) ==> r[i] == inputPath[i]
    ensures !Occurs(r, ".ogg")
    ensures !Occurs(inputPath, ".ogg") ==> r == inputPath
  {
    var r := ReplaceAll(inputPath, ".ogg", ".wav");
    forall i | OccursAt(inputPath, ".ogg", i) ensures r[i..i + 4] == ".wav" {
      OggBecomesWav(inputPath, i);
    }
    forall i | 0 <= i < |inputPath| && !Covered(inputPath, ".ogg", i) ensures r[i] == inputPath[i] {
      OutsideOggKept(inputPath, i);
    }
    ReplaceLeavesNoOgg(inputPath);
    ContainsIff(r, ".ogg");
    ContainsIff(inputPath, ".ogg");
    ReplaceAllAbsent(inputPath, ".ogg", ".wav");
    r
  }

  /** Replacing `.ogg` by `.wav` puts a `.wav` where each `.ogg` was. An `.ogg` cannot
      overlap another, so the left-to-right scan meets every occurrence at its start. */
  lemma {:induction false} OggBecomesWav(s: string, i: int)
    requires OccursAt(s, ".ogg", i)
    ensures var r := ReplaceAll(s, ".ogg", ".wav");
            i + 4 <= |r| && r[i..i + 4] == ".wav"
    decreases |s|
  {
    var r := ReplaceAll(s, ".ogg", ".wav");
    if StartsWith(s, ".ogg") {
      var x := ReplaceAll(s[4..], ".ogg", ".wav");
      assert r == ".wav" + x;
      assert s[1] == 'o' && s[2] == 'g' && s[3] == 'g';
      assert s[i] == s[i..i + 4][0] == '.';
      if i >= 4 {
        OccursAfterDrop(s, ".ogg", 4, i);
        OggBecomesWav(s[4..], i - 4);
        SliceOfAppend(".wav", x, i, 4);
      }
    } else {
      var x := ReplaceAll(s[1..], ".ogg", ".wav");
      assert r == [s[0]] + x;
      assert i >= 1;
      OccursAfterDrop(s, ".ogg", 1, i);
      OggBecomesWav(s[1..], i - 1);
      SliceOfAppend([s[0]], x, i, 4);
    }
  }

  /** Replacing `.ogg` by `.wav` keeps every character outside the occurrences of `.ogg`. */
  lemma {:induction false} OutsideOggKept(s: string, i: int)
    requires 0 <= i < |s| && !Covered(s, ".ogg", i)
    ensures var r := ReplaceAll(s, ".ogg", ".wav");
            i < |r| && r[i] == s[i]
    decreases |s|
  {
    var r := ReplaceAll(s, ".ogg", ".wav");
    if StartsWith(s, ".ogg") {
      var t := s[4..];
      assert r == ".wav" + ReplaceAll(t, ".ogg", ".wav");
      assert OccursAt(s, ".ogg", 0);
      assert i >= 4;
      forall j | OccursAt(t, ".ogg", j) ensures !(j <= i - 4 < j + 4) {
        assert s[j + 4..j + 8] == t[j..j + 4];
        assert OccursAt(s, ".ogg", j + 4);
      }
      OutsideOggKept(t, i - 4);
    } else if i >= 1 {
      var t := s[1..];
      assert r == [s[0]] + ReplaceAll(t, ".ogg", ".wav");
      forall j | OccursAt(t, ".ogg", j) ensures !(j <= i - 1 < j + 4) {
        assert s[j + 1..j + 5] == t[j..j + 4];
        assert OccursAt(s, ".ogg", j + 1);
      }
      OutsideOggKept(t, i - 1);
    }
  }

  /** An upper part of the replaced text that has no dot was in the original. */
  lemma {:induction false} DotFreePrefixKept(t: string, q: string)
    requires '.' !in q
    ensures StartsWith(ReplaceAll(t, ".ogg", ".wav"), q) ==> StartsWith(t, q)
    decreases |q|
  {
    var r := ReplaceAll(t, ".ogg", ".wav");
    if q != [] && StartsWith(r, q) {
      assert r[0] == r[..|q|][0] == q[0] != '.';
      assert !StartsWith(t, ".ogg");
      assert t != [];
      var rest := ReplaceAll(t[1..], ".ogg", ".wav");
      assert r == [t[0]] + rest;
      assert q[0] == r[..|q|][0] == t[0];
      assert rest[..|q| - 1] == r[..|q|][1..];
      DotFreePrefixKept(t[1..], q[1..]);
      assert t[..|q|] == [t[0]] + t[1..][..|q| - 1];
    }
  }

  /** No `.ogg` can start inside a dot-free piece put in front of `x`. */
  lemma {:induction false} SkipDotFree(q: string, x: string)
    requires '.' !in q
    ensures Contains(q + x, ".ogg") ==> Contains(x, ".ogg")
    decreases |q|
  {
    if q != [] {
      assert (q + x)[0] == q[0];
      assert (q + x)[1..] == q[1..] + x;
      SkipDotFree(q[1..], x);
    } else {
      assert q + x == x;
    }
  }

  /** Replacing `.ogg` by `.wav` leaves no `.ogg`: `.wav` cannot start a new one, and no
      occurrence can straddle a replacement. */
  lemma {:induction false} ReplaceLeavesNoOgg(s: string)
    ensures !Contains(ReplaceAll(s, ".ogg", ".wav"), ".ogg")
    decreases |s|
  {
    var r := ReplaceAll(s, ".ogg", ".wav");
    if StartsWith(s, ".ogg") {
      var x := ReplaceAll(s[4..], ".ogg", ".wav");
      ReplaceLeavesNoOgg(s[4..]);
      assert r == ".wav" + x;
      assert r[1..] == "wav" + x;
      assert r[1] == 'w';
      SkipDotFree("wav", x);
    } else if s != [] {
      var x := ReplaceAll(s[1..], ".ogg", ".wav");
      ReplaceLeavesNoOgg(s[1..]);
      assert r == [s[0]] + x;
      assert r[1..] == x;
      if StartsWith(r, ".ogg") {
        assert x[..3] == "ogg";
        DotFreePrefixKept(s[1..], "ogg");
        assert false;
      }
    }
  }

  /** A dot-free prefix followed by `.ogg` becomes the same prefix followed by `.wav`,
      as for the `voice_<timestamp>.ogg` files the audio handler downloads. */
  lemma OggSuffixBecomesWav(base: string)
    requires '.' !in base
    ensures OutputPath(base + ".ogg") == base + ".wav"
  {
    var s := base + ".ogg";
    var r := OutputPath(s);
    assert s[|base|..] == ".ogg";
    assert OccursAt(s, ".ogg", |base|);
    forall i | 0 <= i < |base| ensures r[i] == base[i] {
      forall j | OccursAt(s, ".ogg", j) ensures i < j {
        assert s[j] == s[j..j + 4][0] == '.';
        assert forall k :: 0 <= k < |base| ==> s[k] == base[k] != '.';
      }
      assert s[i] == base[i];
    }
    assert r[|base|..] == ".wav";
    assert r == r[..|base|] + r[|base|..];
    assert r[..|base|] == base;
  }

  /** `converter_audio_nativo`: the output path, the ffmpeg command line built with the
      first candidate binary that exists, and the result of running it, which is the
      output path when ffmpeg succeeds and `None` when it fails. */
  method ConverterAudioNativo(inputPath: string, pathExists: string -> bool, ffmpegSucceeds: seq<string> -> bool)
    returns (cmd: seq<string>, result: Option<string>)
    ensures cmd == [FirstExisting(FfmpegCandidates, pathExists), "-i", inputPath, "-ac", "1", "-ar", "16000",
                    OutputPath(inputPath), "-y"]
    ensures result == if ffmpegSucceeds(cmd) then Some(OutputPath(inputPath)) else None
  {
    var outputPath := OutputPath(inputPath);
    var ffmpegCmd := DefaultFfmpeg;
    var i := 0;
    while i < |FfmpegCandidates|
      invariant 0 <= i <= |FfmpegCandidates|
      invariant ffmpegCmd == DefaultFfmpeg
      invariant FirstExisting(FfmpegCandidates[i..], pathExists) == FirstExisting(FfmpegCandidates, pathExists)
    {
      if pathExists(FfmpegCandidates[i]) {
        ffmpegCmd := FfmpegCandidates[i];
        break;
      }
      assert FfmpegCandidates[i..][1..] == FfmpegCandidates[i + 1..];
      i := i + 1;
    }
    cmd := [ffmpegCmd, "-i", inputPath, "-ac", "1", "-ar", "16000", outputPath, "-y"];
    result := if ffmpegSucceeds(cmd) then Some(outputPath) else None;
  }

  // ---------------------------------------------------------------------------
  // The process-wide state

  /** `BotState`: the current phase, the backend priority, the event log and the AI
      system, whose configuration does not change after start-up. */
  class BotState {
    var faseAtual: string
    var modeloPrioridade: string
    var logs: seq<LogEntry>
    const aiSystem: ResolveIa.Config

    /** The phase is `'1'` or `'2'` and the log is within its cap. */
    ghost predicate Valid()
      reads this
    {
      (faseAtual == "1" || faseAtual == "2") && |logs| <= MaxLogs
    }

    /** `BotState.__init__`: phase `'1'`, Groq first, an empty log. */
    constructor (aiSystem: ResolveIa.Config)
      ensures Valid()
      ensures faseAtual == "1" && modeloPrioridade == "groq" && logs == []
      ensures this.aiSystem == aiSystem
    {
      faseAtual := "1";
      modeloPrioridade := "groq";
      logs := [];
      this.aiSystem := aiSystem;
    }

    /** `add_log`, with the formatted time of day as a parameter. */
    method AddLog(time: string, kind: string, msg: string, status: string := "Info")
      requires Valid()
      modifies this
      ensures Valid()
      ensures logs == PushCapped(old(logs), LogEntry(time, kind, msg, status))
      ensures faseAtual == old(faseAtual) && modeloPrioridade == old(modeloPrioridade)
    {
      var entry := LogEntry(time, kind, msg, status);
      logs := [entry] + logs;
      if |logs| > MaxLogs {
        logs := logs[..|logs| - 1];
      }
    }

    /** The state effect of `/fase1`. */
    method CmdFase1(time: string)
      requires Valid()
      modifies this
      ensures Valid()
      ensures faseAtual == "1" && modeloPrioridade == old(modeloPrioridade)
      ensures logs == PushCapped(old(logs), LogEntry(time, "Config", "Fase alterada para 1", "Info"))
    {
      faseAtual := "1";
      AddLog(time, "Config", "Fase alterada para 1");
    }

    /** The state effect of `/fase2`. */
    method CmdFase2(time: string)
      requires Valid()
      modifies this
      ensures Valid()
      ensures faseAtual == "2" && modeloPrioridade == old(modeloPrioridade)
      ensures logs == PushCapped(old(logs), LogEntry(time, "Config", "Fase alterada para 2", "Info"))
    {
      faseAtual := "2";
      AddLog(time, "Config", "Fase alterada para 2");
    }

    /** The engine label and the last event of `/status`. The label tells both flags
        apart: it starts with `Gemini` exactly when Gemini is configured and ends with
        ` + Groq` exactly when Groq is. */
    method CmdStatus() returns (motor: string, ultimoEvento: string)
      ensures StartsWith(motor, "Gemini") <==> aiSystem.geminiOk
      ensures EndsWith(motor, " + Groq") <==> aiSystem.groqOk
      ensures !aiSystem.geminiOk ==> StartsWith(motor, "Desconhecido")
      ensures aiSystem.geminiOk && aiSystem.groqOk ==> motor == "Gemini + Groq"
      ensures aiSystem.geminiOk && !aiSystem.groqOk ==> motor == "Gemini"
      ensures !aiSystem.geminiOk && aiSystem.groqOk ==> motor == "Desconhecido + Groq"
      ensures !aiSystem.geminiOk && !aiSystem.groqOk ==> motor == "Desconhecido"
      ensures logs != [] ==> ultimoEvento == logs[0].msg
      ensures logs == [] ==> ultimoEvento == "Nenhum"
    {
      motor := "Desconhecido";
      if aiSystem.geminiOk {
        motor := "Gemini";
      }
      if aiSystem.groqOk {
        motor := motor + " + Groq";
      }
      ultimoEvento := if logs != [] then logs[0].msg else "Nenhum";
      StatusLabels();
    }
  }

  /** How the four engine labels of `/status` begin and end. */
  lemma StatusLabels()
    ensures "Gemini" + " + Groq" == "Gemini + Groq" && "Desconhecido" + " + Groq" == "Desconhecido + Groq"
    ensures StartsWith("Gemini + Groq", "Gemini") && EndsWith("Gemini + Groq", " + Groq")
    ensures StartsWith("Gemini", "Gemini") && !EndsWith("Gemini", " + Groq")
    ensures StartsWith("Desconhecido + Groq", "Desconhecido") && EndsWith("Desconhecido + Groq", " + Groq")
    ensures StartsWith("Desconhecido", "Desconhecido") && !EndsWith("Desconhecido", " + Groq")
    ensures !StartsWith("Desconhecido + Groq", "Gemini") && !StartsWith("Desconhecido", "Gemini")
  {
    assert "Desconhecido + Groq"[0] == 'D' && "Desconhecido"[0] == 'D';
    assert "Desconhecido"[5] == 'n';
  }
}
