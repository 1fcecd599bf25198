/** `convertToShort` of short-service/server.js: the ffmpeg argument list, the stderr it collects
    and how the close code settles the promise. The process itself is given by what it does: the
    stderr chunks in arrival order, how it ended, and whether it left an output file. */
module Ffmpeg {
  import opened Wrappers
  import opened Strings
  import opened Files

  const DefaultStart: nat := 0
  const DefaultDuration: nat := 60

  /** The crop to 9:16 of the full height, scaled to the 1080 by 1920 portrait frame. */
  const Filter := "crop=ih*9/16:ih,scale=1080:1920"

  /** The argument list of the spawned `ffmpeg`. */
  function Args(input: string, output: string, start: nat, duration: nat): (args: seq<string>) {
    ["-y", "-i", input, "-ss", NatToString(start), "-t", NatToString(duration), "-vf", Filter,
     "-c:v", "libx264", "-preset", "fast", "-crf", "23", "-c:a", "aac", "-b:a", "128k",
     "-movflags", "+faststart", output]
  }

  /** ffmpeg reads back exactly the requested window: the seek position follows `-ss` and the
      length follows `-t`, as decimal text whose value is the number passed in, between the input
      after `-i` and the output last. */
  lemma ArgsRead(input: string, output: string, start: nat, duration: nat)
    ensures var args := Args(input, output, start, duration);
      |args| == 22 && args[0] == "-y" && args[1] == "-i" && args[2] == input
      && args[3] == "-ss" && AllDigits(args[4]) && DecimalValue(args[4]) == start
      && args[5] == "-t" && AllDigits(args[6]) && DecimalValue(args[6]) == duration
      && args[7] == "-vf" && args[21] == output
  {
    var args := Args(input, output, start, duration);
    assert args[4] == NatToString(start) && args[6] == NatToString(duration);
    DecimalRoundTrip(start);
    DecimalRoundTrip(duration);
  }

  /** Different requests give different command lines. */
  lemma ArgsInjective(i1: string, o1: string, s1: nat, d1: nat, i2: string, o2: string, s2: nat, d2: nat)
    requires Args(i1, o1, s1, d1) == Args(i2, o2, s2, d2)
    ensures i1 == i2 && o1 == o2 && s1 == s2 && d1 == d2
  {
    ArgsRead(i1, o1, s1, d1);
    ArgsRead(i2, o2, s2, d2);
  }

  /** The chunks joined in arrival order. */
  function Concat(chunks: seq<string>): string {
    if chunks == [] then [] else Concat(chunks[..|chunks| - 1]) + chunks[|chunks| - 1]
  }

  /** Joining respects order: the text of `a` then `b` is the text of `a` followed by that of `b`. */
  lemma {:induction false} ConcatAppend(a: seq<string>, b: seq<string>)
    ensures Concat(a + b) == Concat(a) + Concat(b)
    decreases |b|
  {
    if b == [] {
      assert a + b == a;
    } else {
      var init, last := b[..|b| - 1], b[|b| - 1];
      assert (a + b)[..|a + b| - 1] == a + init && (a + b)[|a + b| - 1] == last;
      ConcatAppend(a, init);
      assert Concat(a) + Concat(init) + last == Concat(a) + (Concat(init) + last);
    }
  }

  /** Every chunk appears in the joined text, at the position the chunks before it add up to. */
  lemma {:induction false} ConcatContains(chunks: seq<string>, k: nat)
    requires k < |chunks|
    ensures var before := |Concat(chunks[..k])|;
      before + |chunks[k]| <= |Concat(chunks)|
      && Concat(chunks)[before..before + |chunks[k]|] == chunks[k]
  {
    assert chunks == chunks[..k] + [chunks[k]] + chunks[k + 1..];
    ConcatAppend(chunks[..k] + [chunks[k]], chunks[k + 1..]);
    ConcatAppend(chunks[..k], [chunks[k]]);
    assert [chunks[k]][..0] == [];
  }

  /** `stderr += d.toString()` for each chunk, in arrival order. */
  method CollectStderr(chunks: seq<string>) returns (stderr: string)
    ensures stderr == Concat(chunks)
  {
    stderr := "";
    for i := 0 to |chunks|
      invariant stderr == Concat(chunks[..i])
    {
      assert chunks[..i + 1][..i] == chunks[..i];
      stderr := stderr + chunks[i];
    }
    assert chunks[..|chunks|] == chunks;
  }

  /** How the child process ended: `close` with a code (`None` for the `null` of a process killed
      by a signal), or an `error` event (spawn failure) first. */
  datatype ProcessEnd = Closed(code: Option<nat>) | SpawnError(message: string)

  /** What one run of ffmpeg does; `leavesOutput` says whether a failed run that did start left a
      (partial) output file. */
  datatype Run = Run(chunks: seq<string>, end: ProcessEnd, leavesOutput: bool)

  /** Whether the output file exists after the run: always after success, after a failed close
      when ffmpeg had begun writing it, never when the process could not be spawned. */
  predicate Wrote(run: Run) {
    run.end.Closed? && (run.end.code == Some(0) || run.leavesOutput)
  }

  /** `${code}`. */
  function CodeText(code: Option<nat>): string {
    match code
    case None => "null"
    case Some(n) => NatToString(n)
  }

  const ExitPrefix := "FFmpeg exited "

  /** How the promise settles. */
  function Settle(end: ProcessEnd, stderr: string): Outcome<string> {
    match end
    case SpawnError(message) => Fail(message)
    case Closed(code) =>
      if code == Some(0) then Pass
      else Fail(ExitPrefix + CodeText(code) + ": " + TakeLast(stderr, 500))
  }

  /** The promise resolves exactly on close code 0; a failed close reports the code and the last
      `min(500, |stderr|)` characters of stderr. */
  lemma SettleRules(end: ProcessEnd, stderr: string)
    ensures Settle(end, stderr).Pass? <==> end == Closed(Some(0))
    ensures end.Closed? && end.code != Some(0) ==>
      exists tail :: Settle(end, stderr) == Fail(ExitPrefix + CodeText(end.code) + ": " + tail)
        && |tail| == (if |stderr| < 500 then |stderr| else 500)
        && stderr == stderr[..|stderr| - |tail|] + tail
  {
    if end.Closed? && end.code != Some(0) {
      var tail := TakeLast(stderr, 500);
      assert stderr == stderr[..|stderr| - |tail|] + tail;
    }
  }

  /** The code text holds no `:`, so a failure message gives the exit code back. */
  lemma CodeTextNoColon(code: Option<nat>)
    ensures ':' !in CodeText(code)
  {
    if code.Some? {
      var t := CodeText(code);
      forall c | c in t ensures c != ':' {
        var i :| 0 <= i < |t| && t[i] == c;
        assert IsDigit(t[i]);
      }
    }
  }

  /** The code text starts with `n` exactly for the `null` code. */
  lemma CodeTextFirst(code: Option<nat>)
    ensures CodeText(code) != [] && (CodeText(code)[0] == 'n' <==> code.None?)
  {
    if code.Some? {
      assert IsDigit(CodeText(code)[0]);
    }
  }

  lemma CodeTextInjective(a: Option<nat>, b: Option<nat>)
    requires CodeText(a) == CodeText(b)
    ensures a == b
  {
    CodeTextFirst(a);
    CodeTextFirst(b);
    if a.Some? && b.Some? {
      NatToStringInjective(a.value, b.value);
    }
  }

  /** The text before the first `:` of `t + ": " + rest`, for a `t` without `:`, is `t`. */
  lemma BeforeColon(t: string, rest: string)
    requires ':' !in t
    ensures var m := t + ": " + rest; Span(m, NotColonChar) == |t| && m[..|t|] == t
  {
    assert forall c | c in t :: NotColonChar(c);
    assert t + ": " + rest == t + (": " + rest);
    SpanAppend(t, ": " + rest, NotColonChar);
    SpanIs(": " + rest, NotColonChar, 0);
  }

  /** The code text a failure message carries: what follows the prefix, up to the first `:`. */
  function CodeOfMessage(m: string): string {
    if |m| < |ExitPrefix| then [] else
      var r := m[|ExitPrefix|..];
      r[..Span(r, NotColonChar)]
  }

  /** A failed close's message gives back its code text. */
  lemma MessageGivesCode(code: Option<nat>, tail: string)
    ensures CodeOfMessage(ExitPrefix + CodeText(code) + ": " + tail) == CodeText(code)
  {
    var t := CodeText(code);
    var r := t + ": " + tail;
    assert ExitPrefix + t + ": " + tail == ExitPrefix + r;
    assert (ExitPrefix + r)[|ExitPrefix|..] == r;
    CodeTextNoColon(code);
    BeforeColon(t, tail);
  }

  /** Two failed closes with the same message ended with the same code. */
  lemma ExitMessageDeterminesCode(a: Option<nat>, b: Option<nat>, s1: string, s2: string)
    requires a != Some(0) && b != Some(0)
    requires Settle(Closed(a), s1) == Settle(Closed(b), s2)
    ensures a == b
  {
    MessageGivesCode(a, TakeLast(s1, 500));
    MessageGivesCode(b, TakeLast(s2, 500));
    CodeTextInjective(a, b);
  }

  predicate NotColonChar(c: char) { c != ':' }

  /** The `start`/`duration` options after their defaults. */
  datatype Options = Options(start: Option<nat>, duration: Option<nat>)

  function StartOf(o: Options): nat { o.start.GetOr(DefaultStart) }

  function DurationOf(o: Options): nat { o.duration.GetOr(DefaultDuration) }

  /** `convertToShort(inputPath, outputPath, options)`: spawns ffmpeg with `args`, collects its
      stderr, and settles; the output file exists afterwards when ffmpeg succeeded, or failed after it had started
      writing one. */
  method ConvertToShort(disk: Disk, input: string, output: string, options: Options, run: Run)
    returns (r: Outcome<string>, ghost args: seq<string>)
    modifies disk
    ensures args == Args(input, output, StartOf(options), DurationOf(options))
    ensures r == Settle(run.end, Concat(run.chunks))
    ensures r.Pass? <==> run.end == Closed(Some(0))
    ensures disk.files == old(disk.files) + (if Wrote(run) then {output} else {})
    ensures run.end.SpawnError? ==> disk.files == old(disk.files)
  {
    args := Args(input, output, StartOf(options), DurationOf(options));
    var stderr := CollectStderr(run.chunks);
    r := Settle(run.end, stderr);
    SettleRules(run.end, stderr);
    if Wrote(run) {
      disk.Create(output);
    }
  }
}
