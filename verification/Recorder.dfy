/** The append-only trajectory recorder and its incremental flushes to JSONL files. */
module Recorder {
  import opened Options

  /** One recorded event; `content` stands for its type, actor and payload. */
  datatype Recorded = Recorded(sequence: nat, content: string)

  /** The JSON encoding of an event as one line. */
  type Encoding = Recorded -> string

  /** Which file a path leads to. Different paths, like an absolute and a relative one, may lead to the same file. */
  type Resolution = string -> string

  /** What a recorder counts its flushes by: the path it was given, not the file behind it. */
  datatype Writer = Writer(who: nat, path: string)

  /** One line of a file, and who wrote it: nobody, for the lines a file had before. */
  datatype Line = Line(text: string, owner: Option<Writer>)

  type Files = map<string, seq<Line>>

  function LinesOf(files: Files, file: string): seq<Line> {
    if file in files then files[file] else []
  }

  /** A recorder: its events, and how many of them have been written through each path. */
  datatype Log = Log(events: seq<Recorded>, flushed: map<string, nat>)

  const EMPTY: Log := Log([], map[])

  function FlushedTo(log: Log, path: string): nat {
    if path in log.flushed then log.flushed[path] else 0
  }

  predicate ValidLog(log: Log) {
    && (forall path | path in log.flushed :: log.flushed[path] <= |log.events|)
    && (forall i | 0 <= i < |log.events| :: log.events[i].sequence == i + 1)
  }

  function Appended(log: Log, content: string): Log {
    log.(events := log.events + [Recorded(|log.events| + 1, content)])
  }

  function Encoded(events: seq<Recorded>, encode: Encoding, owner: Writer): (lines: seq<Line>)
    ensures |lines| == |events|
    ensures forall i | 0 <= i < |events| :: lines[i] == Line(encode(events[i]), Some(owner))
  {
    seq(|events|, i requires 0 <= i < |events| => Line(encode(events[i]), Some(owner)))
  }

  lemma EncodedConcat(a: seq<Recorded>, b: seq<Recorded>, encode: Encoding, owner: Writer)
    ensures Encoded(a + b, encode, owner) == Encoded(a, encode, owner) + Encoded(b, encode, owner)
  {
  }

  class TrajectoryRecorder {
    const id: nat
    const encode: Encoding
    var events: seq<Recorded>
    var flushedCounts: map<string, nat>

    function State(): Log
      reads this
    {
      Log(events, flushedCounts)
    }

    constructor (id: nat, encode: Encoding)
      ensures State() == EMPTY && ValidLog(State()) && this.id == id && this.encode == encode
    {
      this.id, this.encode := id, encode;
      events, flushedCounts := [], map[];
    }

    /** Whatever sequence number the event came with, it gets the next one. */
    method Append(event: Recorded) returns (stored: Recorded)
      requires ValidLog(State())
      modifies this`events
      ensures State() == Appended(old(State()), event.content) && ValidLog(State())
      ensures events == old(events) + [Recorded(|old(events)| + 1, event.content)]
      ensures stored == events[|events| - 1]
    {
      stored := event.(sequence := |events| + 1);
      events := events + [stored];
    }

    /** Appends what this path has not been given yet to the file behind it, and remembers that the path has all. */
    method Flush(disk: Disk, path: string)
      requires ValidLog(State())
      modifies this`flushedCounts, disk
      ensures ValidLog(State()) && events == old(events)
      ensures flushedCounts == old(flushedCounts)[path := |events|]
      ensures var file := disk.resolve(path);
        disk.files == old(disk.files)[file := LinesOf(old(disk.files), file)
          + Encoded(events[FlushedTo(old(State()), path)..], encode, Writer(id, path))]
    {
      var start := if path in flushedCounts then flushedCounts[path] else 0;
      var pending := events[start..];
      disk.Open(path);
      WriteAll(disk, path, pending);
      flushedCounts := flushedCounts[path := |events|];
    }

    /** The loop over the pending events. */
    method WriteAll(disk: Disk, path: string, pending: seq<Recorded>)
      requires disk.resolve(path) in disk.files
      modifies disk
      ensures var file := disk.resolve(path);
        disk.files == old(disk.files)[file := old(disk.files)[file] + Encoded(pending, encode, Writer(id, path))]
    {
      ghost var file := disk.resolve(path);
      ghost var lines := disk.files[file];
      for i := 0 to |pending|
        invariant file in disk.files && disk.files[file] == lines + Encoded(pending[..i], encode, Writer(id, path))
        invariant disk.files == old(disk.files)[file := disk.files[file]]
      {
        EncodedConcat(pending[..i], [pending[i]], encode, Writer(id, path));
        assert pending[..i + 1] == pending[..i] + [pending[i]];
        disk.Write(path, Line(encode(pending[i]), Some(Writer(id, path))));
      }
      assert pending[..|pending|] == pending;
    }
  }

  /** Files opened in append mode. */
  class Disk {
    const resolve: Resolution
    var files: Files

    constructor (resolve: Resolution, files: Files)
      ensures this.resolve == resolve && this.files == files
    {
      this.resolve, this.files := resolve, files;
    }

    method Open(path: string)
      modifies this
      ensures resolve(path) in files && files == old(files)[resolve(path) := LinesOf(old(files), resolve(path))]
    {
      if resolve(path) !in files {
        files := files[resolve(path) := []];
      }
    }

    method Write(path: string, line: Line)
      requires resolve(path) in files
      modifies this
      ensures files == old(files)[resolve(path) := old(files)[resolve(path)] + [line]]
    {
      files := files[resolve(path) := files[resolve(path)] + [line]];
    }
  }

  // ---- Any number of recorders on any number of files ----

  datatype System = System(logs: seq<Log>, files: Files)

  /** How events are encoded, and where paths lead. */
  datatype Setting = Setting(encode: Encoding, resolve: Resolution)

  datatype Act = Append(who: nat, content: string) | Flush(who: nat, path: string)

  function Do(s: System, act: Act, env: Setting): System {
    if act.who >= |s.logs| then s
    else
      var log := s.logs[act.who];
      match act
      case Append(who, content) => s.(logs := s.logs[who := Appended(log, content)])
      case Flush(who, path) =>
        if FlushedTo(log, path) > |log.events| then s
        else
          var file := env.resolve(path);
          System(
            s.logs[who := log.(flushed := log.flushed[path := |log.events|])],
            s.files[file := LinesOf(s.files, file)
              + Encoded(log.events[FlushedTo(log, path)..], env.encode, Writer(who, path))])
  }

  /** A flush as one act does what the method does, with nothing pending too: the file is there afterwards. */
  lemma FlushDoes(s: System, who: nat, path: string, env: Setting)
    requires who < |s.logs| && ValidLog(s.logs[who])
    ensures var t, log, file := Do(s, Flush(who, path), env), s.logs[who], env.resolve(path);
      && t.logs == s.logs[who := Log(log.events, log.flushed[path := |log.events|])]
      && t.files == s.files[file := LinesOf(s.files, file) + Encoded(log.events[FlushedTo(log, path)..], env.encode, Writer(who, path))]
      && file in t.files
  {
  }

  function DoAll(s: System, acts: seq<Act>, env: Setting): System
    decreases |acts|
  {
    if acts == [] then s else DoAll(Do(s, acts[0], env), acts[1..], env)
  }

  /** The lines of one owner, in the order they stand in the file. */
  function OwnedBy(lines: seq<Line>, owner: Option<Writer>): seq<Line> {
    if lines == [] then []
    else OwnedBy(lines[..|lines| - 1], owner)
         + if lines[|lines| - 1].owner == owner then [lines[|lines| - 1]] else []
  }

  lemma {:induction false} OwnedByConcat(a: seq<Line>, b: seq<Line>, owner: Option<Writer>)
    ensures OwnedBy(a + b, owner) == OwnedBy(a, owner) + OwnedBy(b, owner)
  {
    if b == [] {
      assert a + b == a;
    } else {
      assert (a + b)[..|a + b| - 1] == a + b[..|b| - 1];
      OwnedByConcat(a, b[..|b| - 1], owner);
    }
  }

  lemma {:induction false} OwnedByAll(lines: seq<Line>, writer: Option<Writer>, owner: Option<Writer>)
    requires forall k | 0 <= k < |lines| :: lines[k].owner == writer
    ensures OwnedBy(lines, owner) == if owner == writer then lines else []
  {
    if lines != [] {
      var n := |lines| - 1;
      var front, last := lines[..n], lines[n];
      assert forall k | 0 <= k < n :: front[k] == lines[k];
      OwnedByAll(front, writer, owner);
      if owner == writer {
        assert OwnedBy(lines, owner) == front + [last] == lines;
      } else {
        assert OwnedBy(lines, owner) == [] + [];
      }
    }
  }

  function Counted(log: Log, path: string): nat {
    if FlushedTo(log, path) <= |log.events| then FlushedTo(log, path) else |log.events|
  }

  /** What recorder `i` wrote through one path stands in the file behind it: the first `flushed` events, in order. */
  predicate OwnExact(s: System, env: Setting, file: string, i: nat, path: string)
    requires i < |s.logs|
  {
    OwnedBy(LinesOf(s.files, file), Some(Writer(i, path)))
    == if env.resolve(path) == file then Encoded(s.logs[i].events[..Counted(s.logs[i], path)], env.encode, Writer(i, path))
       else []
  }

  /** The lines of a file that belong to no recorder are its original ones, and they stand at the front. */
  predicate OriginalExact(s: System, original: Files, file: string) {
    && LinesOf(original, file) <= LinesOf(s.files, file)
    && OwnedBy(LinesOf(s.files, file), None) == LinesOf(original, file)
  }

  ghost predicate Exact(s: System, env: Setting, original: Files) {
    && (forall i | 0 <= i < |s.logs| :: ValidLog(s.logs[i]))
    && (forall file, path, i | 0 <= i < |s.logs| :: OwnExact(s, env, file, i, path))
    && (forall file :: OriginalExact(s, original, file))
  }

  lemma PendingCompletes(log: Log, path: string, encode: Encoding, owner: Writer)
    requires FlushedTo(log, path) <= |log.events|
    ensures Encoded(log.events[..FlushedTo(log, path)], encode, owner) + Encoded(log.events[FlushedTo(log, path)..], encode, owner)
      == Encoded(log.events[..|log.events|], encode, owner)
  {
    var start := FlushedTo(log, path);
    assert log.events[..start] + log.events[start..] == log.events[..|log.events|];
    EncodedConcat(log.events[..start], log.events[start..], encode, owner);
  }

  /** What a flush adds to the lines of one owner. */
  lemma FlushAdds(s: System, who: nat, path: string, env: Setting, owner: Option<Writer>)
    requires who < |s.logs| && FlushedTo(s.logs[who], path) <= |s.logs[who].events|
    ensures var writer, file := Writer(who, path), env.resolve(path);
      OwnedBy(LinesOf(Do(s, Flush(who, path), env).files, file), owner)
      == OwnedBy(LinesOf(s.files, file), owner)
         + if owner == Some(writer) then Encoded(s.logs[who].events[FlushedTo(s.logs[who], path)..], env.encode, writer) else []
  {
    var writer := Writer(who, path);
    var pending := Encoded(s.logs[who].events[FlushedTo(s.logs[who], path)..], env.encode, writer);
    OwnedByConcat(LinesOf(s.files, env.resolve(path)), pending, owner);
    OwnedByAll(pending, Some(writer), owner);
  }

  lemma FlushInFile(s: System, who: nat, path: string, env: Setting, i: nat, q: string)
    requires who < |s.logs| && i < |s.logs| && ValidLog(s.logs[who]) && OwnExact(s, env, env.resolve(path), i, q)
    ensures OwnExact(Do(s, Flush(who, path), env), env, env.resolve(path), i, q)
  {
    assert FlushedTo(s.logs[who], path) <= |s.logs[who].events|;
    FlushAdds(s, who, path, env, Some(Writer(i, q)));
    var t := Do(s, Flush(who, path), env);
    if i == who && q == path {
      PendingCompletes(s.logs[who], path, env.encode, Writer(who, path));
    } else {
      assert Writer(i, q) != Writer(who, path);
      assert t.logs[i].events == s.logs[i].events && Counted(t.logs[i], q) == Counted(s.logs[i], q);
    }
  }

  lemma FlushElsewhere(s: System, who: nat, path: string, env: Setting, file: string, i: nat, q: string)
    requires who < |s.logs| && i < |s.logs| && file != env.resolve(path) && OwnExact(s, env, file, i, q)
    ensures OwnExact(Do(s, Flush(who, path), env), env, file, i, q)
  {
    var t := Do(s, Flush(who, path), env);
    assert LinesOf(t.files, file) == LinesOf(s.files, file);
    assert t.logs[i].events == s.logs[i].events;
    assert q != path ==> Counted(t.logs[i], q) == Counted(s.logs[i], q);
  }

  lemma FlushKeepsOriginal(s: System, who: nat, path: string, env: Setting, original: Files, file: string)
    requires who < |s.logs| && ValidLog(s.logs[who]) && OriginalExact(s, original, file)
    ensures OriginalExact(Do(s, Flush(who, path), env), original, file)
  {
    if file == env.resolve(path) {
      assert FlushedTo(s.logs[who], path) <= |s.logs[who].events|;
      FlushAdds(s, who, path, env, None);
    } else {
      assert LinesOf(Do(s, Flush(who, path), env).files, file) == LinesOf(s.files, file);
    }
  }

  lemma AppendKeepsOwn(s: System, who: nat, content: string, env: Setting, file: string, i: nat, q: string)
    requires who < |s.logs| && i < |s.logs| && ValidLog(s.logs[i]) && OwnExact(s, env, file, i, q)
    ensures OwnExact(Do(s, Append(who, content), env), env, file, i, q)
  {
    var t := Do(s, Append(who, content), env);
    assert FlushedTo(s.logs[i], q) <= |s.logs[i].events|;
    assert t.logs[i].events[..Counted(t.logs[i], q)] == s.logs[i].events[..Counted(s.logs[i], q)];
  }

  lemma ActKeepsLogs(s: System, act: Act, env: Setting)
    requires forall i | 0 <= i < |s.logs| :: ValidLog(s.logs[i])
    ensures var t := Do(s, act, env); |t.logs| == |s.logs| && forall i | 0 <= i < |t.logs| :: ValidLog(t.logs[i])
  {
  }

  lemma ActKeepsOwn(s: System, act: Act, env: Setting, file: string, i: nat, q: string)
    requires act.who < |s.logs| && i < |s.logs| && ValidLog(s.logs[i]) && ValidLog(s.logs[act.who])
    requires OwnExact(s, env, file, i, q)
    ensures OwnExact(Do(s, act, env), env, file, i, q)
  {
    match act
    case Append(who, content) => AppendKeepsOwn(s, who, content, env, file, i, q);
    case Flush(who, path) =>
      if env.resolve(path) == file {
        FlushInFile(s, who, path, env, i, q);
      } else {
        FlushElsewhere(s, who, path, env, file, i, q);
      }
  }

  lemma ActKeepsExact(s: System, act: Act, env: Setting, original: Files)
    requires Exact(s, env, original)
    ensures Exact(Do(s, act, env), env, original)
  {
    var t := Do(s, act, env);
    ActKeepsLogs(s, act, env);
    if act.who < |s.logs| {
      forall file, path, i | 0 <= i < |s.logs| ensures OwnExact(t, env, file, i, path) {
        assert OwnExact(s, env, file, i, path) && ValidLog(s.logs[i]) && ValidLog(s.logs[act.who]);
        ActKeepsOwn(s, act, env, file, i, path);
      }
      forall file ensures OriginalExact(t, original, file) {
        assert OriginalExact(s, original, file) && ValidLog(s.logs[act.who]);
        if act.Flush? {
          FlushKeepsOriginal(s, act.who, act.path, env, original, file);
        }
      }
    }
  }

  /**
   * In every interleaving of appends and flushes by any number of recorders through any paths,
   * each file holds its original content, and for each recorder and each path that leads to the
   * file exactly the prefix of events that the recorder had when it last flushed through that path.
   */
  lemma {:induction false} FlushesAreExact(s: System, acts: seq<Act>, env: Setting, original: Files)
    requires Exact(s, env, original)
    ensures Exact(DoAll(s, acts, env), env, original)
    decreases |acts|
  {
    if acts != [] {
      ActKeepsExact(s, acts[0], env, original);
      FlushesAreExact(Do(s, acts[0], env), acts[1..], env, original);
    }
  }

  /** Fresh recorders on any existing files are a place to start from. */
  lemma {:induction false} FreshIsExact(n: nat, files: Files, env: Setting)
    requires forall file | file in files :: forall k | 0 <= k < |files[file]| :: files[file][k].owner == None
    ensures Exact(System(seq(n, _ => EMPTY), files), env, files)
  {
    forall file, owner: Option<Writer>
      ensures OwnedBy(LinesOf(files, file), owner) == if owner == None then LinesOf(files, file) else []
    {
      OwnedByAll(LinesOf(files, file), None, owner);
    }
  }

  // ---- When no event is lost or doubled ----

  /** The lines of one recorder, through whatever paths. */
  function LinesBy(lines: seq<Line>, who: nat): seq<Line> {
    if lines == [] then []
    else
      var last := lines[|lines| - 1];
      LinesBy(lines[..|lines| - 1], who) + if last.owner.Some? && last.owner.value.who == who then [last] else []
  }

  lemma {:induction false} InLinesBy(lines: seq<Line>, who: nat, line: Line)
    ensures line in LinesBy(lines, who) <==> line in lines && line.owner.Some? && line.owner.value.who == who
  {
    if lines != [] {
      InLinesBy(lines[..|lines| - 1], who, line);
      assert lines == lines[..|lines| - 1] + [lines[|lines| - 1]];
    }
  }

  lemma {:induction false} InOwnedBy(lines: seq<Line>, owner: Option<Writer>, line: Line)
    ensures line in OwnedBy(lines, owner) <==> line in lines && line.owner == owner
  {
    if lines != [] {
      InOwnedBy(lines[..|lines| - 1], owner, line);
      assert lines == lines[..|lines| - 1] + [lines[|lines| - 1]];
    }
  }

  lemma {:induction false} OnlyWriter(lines: seq<Line>, who: nat, path: string)
    requires forall k | 0 <= k < |lines| && lines[k].owner.Some? && lines[k].owner.value.who == who ::
      lines[k].owner.value.path == path
    ensures LinesBy(lines, who) == OwnedBy(lines, Some(Writer(who, path)))
  {
    if lines != [] {
      OnlyWriter(lines[..|lines| - 1], who, path);
    }
  }

  function LineTexts(lines: seq<Line>): (texts: seq<string>)
    ensures |texts| == |lines| && forall k | 0 <= k < |lines| :: texts[k] == lines[k].text
  {
    seq(|lines|, k requires 0 <= k < |lines| => lines[k].text)
  }

  /** The path has been used: something was written through it. */
  predicate Used(s: System, env: Setting, file: string, i: nat, path: string)
    requires i < |s.logs|
  {
    env.resolve(path) == file && Counted(s.logs[i], path) > 0
  }

  /** The recorder has written to the file through at most one path. */
  ghost predicate OnePath(s: System, env: Setting, file: string, i: nat)
    requires i < |s.logs|
  {
    forall p, q | Used(s, env, file, i, p) && Used(s, env, file, i, q) :: p == q
  }

  /** The recorder's lines are its first `n` events, each once and in order. */
  predicate HoldsPrefix(s: System, env: Setting, file: string, i: nat, n: nat)
    requires i < |s.logs|
  {
    n <= |s.logs[i].events| && LineTexts(LinesBy(LinesOf(s.files, file), i)) == Texts(s.logs[i].events[..n], env.encode)
  }

  lemma UsedByLine(s: System, env: Setting, original: Files, file: string, i: nat, line: Line)
    requires Exact(s, env, original) && i < |s.logs|
    requires line in LinesOf(s.files, file) && line.owner.Some? && line.owner.value.who == i
    ensures Used(s, env, file, i, line.owner.value.path)
  {
    var path := line.owner.value.path;
    assert OwnExact(s, env, file, i, path);
    InOwnedBy(LinesOf(s.files, file), Some(Writer(i, path)), line);
  }

  lemma OnePathHoldsPrefix(s: System, env: Setting, original: Files, file: string, i: nat, path: string)
    requires Exact(s, env, original) && i < |s.logs|
    requires env.resolve(path) == file && forall p | Used(s, env, file, i, p) :: p == path
    ensures HoldsPrefix(s, env, file, i, Counted(s.logs[i], path))
  {
    var lines := LinesOf(s.files, file);
    forall k | 0 <= k < |lines| && lines[k].owner.Some? && lines[k].owner.value.who == i
      ensures lines[k].owner.value.path == path
    {
      UsedByLine(s, env, original, file, i, lines[k]);
    }
    OnlyWriter(lines, i, path);
    assert OwnExact(s, env, file, i, path);
  }

  lemma NoPathHoldsNothing(s: System, env: Setting, original: Files, file: string, i: nat)
    requires Exact(s, env, original) && i < |s.logs|
    requires forall p :: !Used(s, env, file, i, p)
    ensures HoldsPrefix(s, env, file, i, 0)
  {
    var own := LinesBy(LinesOf(s.files, file), i);
    if own != [] {
      InLinesBy(LinesOf(s.files, file), i, own[0]);
      UsedByLine(s, env, original, file, i, own[0]);
    }
  }

  /** Whatever a recorder wrote through a used path begins with its first event. */
  lemma FirstLineOf(s: System, env: Setting, original: Files, file: string, i: nat, path: string)
    requires Exact(s, env, original) && i < |s.logs| && Used(s, env, file, i, path)
    ensures Line(env.encode(s.logs[i].events[0]), Some(Writer(i, path))) in LinesBy(LinesOf(s.files, file), i)
  {
    var lines, writer := LinesOf(s.files, file), Writer(i, path);
    assert OwnExact(s, env, file, i, path);
    var line := Line(env.encode(s.logs[i].events[0]), Some(writer));
    assert OwnedBy(lines, Some(writer))[0] == line;
    InOwnedBy(lines, Some(writer), line);
    InLinesBy(lines, i, line);
  }

  ghost predicate InjectiveEncoding(encode: Encoding) {
    forall a, b :: encode(a) == encode(b) ==> a == b
  }

  /** Events carry their own numbers, so no two of them are written alike. */
  lemma TextsDistinct(log: Log, encode: Encoding, n: nat, a: nat, b: nat)
    requires ValidLog(log) && InjectiveEncoding(encode) && n <= |log.events| && a < n && b < n
    requires Texts(log.events[..n], encode)[a] == Texts(log.events[..n], encode)[b]
    ensures a == b
  {
    assert log.events[..n][a].sequence == a + 1 && log.events[..n][b].sequence == b + 1;
  }

  lemma TwoPathsHoldNoPrefix(s: System, env: Setting, original: Files, file: string, i: nat, p: string, q: string, n: nat)
    requires Exact(s, env, original) && i < |s.logs| && InjectiveEncoding(env.encode)
    requires Used(s, env, file, i, p) && Used(s, env, file, i, q) && p != q
    ensures !HoldsPrefix(s, env, file, i, n)
  {
    var own, events := LinesBy(LinesOf(s.files, file), i), s.logs[i].events;
    FirstLineOf(s, env, original, file, i, p);
    FirstLineOf(s, env, original, file, i, q);
    var a :| 0 <= a < |own| && own[a] == Line(env.encode(events[0]), Some(Writer(i, p)));
    var b :| 0 <= b < |own| && own[b] == Line(env.encode(events[0]), Some(Writer(i, q)));
    if HoldsPrefix(s, env, file, i, n) {
      TextsDistinct(s.logs[i], env.encode, n, a, b);
    }
  }

  /**
   * No event is lost, doubled or reordered if and only if the recorder has written to the file
   * through one path: then, and only then, its lines there are a prefix of its events.
   */
  lemma EachEventOnce(s: System, env: Setting, original: Files, file: string, i: nat)
    requires Exact(s, env, original) && i < |s.logs| && InjectiveEncoding(env.encode)
    ensures (exists n :: HoldsPrefix(s, env, file, i, n)) <==> OnePath(s, env, file, i)
  {
    if OnePath(s, env, file, i) {
      if path :| Used(s, env, file, i, path) {
        OnePathHoldsPrefix(s, env, original, file, i, path);
      } else {
        NoPathHoldsNothing(s, env, original, file, i);
      }
    } else {
      var p, q :| Used(s, env, file, i, p) && Used(s, env, file, i, q) && p != q;
      forall n ensures !HoldsPrefix(s, env, file, i, n) {
        TwoPathsHoldNoPrefix(s, env, original, file, i, p, q, n);
      }
    }
  }

  /** Two paths to one file double every event: the second flush writes them all once more. */
  lemma TwoPathsDouble(s: System, env: Setting, who: nat, p: string, q: string)
    requires who < |s.logs| && p != q && env.resolve(p) == env.resolve(q)
    requires FlushedTo(s.logs[who], p) == 0 && FlushedTo(s.logs[who], q) == 0
    ensures var file, events := env.resolve(p), s.logs[who].events;
      LinesOf(DoAll(s, [Flush(who, p), Flush(who, q)], env).files, file)
      == LinesOf(s.files, file) + Encoded(events, env.encode, Writer(who, p)) + Encoded(events, env.encode, Writer(who, q))
  {
    var acts, first := [Flush(who, p), Flush(who, q)], Do(s, Flush(who, p), env);
    assert acts[1..] == [Flush(who, q)] && acts[1..][1..] == [];
    assert s.logs[who].events[0..] == s.logs[who].events;
    assert first.logs[who].events == s.logs[who].events && FlushedTo(first.logs[who], q) == 0;
    assert DoAll(s, acts, env) == DoAll(first, acts[1..], env) == Do(first, Flush(who, q), env);
  }

  // ---- Loading ----

  /** Parsing and validating one line. */
  type Decoding = string -> Option<Recorded>

  datatype Loaded = Loaded(events: seq<Recorded>, errors: seq<nat>) | LoadError(line: nat)

  function GoodLines(lines: seq<string>, decode: Decoding): seq<Recorded> {
    if lines == [] then []
    else
      var last := decode(lines[|lines| - 1]);
      GoodLines(lines[..|lines| - 1], decode) + if last.Some? then [last.value] else []
  }

  /** The numbers, counted from 1, of the lines that are not valid events. */
  function BadLines(lines: seq<string>, decode: Decoding): seq<nat> {
    if lines == [] then []
    else BadLines(lines[..|lines| - 1], decode) + if decode(lines[|lines| - 1]).Some? then [] else [|lines|]
  }

  /** `load`: the first bad line is an error, or bad lines are skipped and their numbers kept. */
  method Load(lines: seq<string>, decode: Decoding, skipCorrupt: bool) returns (r: Loaded)
    ensures skipCorrupt || BadLines(lines, decode) == [] ==> r == Loaded(GoodLines(lines, decode), BadLines(lines, decode))
    ensures !skipCorrupt && BadLines(lines, decode) != [] ==> r == LoadError(BadLines(lines, decode)[0])
  {
    var events, errors := [], [];
    for i := 0 to |lines|
      invariant events == GoodLines(lines[..i], decode) && errors == BadLines(lines[..i], decode)
      invariant !skipCorrupt ==> errors == []
    {
      assert lines[..i + 1][..i] == lines[..i];
      var event := decode(lines[i]);
      if event.None? {
        if !skipCorrupt {
          FirstBad(lines, decode, i + 1);
          return LoadError(i + 1);
        }
        errors := errors + [i + 1];
      } else {
        events := events + [event.value];
      }
    }
    assert lines[..|lines|] == lines;
    r := Loaded(events, errors);
  }

  lemma {:induction false} FirstBad(lines: seq<string>, decode: Decoding, n: nat)
    requires n <= |lines| && BadLines(lines[..n], decode) != []
    ensures BadLines(lines, decode) != [] && BadLines(lines, decode)[0] == BadLines(lines[..n], decode)[0]
  {
    if n < |lines| {
      var shorter := lines[..|lines| - 1];
      assert shorter[..n] == lines[..n];
      FirstBad(shorter, decode, n);
    } else {
      assert lines[..n] == lines;
    }
  }

  function Texts(events: seq<Recorded>, encode: Encoding): (texts: seq<string>)
    ensures |texts| == |events|
    ensures forall i | 0 <= i < |events| :: texts[i] == encode(events[i])
  {
    seq(|events|, i requires 0 <= i < |events| => encode(events[i]))
  }

  /** Loading what was written gives the events back, in order and without errors. */
  lemma {:induction false} LoadOfEncoded(events: seq<Recorded>, encode: Encoding, decode: Decoding)
    requires forall e :: decode(encode(e)) == Some(e)
    ensures GoodLines(Texts(events, encode), decode) == events && BadLines(Texts(events, encode), decode) == []
  {
    if events != [] {
      var n := |events| - 1;
      LoadOfEncoded(events[..n], encode, decode);
      assert Texts(events, encode)[..n] == Texts(events[..n], encode);
      assert events == events[..n] + [events[n]];
    }
  }

  // ---- What a file gives back, in terms of what was done ----

  function Contents(events: seq<Recorded>): (contents: seq<string>)
    ensures |contents| == |events| && forall k | 0 <= k < |events| :: contents[k] == events[k].content
  {
    seq(|events|, k requires 0 <= k < |events| => events[k].content)
  }

  /** The contents that one recorder was given, in order. */
  function GivenTo(acts: seq<Act>, i: nat): seq<string> {
    if acts == [] then []
    else
      var last := acts[|acts| - 1];
      GivenTo(acts[..|acts| - 1], i) + if last.Append? && last.who == i then [last.content] else []
  }

  /** What one recorder had been given when it was last flushed through one path. */
  function GivenBefore(acts: seq<Act>, i: nat, path: string): seq<string> {
    if acts == [] then []
    else
      var last := acts[|acts| - 1];
      if last == Flush(i, path) then GivenTo(acts, i) else GivenBefore(acts[..|acts| - 1], i, path)
  }

  lemma {:induction false} DoAllNext(s: System, acts: seq<Act>, env: Setting)
    requires acts != []
    ensures DoAll(s, acts, env) == Do(DoAll(s, acts[..|acts| - 1], env), acts[|acts| - 1], env)
    decreases |acts|
  {
    if |acts| > 1 {
      DoAllNext(Do(s, acts[0], env), acts[1..], env);
      assert acts[1..][..|acts| - 2] == acts[..|acts| - 1][1..];
    }
  }

  lemma {:induction false} LogsStay(s: System, acts: seq<Act>, env: Setting)
    ensures |DoAll(s, acts, env).logs| == |s.logs|
    decreases |acts|
  {
    if acts != [] {
      LogsStay(Do(s, acts[0], env), acts[1..], env);
    }
  }

  /** A recorder holds what it held before and exactly what it was given since, in order, content and all. */
  lemma {:induction false} HoldsWhatWasGiven(s: System, acts: seq<Act>, env: Setting, i: nat)
    requires i < |s.logs|
    ensures i < |DoAll(s, acts, env).logs|
    ensures Contents(DoAll(s, acts, env).logs[i].events) == Contents(s.logs[i].events) + GivenTo(acts, i)
    decreases |acts|
  {
    LogsStay(s, acts, env);
    if acts == [] {
      assert Contents(s.logs[i].events) + [] == Contents(s.logs[i].events);
    } else {
      var n := |acts| - 1;
      var before, after := DoAll(s, acts[..n], env), DoAll(s, acts, env);
      HoldsWhatWasGiven(s, acts[..n], env, i);
      DoAllNext(s, acts, env);
      if acts[n].Append? && acts[n].who == i {
        assert Contents(after.logs[i].events) == Contents(before.logs[i].events) + [acts[n].content];
      } else {
        assert after.logs[i].events == before.logs[i].events;
      }
    }
  }

  lemma {:induction false} GivenIsPrefix(acts: seq<Act>, i: nat, path: string)
    ensures GivenBefore(acts, i, path) <= GivenTo(acts, i)
  {
    if acts != [] {
      GivenIsPrefix(acts[..|acts| - 1], i, path);
    }
  }

  /** From a fresh start, what counts as written through a path is what had been given by the last flush through it. */
  lemma {:induction false} CountedIsGiven(s: System, acts: seq<Act>, env: Setting, original: Files, i: nat, path: string)
    requires i < |s.logs| && s.logs[i] == EMPTY && Exact(s, env, original)
    ensures i < |DoAll(s, acts, env).logs|
    ensures Counted(DoAll(s, acts, env).logs[i], path) == |GivenBefore(acts, i, path)|
    decreases |acts|
  {
    LogsStay(s, acts, env);
    if acts != [] {
      var n := |acts| - 1;
      var before, after := DoAll(s, acts[..n], env), DoAll(s, acts, env);
      CountedIsGiven(s, acts[..n], env, original, i, path);
      FlushesAreExact(s, acts[..n], env, original);
      DoAllNext(s, acts, env);
      HoldsWhatWasGiven(s, acts[..n], env, i);
      HoldsWhatWasGiven(s, acts, env, i);
      assert ValidLog(before.logs[i]);
      if acts[n] == Flush(i, path) {
        assert FlushedTo(after.logs[i], path) == |before.logs[i].events| == |GivenTo(acts, i)|;
      } else {
        assert FlushedTo(after.logs[i], path) == FlushedTo(before.logs[i], path);
      }
    }
  }

  lemma ContentsOfPrefix(events: seq<Recorded>, n: nat)
    requires n <= |events|
    ensures Contents(events[..n]) == Contents(events)[..n]
  {
  }

  lemma {:induction false} OwnLinesLoad(s: System, env: Setting, decode: Decoding, i: nat, path: string)
    requires i < |s.logs| && ValidLog(s.logs[i]) && OwnExact(s, env, env.resolve(path), i, path)
    requires forall e :: decode(env.encode(e)) == Some(e)
    ensures var lines := OwnedBy(LinesOf(s.files, env.resolve(path)), Some(Writer(i, path)));
      var events := GoodLines(LineTexts(lines), decode);
      && BadLines(LineTexts(lines), decode) == []
      && events == s.logs[i].events[..Counted(s.logs[i], path)]
      && Contents(events) == Contents(s.logs[i].events)[..Counted(s.logs[i], path)]
      && forall k | 0 <= k < |events| :: events[k].sequence == k + 1
  {
    var n := Counted(s.logs[i], path);
    var lines := OwnedBy(LinesOf(s.files, env.resolve(path)), Some(Writer(i, path)));
    assert LineTexts(lines) == Texts(s.logs[i].events[..n], env.encode);
    LoadOfEncoded(s.logs[i].events[..n], env.encode, decode);
    ContentsOfPrefix(s.logs[i].events, n);
  }

  lemma OwnAfter(s: System, acts: seq<Act>, env: Setting, original: Files, i: nat, path: string)
    requires Exact(s, env, original) && i < |DoAll(s, acts, env).logs|
    ensures var t := DoAll(s, acts, env); ValidLog(t.logs[i]) && OwnExact(t, env, env.resolve(path), i, path)
  {
    FlushesAreExact(s, acts, env, original);
    assert OwnExact(DoAll(s, acts, env), env, env.resolve(path), i, path);
  }

  lemma {:induction false} FlushedIsGiven(s: System, acts: seq<Act>, env: Setting, original: Files, i: nat, path: string)
    requires i < |s.logs| && s.logs[i] == EMPTY && Exact(s, env, original)
    ensures i < |DoAll(s, acts, env).logs|
    ensures var log := DoAll(s, acts, env).logs[i]; Contents(log.events)[..Counted(log, path)] == GivenBefore(acts, i, path)
  {
    CountedIsGiven(s, acts, env, original, i, path);
    HoldsWhatWasGiven(s, acts, env, i);
    GivenIsPrefix(acts, i, path);
    assert Contents(s.logs[i].events) == [];
    assert [] + GivenTo(acts, i) == GivenTo(acts, i);
  }

  /**
   * What a file gives back. Fresh recorders, any existing files, any acts: the lines that a recorder
   * wrote to a file through one path load without errors, and what they give back is, in order and
   * numbered from 1, exactly what that recorder had been given when it was last flushed through that path.
   */
  lemma {:induction false} FileGivesBack(
    s: System, acts: seq<Act>, env: Setting, decode: Decoding, original: Files, i: nat, path: string)
    requires i < |s.logs| && s.logs[i] == EMPTY && Exact(s, env, original)
    requires forall e :: decode(env.encode(e)) == Some(e)
    ensures var lines := OwnedBy(LinesOf(DoAll(s, acts, env).files, env.resolve(path)), Some(Writer(i, path)));
      var events := GoodLines(LineTexts(lines), decode);
      && BadLines(LineTexts(lines), decode) == []
      && Contents(events) == GivenBefore(acts, i, path)
      && forall k | 0 <= k < |events| :: events[k].sequence == k + 1
  {
    FlushedIsGiven(s, acts, env, original, i, path);
    OwnAfter(s, acts, env, original, i, path);
    OwnLinesLoad(DoAll(s, acts, env), env, decode, i, path);
  }
}
