/**
 One WebSocket conversation: the handler and the response pump run on their own
 goroutines and write to the same connection, each write under one mutex. A
 write is two steps here, so that a frame torn by another writer would show.
 The connection may fail in the middle of a write, and the handler closes it
 without taking the mutex.
 */
module VoiceRelay {
  import opened Wrappers

  datatype Metadata = Text(text: string) | Other

  datatype Chunk = Chunk(media: Option<seq<bv8>>, delta: string, metadata: map<string, Metadata>)

  const TRANSCRIPTION_KEY := "input_transcription"

  datatype OutFrame =
    | Ready
    | ErrorEvent(what: string)
    | Close(what: string)
    | Audio(data: seq<bv8>)
    | TextEvent(text: string)
    | Transcript(text: string)
    | Done

  datatype Side = Handler | Pump

  // ------------------------------------------------- what the pump has to say

  predicate HasTranscript(c: Chunk) {
    && TRANSCRIPTION_KEY in c.metadata && c.metadata[TRANSCRIPTION_KEY].Text?
    && c.metadata[TRANSCRIPTION_KEY].text != ""
  }

  /** A chunk's frames: audio, then text, then transcript, each only if it is not empty. */
  function ChunkFrames(c: Chunk): seq<OutFrame> {
    (if c.media.Some? && |c.media.value| > 0 then [Audio(c.media.value)] else []) +
    (if c.delta != "" then [TextEvent(c.delta)] else []) +
    (if HasTranscript(c) then [Transcript(c.metadata[TRANSCRIPTION_KEY].text)] else [])
  }

  function AllChunkFrames(chunks: seq<Chunk>): seq<OutFrame> {
    if chunks == [] then [] else AllChunkFrames(chunks[..|chunks| - 1]) + ChunkFrames(chunks[|chunks| - 1])
  }

  function PumpFrames(chunks: seq<Chunk>): seq<OutFrame> {
    AllChunkFrames(chunks) + [Done]
  }

  /** Where a frame of a chunk belongs. */
  function Rank(f: OutFrame): nat {
    match f
    case Audio(_) => 0
    case TextEvent(_) => 1
    case Transcript(_) => 2
    case _ => 3
  }

  /** A chunk's audio, text and transcript, each exactly if it has one that is not empty, in this order. */
  lemma ChunkFramesMean(c: Chunk)
    ensures
      var fs, key := ChunkFrames(c), "input_transcription";
      && (forall d :: Audio(d) in fs <==> c.media == Some(d) && d != [])
      && (forall t :: TextEvent(t) in fs <==> c.delta == t && t != "")
      && (forall t :: Transcript(t) in fs <==> key in c.metadata && c.metadata[key] == Text(t) && t != "")
      && (forall i :: 0 <= i < |fs| ==> Rank(fs[i]) < 3)
      && (forall i, j :: 0 <= i < j < |fs| ==> Rank(fs[i]) < Rank(fs[j]))
  {
  }

  lemma {:induction false} FramesInOrder(earlier: seq<Chunk>, later: seq<Chunk>)
    ensures AllChunkFrames(earlier + later) == AllChunkFrames(earlier) + AllChunkFrames(later)
  {
    hide ChunkFrames;
    if later == [] {
      assert earlier + later == earlier;
    } else {
      var n := |later| - 1;
      FramesInOrder(earlier, later[..n]);
      assert (earlier + later)[..|earlier + later| - 1] == earlier + later[..n];
    }
  }

  /** Chunks are relayed in order, a first one's frames before all others, and done comes at the very end. */
  lemma ChunksInOrder(c: Chunk, later: seq<Chunk>)
    ensures PumpFrames([]) == [Done]
    ensures PumpFrames([c] + later) == ChunkFrames(c) + PumpFrames(later)
  {
    hide ChunkFrames;
    FramesInOrder([c], later);
    assert [c][..0] == [];
    assert AllChunkFrames([c]) == ChunkFrames(c);
  }

  lemma NoChunks()
    ensures AllChunkFrames([]) == []
  {
  }

  lemma OneMoreChunk(chunks: seq<Chunk>, i: nat)
    requires i < |chunks|
    ensures AllChunkFrames(chunks[..i + 1]) == AllChunkFrames(chunks[..i]) + ChunkFrames(chunks[i])
  {
    assert chunks[..i + 1][..i] == chunks[..i];
  }

  /** pumpResponses, as the list of writes it makes. */
  method PumpResponses(responses: seq<Chunk>) returns (writes: seq<OutFrame>)
    ensures writes == PumpFrames(responses)
  {
    hide AllChunkFrames;
    writes := [];
    NoChunks();
    for i := 0 to |responses|
      invariant writes == AllChunkFrames(responses[..i])
    {
      var chunk := responses[i];
      OneMoreChunk(responses, i);
      if chunk.media.Some? && |chunk.media.value| > 0 {
        writes := writes + [Audio(chunk.media.value)];
      }
      if chunk.delta != "" {
        writes := writes + [TextEvent(chunk.delta)];
      }
      if TRANSCRIPTION_KEY in chunk.metadata {
        match chunk.metadata[TRANSCRIPTION_KEY]
        case Text(transcript) =>
          if transcript != "" {
            writes := writes + [Transcript(transcript)];
          }
        case Other =>
      }
    }
    assert responses[..|responses|] == responses;
    writes := writes + [Done];
  }

  // ------------------------------------------------- the two goroutines

  /** A call of write in progress: Half has put the frame's beginning on the wire. */
  datatype Writing = Idle | Locked | Half | Over

  /** The writes a goroutine has set out to make, and how far it is. */
  datatype Goroutine = Goroutine(plan: seq<OutFrame>, next: nat, writing: Writing) {
    predicate HasMore() { writing.Idle? && next < |plan| }
    predicate Resting() { writing.Idle? && next >= |plan| }
  }

  /** Where the handler is: opening, relaying the client's frames, on its way out, or gone. */
  datatype Stage = Opening | Serving | Leaving | Returned

  /** Half a frame on the wire. */
  datatype Piece = Begin(side: Side, frame: OutFrame) | End(side: Side, frame: OutFrame)

  datatype Session = Session(
    stage: Stage,
    handler: Goroutine,
    pump: Goroutine,
    mutex: Option<Side>,
    broken: bool,          // a write failed, or the connection was closed
    wire: seq<Piece>)
  {
    function Of(side: Side): Goroutine {
      if side == Handler then handler else pump
    }

    function With(side: Side, g: Goroutine): Session {
      if side == Handler then this.(handler := g) else this.(pump := g)
    }
  }

  const UNBORN := Goroutine([], 0, Idle)
  const START := Session(Opening, UNBORN, UNBORN, None, false, [])

  datatype Label =
    | Open
    | FailToOpen(what: string)     // the conversation, or its response stream
    | FailToRelay                  // the conversation refuses the client's audio
    | SocketEnds
    | CloseConnection
    | Lock(side: Side)
    | WriteFirst(side: Side)
    | WriteRest(side: Side)
    | WriteFails(side: Side)
    | Unlock(side: Side)

  /** The writes of fail. */
  function FailFrames(what: string): seq<OutFrame> {
    [ErrorEvent(what), Close(what)]
  }

  predicate Enabled(s: Session, l: Label) {
    match l
    case Open => s.stage.Opening?
    case FailToOpen(_) => s.stage.Opening?
    case FailToRelay => s.stage.Serving? && s.handler.Resting()
    case SocketEnds => s.stage.Serving? && s.handler.Resting()
    case CloseConnection => s.stage.Leaving? && s.handler.Resting()
    case Lock(side) => s.Of(side).HasMore() && s.mutex.None?
    case WriteFirst(side) => s.Of(side).writing.Locked? && s.Of(side).next < |s.Of(side).plan| && !s.broken
    case WriteRest(side) => s.Of(side).writing.Half? && s.Of(side).next < |s.Of(side).plan| && !s.broken
    case WriteFails(side) => s.Of(side).writing.Locked? || s.Of(side).writing.Half?
    case Unlock(side) => s.Of(side).writing.Over?
  }

  function Next(chunks: seq<Chunk>, s: Session, l: Label): Session
    requires Enabled(s, l)
  {
    match l
    case Open =>
      s.(stage := Serving, handler := Goroutine([Ready], 0, Idle), pump := Goroutine(PumpFrames(chunks), 0, Idle))
    case FailToOpen(what) => s.(stage := Leaving, handler := Goroutine(FailFrames(what), 0, Idle))
    case FailToRelay =>
      s.(stage := Leaving, handler := s.handler.(plan := s.handler.plan + FailFrames("send audio")))
    case SocketEnds => s.(stage := Leaving)
    case CloseConnection => s.(stage := Returned, broken := true)
    case Lock(side) => s.With(side, s.Of(side).(writing := Locked)).(mutex := Some(side))
    case WriteFirst(side) =>
      var g := s.Of(side);
      s.With(side, g.(writing := Half)).(wire := s.wire + [Begin(side, g.plan[g.next])])
    case WriteRest(side) =>
      var g := s.Of(side);
      s.With(side, g.(writing := Over)).(wire := s.wire + [End(side, g.plan[g.next])])
    case WriteFails(side) => s.With(side, s.Of(side).(writing := Over)).(broken := true)
    case Unlock(side) =>
      var g := s.Of(side);
      s.With(side, g.(next := g.next + 1, writing := Idle)).(mutex := None)
  }

  /** A schedule is a run when each of its steps is enabled in turn. */
  ghost predicate IsRun(chunks: seq<Chunk>, schedule: seq<Label>)
    decreases |schedule|, 0
  {
    schedule != [] ==>
      var earlier := schedule[..|schedule| - 1];
      IsRun(chunks, earlier) && Enabled(After(chunks, earlier), schedule[|schedule| - 1])
  }

  ghost function After(chunks: seq<Chunk>, schedule: seq<Label>): Session
    requires IsRun(chunks, schedule)
    decreases |schedule|, 1
  {
    if schedule == [] then START
    else Next(chunks, After(chunks, schedule[..|schedule| - 1]), schedule[|schedule| - 1])
  }

  // ------------------------------------------------- reading the wire

  /** Every frame is whole. */
  predicate Whole(wire: seq<Piece>) {
    wire == [] ||
    ( var n := |wire|;
      && n >= 2 && wire[n - 2].Begin? && wire[n - 1] == End(wire[n - 2].side, wire[n - 2].frame)
      && Whole(wire[..n - 2]))
  }

  /** Every frame is whole, but perhaps the last, of which only the beginning is there. */
  predicate Framed(wire: seq<Piece>) {
    Whole(wire) || (wire != [] && wire[|wire| - 1].Begin? && Whole(wire[..|wire| - 1]))
  }

  /** The frames begun, in order; of one side, or of both. */
  function Begun(wire: seq<Piece>, from: set<Side>): seq<OutFrame> {
    if wire == [] then []
    else
      var last := wire[|wire| - 1];
      Begun(wire[..|wire| - 1], from) + (if last.Begin? && last.side in from then [last.frame] else [])
  }

  /** The frames written in full, in order. */
  function Written(wire: seq<Piece>, from: set<Side>): seq<OutFrame> {
    if wire == [] then []
    else
      var last := wire[|wire| - 1];
      Written(wire[..|wire| - 1], from) + (if last.End? && last.side in from then [last.frame] else [])
  }

  // ------------------------------------------------- what every run keeps

  /** The frames a goroutine has begun to write, or failed to. */
  function Tried(g: Goroutine): seq<OutFrame> {
    var n := if g.writing.Half? || g.writing.Over? then g.next + 1 else g.next;
    if n <= |g.plan| then g.plan[..n] else g.plan
  }

  /** Nothing, ready alone, a failure alone, or ready and then a failure. */
  predicate IsHandlerPlan(plan: seq<OutFrame>) {
    || plan == []
    || plan == [Ready]
    || (|plan| == 2 && plan[0].ErrorEvent? && plan[1] == Close(plan[0].what))
    || (|plan| == 3 && plan[0] == Ready && plan[1].ErrorEvent? && plan[2] == Close(plan[1].what))
  }

  predicate InPlan(g: Goroutine) {
    g.next <= |g.plan| && (!g.writing.Idle? ==> g.next < |g.plan|)
  }

  ghost predicate PlansAreSound(chunks: seq<Chunk>, s: Session) {
    && IsHandlerPlan(s.handler.plan) && InPlan(s.handler) && InPlan(s.pump)
    && (s.stage.Opening? ==> s.handler == UNBORN && s.pump == UNBORN)
    && (s.stage.Serving? ==> s.handler.plan == [Ready])
    && (s.pump.plan == [] || s.pump.plan == PumpFrames(chunks))
    && (s.stage.Returned? ==> s.handler.Resting())
  }

  /** Who writes holds the mutex. */
  ghost predicate MutexIsSound(s: Session) {
    && (s.mutex == Some(Handler) <==> !s.handler.writing.Idle?)
    && (s.mutex == Some(Pump) <==> !s.pump.writing.Idle?)
  }

  /** The wire ends in the first half of this frame. */
  predicate HalfWay(wire: seq<Piece>, p: Piece) {
    wire != [] && wire[|wire| - 1] == p && Whole(wire[..|wire| - 1])
  }

  ghost predicate FramesAreSound(s: Session) {
    && Framed(s.wire)
    && (!s.broken ==>
          if s.handler.writing.Half? && InPlan(s.handler) then
            HalfWay(s.wire, Begin(Handler, s.handler.plan[s.handler.next]))
          else if s.pump.writing.Half? && InPlan(s.pump) then
            HalfWay(s.wire, Begin(Pump, s.pump.plan[s.pump.next]))
          else Whole(s.wire))
  }

  /** One side's frames on the wire are those it tried, as long as the connection held. */
  ghost predicate SideIsSound(s: Session, side: Side) {
    var begun, tried := Begun(s.wire, {side}), Tried(s.Of(side));
    begun <= tried && (!s.broken ==> begun == tried)
  }

  ghost predicate Sound(chunks: seq<Chunk>, s: Session) {
    && PlansAreSound(chunks, s) && MutexIsSound(s) && FramesAreSound(s)
    && SideIsSound(s, Handler) && SideIsSound(s, Pump)
  }

  lemma PlansKeep(chunks: seq<Chunk>, s: Session, l: Label)
    requires PlansAreSound(chunks, s) && MutexIsSound(s) && Enabled(s, l)
    ensures PlansAreSound(chunks, Next(chunks, s, l)) && MutexIsSound(Next(chunks, s, l))
  {
    hide PumpFrames;
  }

  lemma AddPiece(wire: seq<Piece>, p: Piece, from: set<Side>)
    ensures Begun(wire + [p], from) == Begun(wire, from) + (if p.Begin? && p.side in from then [p.frame] else [])
    ensures Written(wire + [p], from) == Written(wire, from) + (if p.End? && p.side in from then [p.frame] else [])
  {
    assert (wire + [p])[..|wire|] == wire;
  }

  lemma FramesKeep(chunks: seq<Chunk>, s: Session, l: Label)
    requires PlansAreSound(chunks, s) && MutexIsSound(s) && FramesAreSound(s) && Enabled(s, l)
    ensures FramesAreSound(Next(chunks, s, l))
  {
    hide PumpFrames, IsHandlerPlan, Whole;
    match l
    case WriteFirst(side) => WholeThenHalf(s.wire, Begin(side, s.Of(side).plan[s.Of(side).next]));
    case WriteRest(side) => HalfThenWhole(s.wire, side, s.Of(side).plan[s.Of(side).next]);
    case _ =>
  }

  lemma WholeThenHalf(wire: seq<Piece>, p: Piece)
    requires Whole(wire) && p.Begin?
    ensures HalfWay(wire + [p], p) && Framed(wire + [p])
  {
    assert (wire + [p])[..|wire|] == wire;
  }

  lemma HalfThenWhole(wire: seq<Piece>, side: Side, f: OutFrame)
    requires HalfWay(wire, Begin(side, f))
    ensures Whole(wire + [End(side, f)]) && Framed(wire + [End(side, f)])
  {
    var n := |wire|;
    assert (wire + [End(side, f)])[..n - 1] == wire[..n - 1];
  }

  /** Starting a frame adds the next of the plan. */
  lemma PlanGrows(g: Goroutine)
    requires g.next < |g.plan| && g.writing.Locked?
    ensures Tried(g.(writing := Half)) == Tried(g) + [g.plan[g.next]]
  {
  }

  lemma LongerPlan(g: Goroutine, more: seq<OutFrame>)
    requires InPlan(g) && g.writing.Idle?
    ensures Tried(g.(plan := g.plan + more)) == Tried(g)
  {
  }

  lemma WritingKeepsSide(chunks: seq<Chunk>, s: Session, l: Label, side: Side)
    requires PlansAreSound(chunks, s) && SideIsSound(s, side) && Enabled(s, l) && (l.WriteFirst? || l.WriteRest?)
    ensures SideIsSound(Next(chunks, s, l), side)
  {
    hide Begun, Tried, PlansAreSound, PumpFrames, FailFrames;
    var g := s.Of(l.side);
    match l
    case WriteFirst(writer) =>
      AddPiece(s.wire, Begin(writer, g.plan[g.next]), {side});
      PlanGrows(g);
    case WriteRest(writer) =>
      AddPiece(s.wire, End(writer, g.plan[g.next]), {side});
      SameTried(g);
  }

  lemma SameTried(g: Goroutine)
    requires g.writing.Half?
    ensures Tried(g.(writing := Over)) == Tried(g)
  {
  }

  lemma QuietStep(chunks: seq<Chunk>, s: Session, l: Label, side: Side)
    requires PlansAreSound(chunks, s) && Enabled(s, l) && !l.WriteFirst? && !l.WriteRest?
    ensures
      var s' := Next(chunks, s, l);
      && s'.wire == s.wire && (s.broken ==> s'.broken)
      && Tried(s.Of(side)) <= Tried(s'.Of(side))
      && (s'.broken || Tried(s.Of(side)) == Tried(s'.Of(side)))
  {
    hide PumpFrames, IsHandlerPlan, FailFrames;
    if l.FailToRelay? {
      LongerPlan(s.handler, FailFrames("send audio"));
    }
  }

  lemma SideKeeps(chunks: seq<Chunk>, s: Session, l: Label, side: Side)
    requires PlansAreSound(chunks, s) && SideIsSound(s, side) && Enabled(s, l)
    ensures SideIsSound(Next(chunks, s, l), side)
  {
    hide Begun, Tried, PlansAreSound, Next, Enabled;
    if l.WriteFirst? || l.WriteRest? {
      WritingKeepsSide(chunks, s, l, side);
    } else {
      QuietStep(chunks, s, l, side);
    }
  }

  lemma {:induction false} RunsAreSound(chunks: seq<Chunk>, schedule: seq<Label>)
    requires IsRun(chunks, schedule)
    ensures Sound(chunks, After(chunks, schedule))
  {
    hide PlansAreSound, MutexIsSound, FramesAreSound, SideIsSound, Enabled, Next;
    if schedule == [] {
      StartIsSound(chunks);
    } else {
      var earlier, l := schedule[..|schedule| - 1], schedule[|schedule| - 1];
      RunsAreSound(chunks, earlier);
      PlansKeep(chunks, After(chunks, earlier), l);
      FramesKeep(chunks, After(chunks, earlier), l);
      SideKeeps(chunks, After(chunks, earlier), l, Handler);
      SideKeeps(chunks, After(chunks, earlier), l, Pump);
    }
  }

  lemma StartIsSound(chunks: seq<Chunk>)
    ensures Sound(chunks, START)
  {
  }

  // ------------------------------------------------- frames are whole

  /** On a wire of whole frames, what is begun is written; a torn end loses only the last frame begun. */
  lemma {:induction false} WholeIsWritten(wire: seq<Piece>, from: set<Side>)
    requires Whole(wire)
    ensures Written(wire, from) == Begun(wire, from)
    decreases |wire|
  {
    var n := |wire|;
    if n >= 2 {
      WholeIsWritten(wire[..n - 2], from);
      assert wire[..n - 1][..n - 2] == wire[..n - 2];
    }
  }

  lemma FramedIsWritten(wire: seq<Piece>, from: set<Side>)
    requires Framed(wire)
    ensures Written(wire, from) <= Begun(wire, from)
  {
    hide Whole;
    if Whole(wire) {
      WholeIsWritten(wire, from);
    } else {
      WholeIsWritten(wire[..|wire| - 1], from);
    }
  }

  /**
   In every interleaving no frame is torn by the other writer: the wire is whole
   frames, and only a frame being written now, or one cut off by the connection
   itself, can be half there. At most one side writes at a time.
   */
  lemma FramesAreWhole(chunks: seq<Chunk>, schedule: seq<Label>)
    requires IsRun(chunks, schedule)
    ensures
      var s := After(chunks, schedule);
      && Framed(s.wire)
      && (s.handler.writing.Idle? || s.pump.writing.Idle?)
      && (!s.broken && !s.handler.writing.Half? && !s.pump.writing.Half? ==> Whole(s.wire))
  {
    hide Whole, Begun, PumpFrames, IsHandlerPlan;
    RunsAreSound(chunks, schedule);
  }

  lemma TriedIsPrefix(g: Goroutine)
    ensures Tried(g) <= g.plan
    ensures InPlan(g) && g.Resting() ==> Tried(g) == g.plan
  {
  }

  /** Half a frame of the other side changes nothing. */
  lemma OthersHalf(wire: seq<Piece>, p: Piece, from: set<Side>)
    requires HalfWay(wire, p) && p.Begin? && p.side !in from
    ensures Written(wire, from) == Begun(wire, from)
  {
    hide Whole;
    WholeIsWritten(wire[..|wire| - 1], from);
  }

  lemma {:induction false} NoControlFrames(chunks: seq<Chunk>)
    ensures forall f :: f in AllChunkFrames(chunks) ==> f != Done && f != Ready
  {
    if chunks != [] {
      NoControlFrames(chunks[..|chunks| - 1]);
    }
  }

  lemma DoneIsLast(chunks: seq<Chunk>, read: seq<OutFrame>)
    requires read <= PumpFrames(chunks)
    ensures Done in read <==> read == PumpFrames(chunks)
  {
    hide AllChunkFrames;
    NoControlFrames(chunks);
    var all := PumpFrames(chunks);
    assert all[|all| - 1] == Done;
    if |read| < |all| {
      forall i | 0 <= i < |read|
        ensures read[i] != Done
      {
        assert read[i] == all[i] && all[i] == AllChunkFrames(chunks)[i];
        assert all[i] in AllChunkFrames(chunks);
      }
    } else {
      assert read[|all| - 1] == Done;
    }
  }

  lemma SideIsWritten(chunks: seq<Chunk>, s: Session, side: Side)
    requires Sound(chunks, s)
    ensures Written(s.wire, {side}) <= s.Of(side).plan
    ensures !s.broken && s.Of(side).Resting() ==> Written(s.wire, {side}) == s.Of(side).plan
  {
    hide PumpFrames, Framed, IsHandlerPlan, Begun, Written, Whole, HalfWay, Tried;
    FramedIsWritten(s.wire, {side});
    TriedIsPrefix(s.Of(side));
    if !s.broken && s.Of(side).Resting() {
      if s.handler.writing.Half? {
        OthersHalf(s.wire, Begin(Handler, s.handler.plan[s.handler.next]), {side});
      } else if s.pump.writing.Half? {
        OthersHalf(s.wire, Begin(Pump, s.pump.plan[s.pump.next]), {side});
      } else {
        WholeIsWritten(s.wire, {side});
      }
    }
  }

  /**
   The wire restricted to the pump's frames is a prefix of its chunks' frames in
   order followed by done: nothing reordered, repeated or skipped before a
   failure. A client that reads done has read them all, and while the
   connection holds a pump that has finished has written them all.
   */
  lemma PumpIsInOrder(chunks: seq<Chunk>, schedule: seq<Label>)
    requires IsRun(chunks, schedule)
    ensures
      var s := After(chunks, schedule);
      var read := Written(s.wire, {Pump});
      && read <= PumpFrames(chunks)
      && (Done in read <==> read == PumpFrames(chunks))
      && (!s.broken && s.pump.plan != [] && s.pump.Resting() ==> read == PumpFrames(chunks))
  {
    hide PumpFrames, Written, IsRun, After;
    RunsAreSound(chunks, schedule);
    var s := After(chunks, schedule);
    SideIsWritten(chunks, s, Pump);
    DoneIsLast(chunks, Written(s.wire, {Pump}));
  }

  // ------------------------------------------------- what the handler sets out to say

  /** Where the handler's labels lead it. */
  ghost predicate HandlerFollows(schedule: seq<Label>, s: Session) {
    && (s.stage.Opening? <==> Open !in schedule && forall w :: FailToOpen(w) !in schedule)
    && (forall w :: FailToOpen(w) in schedule ==>
          s.handler.plan == [ErrorEvent(w), Close(w)] && !s.stage.Serving? && Open !in schedule
          && FailToRelay !in schedule && s.pump.plan == [])
    && (Open in schedule ==>
          s.handler.plan == if FailToRelay in schedule then [Ready, ErrorEvent("send audio"), Close("send audio")]
                            else [Ready])
    && (FailToRelay in schedule ==> Open in schedule && !s.stage.Serving?)
  }

  lemma FollowsOn(chunks: seq<Chunk>, earlier: seq<Label>, s: Session, l: Label)
    requires HandlerFollows(earlier, s) && PlansAreSound(chunks, s) && Enabled(s, l)
    ensures HandlerFollows(earlier + [l], Next(chunks, s, l))
  {
    hide PumpFrames, IsHandlerPlan;
    assert forall k :: k in earlier + [l] <==> k in earlier || k == l;
  }

  lemma {:induction false} HandlerFollowsSchedule(chunks: seq<Chunk>, schedule: seq<Label>)
    requires IsRun(chunks, schedule)
    ensures HandlerFollows(schedule, After(chunks, schedule))
  {
    hide HandlerFollows, PlansAreSound, MutexIsSound, FramesAreSound, SideIsSound, Next, Enabled;
    if schedule == [] {
      NothingSaid();
    } else {
      var earlier, l := schedule[..|schedule| - 1], schedule[|schedule| - 1];
      HandlerFollowsSchedule(chunks, earlier);
      RunsAreSound(chunks, earlier);
      FollowsOn(chunks, earlier, After(chunks, earlier), l);
      assert earlier + [l] == schedule;
    }
  }

  lemma NothingSaid()
    ensures HandlerFollows([], START)
  {
  }

  /**
   A failure is told: while the connection holds, a handler with nothing left to
   write has written, in this order, ready if the conversation opened, and after a
   failure to open or to relay an error naming it and then the close frame.
   */
  lemma FailureIsTold(chunks: seq<Chunk>, schedule: seq<Label>)
    requires IsRun(chunks, schedule)
    ensures
      var s := After(chunks, schedule);
      var told := Written(s.wire, {Handler});
      !s.broken && s.handler.Resting() && !s.stage.Opening? ==>
        && (forall w :: FailToOpen(w) in schedule ==> told == [ErrorEvent(w), Close(w)])
        && (Open in schedule && FailToRelay !in schedule ==> told == [Ready])
        && (FailToRelay in schedule ==> told == [Ready, ErrorEvent("send audio"), Close("send audio")])
  {
    hide Written, IsRun, After, PumpFrames, IsHandlerPlan, PlansAreSound, MutexIsSound, FramesAreSound, SideIsSound;
    RunsAreSound(chunks, schedule);
    HandlerFollowsSchedule(chunks, schedule);
    SideIsWritten(chunks, After(chunks, schedule), Handler);
  }

  // ------------------------------------------------- ready, once

  lemma {:induction false} BothSides(wire: seq<Piece>)
    ensures multiset(Written(wire, {Handler, Pump})) ==
            multiset(Written(wire, {Handler})) + multiset(Written(wire, {Pump}))
  {
    if wire != [] {
      BothSides(wire[..|wire| - 1]);
    }
  }

  /**
   Ready is sent at most once whatever the interleaving, and the handler's own
   frames are in order: ready first, and a close only right after its error.
   */
  lemma ReadyOnce(chunks: seq<Chunk>, schedule: seq<Label>)
    requires IsRun(chunks, schedule)
    ensures
      var s := After(chunks, schedule);
      && multiset(Written(s.wire, {Handler, Pump}))[Ready] <= 1
      && IsHandlerPlan(s.handler.plan) && Written(s.wire, {Handler}) <= s.handler.plan
  {
    hide PumpFrames, Written, IsRun, After, IsHandlerPlan;
    RunsAreSound(chunks, schedule);
    var s := After(chunks, schedule);
    SideIsWritten(chunks, s, Handler);
    SideIsWritten(chunks, s, Pump);
    BothSides(s.wire);
    OneReady(s.handler.plan, Written(s.wire, {Handler}));
    NoReadyFromPump(chunks, Written(s.wire, {Pump}));
  }

  lemma OneReady(plan: seq<OutFrame>, sent: seq<OutFrame>)
    requires IsHandlerPlan(plan) && sent <= plan
    ensures multiset(sent)[Ready] <= 1
  {
    if sent != [] {
      assert sent == [sent[0]] + sent[1..];
      assert Ready !in sent[1..];
    }
  }

  lemma NoReadyFromPump(chunks: seq<Chunk>, sent: seq<OutFrame>)
    requires sent <= PumpFrames(chunks)
    ensures multiset(sent)[Ready] == 0
  {
    hide AllChunkFrames;
    NoControlFrames(chunks);
    var all := PumpFrames(chunks);
    forall i | 0 <= i < |sent|
      ensures sent[i] != Ready
    {
      assert sent[i] == all[i];
      assert i < |all| - 1 ==> all[i] == AllChunkFrames(chunks)[i] && all[i] in AllChunkFrames(chunks);
    }
    assert Ready !in sent;
  }

  // ------------------------------------------------- progress

  predicate Finished(s: Session) {
    s.stage.Returned? && s.handler.Resting() && s.pump.Resting()
  }

  /** A step of one goroutine's write. */
  function PickWrite(s: Session, side: Side): Label {
    match s.Of(side).writing
    case Idle => Lock(side)
    case Over => Unlock(side)
    case Half => if s.broken then WriteFails(side) else WriteRest(side)
    case Locked => if s.broken then WriteFails(side) else WriteFirst(side)
  }

  function Pick(s: Session): Label {
    if !s.handler.writing.Idle? then PickWrite(s, Handler)
    else if !s.pump.writing.Idle? then PickWrite(s, Pump)
    else if s.handler.HasMore() then Lock(Handler)
    else if s.pump.HasMore() then Lock(Pump)
    else
      match s.stage
      case Opening => Open
      case Serving => SocketEnds
      case _ => CloseConnection
  }

  /** The mutex never deadlocks: until both goroutines are finished a step is enabled, and at the end it is free. */
  lemma NoDeadlock(chunks: seq<Chunk>, schedule: seq<Label>)
    requires IsRun(chunks, schedule)
    ensures
      var s := After(chunks, schedule);
      if Finished(s) then s.mutex.None? && forall l :: !Enabled(s, l) else Enabled(s, Pick(s))
  {
    hide PumpFrames, FramesAreSound, SideIsSound, IsRun, After, Enabled, Pick, Finished, PlansAreSound, MutexIsSound;
    RunsAreSound(chunks, schedule);
    SomeStep(chunks, After(chunks, schedule));
  }

  lemma SomeStep(chunks: seq<Chunk>, s: Session)
    requires PlansAreSound(chunks, s) && MutexIsSound(s)
    ensures if Finished(s) then s.mutex.None? && forall l :: !Enabled(s, l) else Enabled(s, Pick(s))
  {
    hide PumpFrames, IsHandlerPlan;
    assert s.mutex.Some? ==> s.mutex.value.Handler? || s.mutex.value.Pump?;
    if Finished(s) {
      forall l
        ensures !Enabled(s, l)
      {
      }
    }
  }

  function WriteWork(g: Goroutine): nat {
    var left := if g.next < |g.plan| then 4 * (|g.plan| - g.next) else 0;
    var done := match g.writing case Idle => 0 case Locked => 1 case Half => 2 case Over => 3;
    if left >= done then left - done else 0
  }

  /** Steps left at most. */
  function Work(chunks: seq<Chunk>, s: Session): nat {
    WriteWork(s.handler) + WriteWork(s.pump) +
    match s.stage
    case Opening => 4 * |PumpFrames(chunks)| + 15
    case Serving => 10
    case Leaving => 1
    case Returned => 0
  }

  lemma StepsUseWork(chunks: seq<Chunk>, s: Session, l: Label)
    requires PlansAreSound(chunks, s) && Enabled(s, l)
    ensures Work(chunks, Next(chunks, s, l)) < Work(chunks, s)
  {
    hide PumpFrames, IsHandlerPlan, WriteWork;
    assert |FailFrames("send audio")| == 2;
    match l
    case Open => PlanIsWork([Ready]); PlanIsWork(PumpFrames(chunks)); PlanIsWork([]);
    case FailToOpen(what) => PlanIsWork(FailFrames(what)); PlanIsWork([]);
    case FailToRelay => TwoMoreWrites(s.handler, FailFrames("send audio"));
    case Lock(side) => WriteUsesWork(s.Of(side));
    case WriteFirst(side) => WriteUsesWork(s.Of(side));
    case WriteRest(side) => WriteUsesWork(s.Of(side));
    case WriteFails(side) => WriteUsesWork(s.Of(side));
    case Unlock(side) => WriteUsesWork(s.Of(side));
    case _ =>
  }

  lemma PlanIsWork(plan: seq<OutFrame>)
    ensures WriteWork(Goroutine(plan, 0, Idle)) == 4 * |plan|
  {
  }

  lemma TwoMoreWrites(g: Goroutine, more: seq<OutFrame>)
    requires InPlan(g) && g.Resting() && |more| == 2
    ensures WriteWork(g) == 0 && WriteWork(g.(plan := g.plan + more)) == 8
  {
  }

  /** Each step of a write is one unit. */
  lemma WriteUsesWork(g: Goroutine)
    requires InPlan(g)
    ensures g.HasMore() ==> WriteWork(g.(writing := Locked)) < WriteWork(g)
    ensures g.writing.Locked? ==> WriteWork(g.(writing := Half)) < WriteWork(g)
    ensures g.writing.Locked? || g.writing.Half? ==> WriteWork(g.(writing := Over)) < WriteWork(g)
    ensures g.writing.Over? ==> WriteWork(g.(next := g.next + 1, writing := Idle)) < WriteWork(g)
  {
  }

  /** Every schedule is finite: four steps a frame, and fifteen more. */
  lemma {:induction false} RunsTerminate(chunks: seq<Chunk>, schedule: seq<Label>)
    requires IsRun(chunks, schedule)
    ensures |schedule| + Work(chunks, After(chunks, schedule)) <= 4 * |PumpFrames(chunks)| + 15
  {
    hide PlansAreSound, MutexIsSound, FramesAreSound, SideIsSound, Next, Enabled, PumpFrames;
    if schedule != [] {
      var earlier, l := schedule[..|schedule| - 1], schedule[|schedule| - 1];
      RunsTerminate(chunks, earlier);
      RunsAreSound(chunks, earlier);
      StepsUseWork(chunks, After(chunks, earlier), l);
    }
  }

  // ------------------------------------------------- ready need not be first

  function OneWrite(side: Side): seq<Label> {
    [Lock(side), WriteFirst(side), WriteRest(side), Unlock(side)]
  }

  function PumpFirst(n: nat): seq<Label> {
    if n == 0 then [Open] else PumpFirst(n - 1) + OneWrite(Pump)
  }

  lemma AddStep(chunks: seq<Chunk>, schedule: seq<Label>, l: Label)
    requires IsRun(chunks, schedule) && Enabled(After(chunks, schedule), l)
    ensures IsRun(chunks, schedule + [l]) && After(chunks, schedule + [l]) == Next(chunks, After(chunks, schedule), l)
  {
    assert (schedule + [l])[..|schedule|] == schedule;
  }

  lemma AddWrite(chunks: seq<Chunk>, schedule: seq<Label>, side: Side)
    requires IsRun(chunks, schedule)
    requires
      var s := After(chunks, schedule);
      s.Of(side).HasMore() && s.mutex.None? && !s.broken
    ensures IsRun(chunks, schedule + OneWrite(side))
    ensures
      var s := After(chunks, schedule);
      var g := s.Of(side);
      var f := g.plan[g.next];
      After(chunks, schedule + OneWrite(side)) ==
      s.With(side, g.(next := g.next + 1)).(wire := s.wire + [Begin(side, f), End(side, f)])
  {
    hide IsRun, After, PumpFrames;
    var s := After(chunks, schedule);
    var g := s.Of(side);
    var f := g.plan[g.next];
    AddStep(chunks, schedule, Lock(side));
    var s1 := schedule + [Lock(side)];
    AddStep(chunks, s1, WriteFirst(side));
    var s2 := s1 + [WriteFirst(side)];
    AddStep(chunks, s2, WriteRest(side));
    var s3 := s2 + [WriteRest(side)];
    AddStep(chunks, s3, Unlock(side));
    assert s3 + [Unlock(side)] == schedule + OneWrite(side);
    assert s.wire + [Begin(side, f)] + [End(side, f)] == s.wire + [Begin(side, f), End(side, f)];
  }

  lemma {:induction false} PumpRunsAhead(chunks: seq<Chunk>, n: nat)
    requires n <= |PumpFrames(chunks)|
    ensures IsRun(chunks, PumpFirst(n))
    ensures
      var s := After(chunks, PumpFirst(n));
      && s == Session(Serving, Goroutine([Ready], 0, Idle), Goroutine(PumpFrames(chunks), n, Idle), None, false, s.wire)
      && Written(s.wire, {Handler, Pump}) == PumpFrames(chunks)[..n]
  {
    hide PumpFrames, IsRun, After, Written;
    if n == 0 {
      OpenFirst(chunks);
    } else {
      PumpRunsAhead(chunks, n - 1);
      AddWrite(chunks, PumpFirst(n - 1), Pump);
      AddFrame(After(chunks, PumpFirst(n - 1)).wire, Pump, PumpFrames(chunks)[n - 1]);
    }
  }

  lemma OpenFirst(chunks: seq<Chunk>)
    ensures IsRun(chunks, [Open]) && After(chunks, [Open]) == Next(chunks, START, Open)
    ensures Written(After(chunks, [Open]).wire, {Handler, Pump}) == PumpFrames(chunks)[..0]
  {
    AddStep(chunks, [], Open);
    assert [] + [Open] == [Open];
  }

  lemma AddFrame(wire: seq<Piece>, side: Side, f: OutFrame)
    ensures Written(wire + [Begin(side, f), End(side, f)], {Handler, Pump}) == Written(wire, {Handler, Pump}) + [f]
  {
    hide Written, Begun;
    AddPiece(wire, Begin(side, f), {Handler, Pump});
    AddPiece(wire + [Begin(side, f)], End(side, f), {Handler, Pump});
    assert wire + [Begin(side, f)] + [End(side, f)] == wire + [Begin(side, f), End(side, f)];
  }

  /**
   Ready can come anywhere: for every number of the pump's frames, done
   included, there is a run in which the client reads exactly that many before
   ready.
   */
  lemma ReadyCanComeAnywhere(chunks: seq<Chunk>, n: nat)
    requires n <= |PumpFrames(chunks)|
    ensures
      var schedule := PumpFirst(n) + OneWrite(Handler);
      && IsRun(chunks, schedule)
      && Written(After(chunks, schedule).wire, {Handler, Pump}) == PumpFrames(chunks)[..n] + [Ready]
  {
    hide Written, IsRun, After, PumpFrames;
    PumpRunsAhead(chunks, n);
    AddWrite(chunks, PumpFirst(n), Handler);
    AddFrame(After(chunks, PumpFirst(n)).wire, Handler, Ready);
  }
}
