/**
 One streaming turn as two processes: the goroutine that reads the model's
 chunks and offers their text on an unbuffered channel, and the handler that
 writes what it receives. Cancellation may come at any moment. Every
 interleaving of their steps is a run.
 */
module StreamTurn {
  import opened Wrappers
  import opened SseWriter

  datatype Chunk = Chunk(err: Option<string>, isText: bool, text: string)

  const CANCELED := "context canceled"

  /** What the environment does: the conversation may fail to open, its stream is finite, writes may fail. */
  datatype Scenario = Scenario(openErr: Option<string>, chunks: seq<Chunk>, ok: Fates)

  // ------------------------------------------------- what the turn has to say

  /** Only non-empty text reaches the caller. */
  predicate Carries(c: Chunk) {
    c.err.None? && c.isText && c.text != ""
  }

  /** The texts before the first chunk error. */
  function TextsOf(chunks: seq<Chunk>): seq<string> {
    if chunks == [] then []
    else
      var earlier, c := chunks[..|chunks| - 1], chunks[|chunks| - 1];
      if ErrorOf(earlier).None? && Carries(c) then TextsOf(earlier) + [c.text] else TextsOf(earlier)
  }

  function ErrorOf(chunks: seq<Chunk>): Option<string> {
    if chunks == [] then None
    else
      var earlier := ErrorOf(chunks[..|chunks| - 1]);
      if earlier.Some? then earlier else chunks[|chunks| - 1].err
  }

  function TurnTexts(sc: Scenario): seq<string> {
    if sc.openErr.Some? then [] else TextsOf(sc.chunks)
  }

  function TurnError(sc: Scenario): Option<string> {
    if sc.openErr.Some? then sc.openErr else ErrorOf(sc.chunks)
  }

  // ------------------------------------------------- the processes

  datatype Producer =
    | Opening
    | Reading(next: nat)
    | Offering(next: nat)            // in the select, with chunk next-1's text
    | Closing(err: Option<string>)   // about to close the conversation
    | Reporting(err: Option<string>)
    | ClosingErrors
    | ClosingText
    | Exited

  datatype Consumer =
    | Receiving
    | Writing          // the last text received
    | AwaitingError
    | Finishing(err: Option<string>)
    | Returned

  datatype System = System(
    producer: Producer,
    consumer: Consumer,
    textClosed: bool,
    errBuffer: Option<string>,  // the error channel holds at most one
    errClosed: bool,
    cancelled: bool,
    open: bool,                 // the conversation is open
    received: seq<string>,
    seen: Option<string>,       // the error the consumer received
    wire: seq<Item>)

  const START := System(Opening, Receiving, false, None, false, false, false, [], None, [])

  datatype Label =
    | Open | Read | Transfer | GiveUp | CloseConversation | Report | CloseErrors | CloseText
    | Write | SeeClosed | ReceiveError | Finish
    | Cancel

  predicate Enabled(sc: Scenario, s: System, l: Label) {
    match l
    case Open => s.producer.Opening?
    case Read => s.producer.Reading?
    case Transfer => s.producer.Offering? && s.consumer.Receiving?
    case GiveUp => s.producer.Offering? && s.cancelled
    case CloseConversation => s.producer.Closing?
    case Report => s.producer.Reporting? && (s.producer.err.Some? ==> s.errBuffer.None?)
    case CloseErrors => s.producer.ClosingErrors?
    case CloseText => s.producer.ClosingText?
    case Write => s.consumer.Writing?
    case SeeClosed => s.consumer.Receiving? && s.textClosed
    case ReceiveError => s.consumer.AwaitingError? && (s.errBuffer.Some? || s.errClosed)
    case Finish => s.consumer.Finishing?
    case Cancel => !s.cancelled
  }

  /** Where reading one more chunk leads. */
  function AfterRead(sc: Scenario, next: nat): Producer {
    if next >= |sc.chunks| then Closing(None)
    else
      var c := sc.chunks[next];
      if c.err.Some? then Closing(c.err)
      else if !c.isText || c.text == "" then Reading(next + 1)
      else Offering(next + 1)
  }

  function OfferedText(sc: Scenario, s: System): string {
    if s.producer.Offering? && 0 < s.producer.next <= |sc.chunks| then sc.chunks[s.producer.next - 1].text else ""
  }

  function Next(sc: Scenario, s: System, l: Label): System
    requires Enabled(sc, s, l)
  {
    match l
    case Open =>
      if sc.openErr.Some? then s.(producer := Reporting(sc.openErr)) else s.(producer := Reading(0), open := true)
    case Read => s.(producer := AfterRead(sc, s.producer.next))
    case Transfer =>
      s.(producer := Reading(s.producer.next), consumer := Writing, received := s.received + [OfferedText(sc, s)])
    case GiveUp => s.(producer := Closing(Some(CANCELED)))
    case CloseConversation => s.(producer := Reporting(s.producer.err), open := false)
    case Report =>
      s.(producer := ClosingErrors, errBuffer := if s.producer.err.Some? then s.producer.err else s.errBuffer)
    case CloseErrors => s.(producer := ClosingText, errClosed := true)
    case CloseText => s.(producer := Exited, textClosed := true)
    case Write =>
      var n := |s.received| - 1;
      var header := if n <= 0 then [Header] else [];
      if n >= 0 && sc.ok(n) then
        s.(consumer := Receiving, wire := s.wire + header + [Frame(Delta(s.received[n]))])
      else s.(consumer := Returned, wire := s.wire + header)
    case SeeClosed => s.(consumer := AwaitingError)
    case ReceiveError => s.(consumer := Finishing(s.errBuffer), errBuffer := None, seen := s.errBuffer)
    case Finish =>
      var e, n := s.consumer.err, |s.received|;
      if n == 0 && e.Some? then s.(consumer := Returned, wire := s.wire + [ErrorStatus(e.value)])
      else
        s.(consumer := Returned,
           wire := s.wire + (if n == 0 then [Header] else []) + Ending(e, sc.ok, n))
    case Cancel => s.(cancelled := true)
  }

  /** A schedule is a run when each of its steps is enabled in turn. */
  ghost predicate IsRun(sc: Scenario, schedule: seq<Label>)
    decreases |schedule|, 0
  {
    schedule != [] ==>
      var earlier := schedule[..|schedule| - 1];
      IsRun(sc, earlier) && Enabled(sc, After(sc, earlier), schedule[|schedule| - 1])
  }

  ghost function After(sc: Scenario, schedule: seq<Label>): System
    requires IsRun(sc, schedule)
    decreases |schedule|, 1
  {
    if schedule == [] then START
    else Next(sc, After(sc, schedule[..|schedule| - 1]), schedule[|schedule| - 1])
  }

  // ------------------------------------------------- what every run keeps

  /** How far the producer has read, and with what outcome. */
  ghost predicate ProducerIsSound(sc: Scenario, s: System) {
    match s.producer
    case Opening => s.received == [] && !s.open
    case Reading(n) =>
      && n <= |sc.chunks| && sc.openErr.None? && s.open
      && s.received == TextsOf(sc.chunks[..n]) && ErrorOf(sc.chunks[..n]).None?
    case Offering(n) =>
      && 0 < n <= |sc.chunks| && sc.openErr.None? && s.open
      && s.received == TextsOf(sc.chunks[..n - 1]) && ErrorOf(sc.chunks[..n]).None? && Carries(sc.chunks[n - 1])
    case Closing(err) => s.open && Explains(sc, s.received, err, s.cancelled)
    case Reporting(err) => !s.open && Explains(sc, s.received, err, s.cancelled)
    case _ => !s.open
  }

  /** The turn ended by itself with this error and these texts, or was cut short by cancellation. */
  ghost predicate Explains(sc: Scenario, received: seq<string>, err: Option<string>, cancelled: bool) {
    || (received == TurnTexts(sc) && err == TurnError(sc))
    || (cancelled && err == Some(CANCELED) && received < TurnTexts(sc))
  }

  /** The error the goroutine ended with, while it is on its way to the consumer. */
  function Settled(s: System): Option<string> {
    if s.errBuffer.Some? then s.errBuffer else s.seen
  }

  ghost predicate ChannelsAreSound(sc: Scenario, s: System) {
    && (s.textClosed <==> s.producer.Exited?)
    && (s.errClosed <==> s.producer.ClosingText? || s.producer.Exited?)
    && (s.producer.ClosingErrors? || s.errClosed ==> Explains(sc, s.received, Settled(s), s.cancelled))
    && (!s.producer.ClosingErrors? && !s.errClosed ==> s.errBuffer.None?)
    && (s.seen.Some? ==> s.textClosed && s.errBuffer.None?)
  }

  ghost predicate ConsumerIsSound(sc: Scenario, s: System) {
    var n := |s.received|;
    match s.consumer
    case Receiving => FirstFailure(sc.ok, n) == n && s.wire == Started(s.received) && s.seen.None?
    case Writing =>
      && n > 0 && FirstFailure(sc.ok, n - 1) == n - 1 && s.wire == Started(s.received[..n - 1])
      && s.seen.None?
    case AwaitingError => FirstFailure(sc.ok, n) == n && s.wire == Started(s.received) && s.textClosed && s.seen.None?
    case Finishing(err) =>
      && FirstFailure(sc.ok, n) == n && s.wire == Started(s.received) && s.textClosed
      && err == s.seen && s.errBuffer.None?
    case Returned =>
      && s.wire == Output(s.received, s.seen, sc.ok)
      && (FirstFailure(sc.ok, n) == n ==> s.textClosed && s.errBuffer.None?)
  }

  ghost predicate Sound(sc: Scenario, s: System) {
    ProducerIsSound(sc, s) && ChannelsAreSound(sc, s) && ConsumerIsSound(sc, s)
  }

  // ------------------------------------------------- chunks

  lemma ReadOne(chunks: seq<Chunk>, n: nat)
    requires n < |chunks|
    ensures ErrorOf(chunks[..n + 1]) == if ErrorOf(chunks[..n]).Some? then ErrorOf(chunks[..n]) else chunks[n].err
    ensures TextsOf(chunks[..n + 1]) ==
            var c := chunks[n];
            if ErrorOf(chunks[..n]).None? && c.err.None? && c.isText && c.text != "" then TextsOf(chunks[..n]) + [c.text]
            else TextsOf(chunks[..n])
  {
    assert chunks[..n + 1][..n] == chunks[..n];
  }

  /** The non-empty texts of the text chunks, in order. */
  function Spoken(chunks: seq<Chunk>): seq<string> {
    if chunks == [] then []
    else (if chunks[0].isText && chunks[0].text != "" then [chunks[0].text] else []) + Spoken(chunks[1..])
  }

  lemma {:induction false} SpokenOn(chunks: seq<Chunk>, c: Chunk)
    ensures Spoken(chunks + [c]) == Spoken(chunks) + if c.isText && c.text != "" then [c.text] else []
  {
    if chunks == [] {
      assert [] + [c] == [c] && [c][1..] == [];
    } else {
      SpokenOn(chunks[1..], c);
      assert (chunks + [c])[1..] == chunks[1..] + [c];
    }
  }

  /** Up to and without its first error a turn says all its texts, and then that error, if there is one, ends it. */
  lemma {:induction false} TurnMeans(chunks: seq<Chunk>, k: nat)
    requires k <= |chunks| && (forall i :: 0 <= i < k ==> chunks[i].err.None?)
    requires k < |chunks| ==> chunks[k].err.Some?
    ensures TextsOf(chunks) == Spoken(chunks[..k])
    ensures ErrorOf(chunks) == if k < |chunks| then chunks[k].err else None
  {
    if chunks != [] {
      var n := |chunks| - 1;
      var earlier := chunks[..n];
      if k <= n {
        TurnMeans(earlier, k);
        assert earlier[..k] == chunks[..k];
      } else {
        TurnMeans(earlier, n);
        SpokenOn(earlier, chunks[n]);
        assert earlier[..n] == earlier && chunks[..k] == chunks == earlier + [chunks[n]];
      }
    }
  }

  /** What is read first stays; after an error nothing is added. */
  lemma {:induction false} PrefixOfTurn(chunks: seq<Chunk>, n: nat)
    requires n <= |chunks|
    ensures TextsOf(chunks[..n]) <= TextsOf(chunks)
    ensures ErrorOf(chunks[..n]).Some? ==>
              TextsOf(chunks) == TextsOf(chunks[..n]) && ErrorOf(chunks) == ErrorOf(chunks[..n])
    decreases |chunks| - n
  {
    if n == |chunks| {
      assert chunks[..n] == chunks;
    } else {
      ReadOne(chunks, n);
      PrefixOfTurn(chunks, n + 1);
    }
  }

  // ------------------------------------------------- one step

  lemma ReadKeeps(sc: Scenario, s: System)
    requires ProducerIsSound(sc, s) && s.producer.Reading?
    ensures ProducerIsSound(sc, Next(sc, s, Read))
  {
    var n := s.producer.next;
    if n < |sc.chunks| {
      ReadOne(sc.chunks, n);
      PrefixOfTurn(sc.chunks, n + 1);
    } else {
      assert sc.chunks[..n] == sc.chunks;
    }
  }

  lemma GiveUpKeeps(sc: Scenario, s: System)
    requires ProducerIsSound(sc, s) && s.producer.Offering? && s.cancelled
    ensures ProducerIsSound(sc, Next(sc, s, GiveUp))
  {
    var n := s.producer.next;
    ReadOne(sc.chunks, n - 1);
    PrefixOfTurn(sc.chunks, n);
  }

  lemma TransferKeeps(sc: Scenario, s: System)
    requires ProducerIsSound(sc, s) && Enabled(sc, s, Transfer)
    ensures ProducerIsSound(sc, Next(sc, s, Transfer))
  {
    var n := s.producer.next;
    ReadOne(sc.chunks, n - 1);
  }

  lemma ProducerKeeps(sc: Scenario, s: System, l: Label)
    requires ProducerIsSound(sc, s) && Enabled(sc, s, l)
    ensures ProducerIsSound(sc, Next(sc, s, l))
  {
    hide TextsOf, ErrorOf;
    match l
    case Read => ReadKeeps(sc, s);
    case GiveUp => GiveUpKeeps(sc, s);
    case Transfer => TransferKeeps(sc, s);
    case Open =>
      assert TextsOf(sc.chunks[..0]) == [] && ErrorOf(sc.chunks[..0]).None? by { NothingRead(sc.chunks); }
    case _ =>
  }

  lemma NothingRead(chunks: seq<Chunk>)
    ensures TextsOf(chunks[..0]) == [] && ErrorOf(chunks[..0]).None?
  {
  }

  lemma ChannelsKeep(sc: Scenario, s: System, l: Label)
    requires Sound(sc, s) && Enabled(sc, s, l)
    ensures ChannelsAreSound(sc, Next(sc, s, l))
  {
    hide TextsOf, ErrorOf, FirstFailure, Output, Frames;
  }

  lemma WriteKeeps(sc: Scenario, s: System)
    requires ConsumerIsSound(sc, s) && s.consumer.Writing?
    ensures ConsumerIsSound(sc, Next(sc, s, Write))
  {
    var n := |s.received| - 1;
    OneMoreFrame(s.received, n);
    assert s.received[..n + 1] == s.received;
    if !sc.ok(n) {
      CutShort(s.received, s.seen, sc.ok, n);
    }
  }

  lemma FinishKeeps(sc: Scenario, s: System)
    requires ConsumerIsSound(sc, s) && s.consumer.Finishing?
    ensures ConsumerIsSound(sc, Next(sc, s, Finish))
  {
    NoFrames();
  }

  lemma ConsumerKeeps(sc: Scenario, s: System, l: Label)
    requires Sound(sc, s) && Enabled(sc, s, l)
    ensures ConsumerIsSound(sc, Next(sc, s, l))
  {
    hide TextsOf, ErrorOf, FirstFailure, Output, Frames, ProducerIsSound, Explains;
    match l
    case Write => WriteKeeps(sc, s);
    case Finish => FinishKeeps(sc, s);
    case Transfer =>
      assert (s.received + [OfferedText(sc, s)])[..|s.received|] == s.received;
    case _ =>
  }

  lemma {:induction false} RunsAreSound(sc: Scenario, schedule: seq<Label>)
    requires IsRun(sc, schedule)
    ensures Sound(sc, After(sc, schedule))
  {
    hide ProducerIsSound, ChannelsAreSound, ConsumerIsSound, Enabled, Next;
    if schedule == [] {
      StartIsSound(sc);
    } else {
      var earlier, l := schedule[..|schedule| - 1], schedule[|schedule| - 1];
      RunsAreSound(sc, earlier);
      ProducerKeeps(sc, After(sc, earlier), l);
      ChannelsKeep(sc, After(sc, earlier), l);
      ConsumerKeeps(sc, After(sc, earlier), l);
    }
  }

  lemma StartIsSound(sc: Scenario)
    ensures Sound(sc, START)
  {
  }

  // ------------------------------------------------- safety of the channels

  /**
   In every interleaving: nothing is ever sent on or closed twice through a
   closed channel, the error channel always has room for the one error it
   carries, and once the text channel is closed the error channel is settled
   and the conversation closed, so the consumer's last receive cannot block.
   */
  lemma ChannelSafety(sc: Scenario, schedule: seq<Label>)
    requires IsRun(sc, schedule)
    ensures
      var s := After(sc, schedule);
      && (s.producer.Offering? ==> !s.textClosed)
      && (s.producer.Reporting? ==> !s.errClosed && s.errBuffer.None?)
      && (s.producer.ClosingErrors? ==> !s.errClosed)
      && (s.producer.ClosingText? ==> !s.textClosed)
      && (s.textClosed ==> s.errClosed && !s.open)
      && (s.consumer.AwaitingError? ==> Enabled(sc, s, ReceiveError))
  {
    hide Explains, TextsOf, ErrorOf, Output, Frames, FirstFailure;
    RunsAreSound(sc, schedule);
  }

  predicate Finished(s: System) {
    s.producer.Exited? && s.consumer.Returned?
  }

  /** A step that can be taken next; Cancel only when nothing else can. */
  function Pick(s: System): Label {
    match s.consumer
    case Writing => Write
    case AwaitingError => ReceiveError
    case Finishing(_) => Finish
    case _ =>
      match s.producer
      case Opening => Open
      case Reading(_) => Read
      case Offering(_) => if s.consumer.Receiving? then Transfer else if s.cancelled then GiveUp else Cancel
      case Closing(_) => CloseConversation
      case Reporting(_) => Report
      case ClosingErrors => CloseErrors
      case ClosingText => CloseText
      case Exited => SeeClosed
  }

  /**
   No deadlock: until both sides are finished some step is enabled, and it need
   not be a cancellation unless the handler has returned early while a text is
   still on offer. That state, and no other, waits for the cancellation a server
   issues when its handler returns.
   */
  lemma NoDeadlock(sc: Scenario, schedule: seq<Label>)
    requires IsRun(sc, schedule)
    ensures
      var s := After(sc, schedule);
      !Finished(s) ==>
        && Enabled(sc, s, Pick(s))
        && (Pick(s).Cancel? <==> s.producer.Offering? && s.consumer.Returned? && !s.cancelled)
        && (Pick(s).Cancel? ==> forall l :: Enabled(sc, s, l) ==> l.Cancel?)
  {
    hide ProducerIsSound, ChannelsAreSound, ConsumerIsSound, IsRun, After;
    ChannelSafety(sc, schedule);
    ExitedExactly(sc, schedule);
  }

  lemma ExitedExactly(sc: Scenario, schedule: seq<Label>)
    requires IsRun(sc, schedule)
    ensures After(sc, schedule).textClosed <==> After(sc, schedule).producer.Exited?
  {
    hide Explains, ProducerIsSound, ConsumerIsSound;
    RunsAreSound(sc, schedule);
  }

  // ------------------------------------------------- termination

  function ProducerWork(sc: Scenario, p: Producer): nat {
    match p
    case Opening => 4 * |sc.chunks| + 8
    case Reading(n) => if n <= |sc.chunks| then 4 * (|sc.chunks| - n) + 6 else 6
    case Offering(n) => if n <= |sc.chunks| then 4 * (|sc.chunks| - n) + 8 else 8
    case Closing(_) => 4
    case Reporting(_) => 3
    case ClosingErrors => 2
    case ClosingText => 1
    case Exited => 0
  }

  function ConsumerWork(c: Consumer): nat {
    match c
    case Writing => 4
    case Receiving => 3
    case AwaitingError => 2
    case Finishing(_) => 1
    case Returned => 0
  }

  /** Steps left at most. */
  function Work(sc: Scenario, s: System): nat {
    ProducerWork(sc, s.producer) + ConsumerWork(s.consumer) + (if s.cancelled then 0 else 1)
  }

  lemma StepsUseWork(sc: Scenario, s: System, l: Label)
    requires Sound(sc, s) && Enabled(sc, s, l)
    ensures Work(sc, Next(sc, s, l)) < Work(sc, s)
  {
    hide Explains, TextsOf, ErrorOf, Output, Frames, FirstFailure, ChannelsAreSound, ConsumerIsSound, Started, Carries;
  }

  /** Every schedule is finite: no run is longer than four steps a chunk and twelve more. */
  lemma {:induction false} RunsTerminate(sc: Scenario, schedule: seq<Label>)
    requires IsRun(sc, schedule)
    ensures |schedule| + Work(sc, After(sc, schedule)) <= Work(sc, START)
    ensures |schedule| <= 4 * |sc.chunks| + 12
  {
    hide Sound, Next, Enabled;
    if schedule != [] {
      var earlier, l := schedule[..|schedule| - 1], schedule[|schedule| - 1];
      RunsTerminate(sc, earlier);
      RunsAreSound(sc, earlier);
      StepsUseWork(sc, After(sc, earlier), l);
    }
  }

  /** A run that can go no further has finished on both sides, with the conversation closed. */
  lemma MaximalRunsFinish(sc: Scenario, schedule: seq<Label>)
    requires IsRun(sc, schedule)
    requires forall l :: !Enabled(sc, After(sc, schedule), l)
    ensures Finished(After(sc, schedule)) && !After(sc, schedule).open
  {
    hide Enabled, ProducerIsSound, ConsumerIsSound, Explains;
    NoDeadlock(sc, schedule);
    ChannelSafety(sc, schedule);
    RunsAreSound(sc, schedule);
  }

  // ------------------------------------------------- what the response carries

  /**
   Whatever the interleaving, a response that has ended is the sequential
   consumer's output for the texts received and the error seen. The texts are
   those of the turn before its first error, or a prefix of them when a write
   failed or the request was cancelled; the error, when one is seen, is the
   turn's own or the cancellation's.
   */
  lemma ResponseOfEveryRun(sc: Scenario, schedule: seq<Label>)
    requires IsRun(sc, schedule) && After(sc, schedule).consumer.Returned?
    ensures
      var s := After(sc, schedule);
      && s.wire == Output(s.received, s.seen, sc.ok)
      && s.received <= TurnTexts(sc)
      && (s.seen.Some? ==> s.seen == TurnError(sc) || (s.cancelled && s.seen == Some(CANCELED)))
  {
    hide Output, Frames, FirstFailure;
    RunsAreSound(sc, schedule);
    ReceivedIsPrefix(sc, After(sc, schedule));
  }

  lemma ReceivedIsPrefix(sc: Scenario, s: System)
    requires Sound(sc, s)
    ensures s.received <= TurnTexts(sc)
  {
    hide Output, Frames, FirstFailure, ConsumerIsSound, TextsOf, ErrorOf;
    match s.producer
    case Reading(n) => PrefixOfTurn(sc.chunks, n);
    case Offering(n) => PrefixOfTurn(sc.chunks, n - 1);
    case _ =>
  }

  /**
   Confluence: every run that ends without a cancellation leaves the same
   response, the one a sequential consumer would write for the whole turn.
   Scheduling decides nothing, and a bare error status is sent exactly when the
   turn fails before its first text.
   */
  lemma UncancelledRunsAgree(sc: Scenario, schedule: seq<Label>)
    requires IsRun(sc, schedule) && After(sc, schedule).consumer.Returned? && !After(sc, schedule).cancelled
    ensures After(sc, schedule).wire == Output(TurnTexts(sc), TurnError(sc), sc.ok)
  {
    hide TextsOf, ErrorOf, FirstFailure, ProducerIsSound, Frames;
    ResponseOfEveryRun(sc, schedule);
    RunsAreSound(sc, schedule);
    var s := After(sc, schedule);
    if FirstFailure(sc.ok, |s.received|) < |s.received| {
      SameCut(s.received, TurnTexts(sc), s.seen, TurnError(sc), sc.ok);
    }
  }

  lemma SameCut(texts: seq<string>, more: seq<string>, err: Option<string>, err': Option<string>, ok: Fates)
    requires texts <= more && FirstFailure(ok, |texts|) < |texts|
    ensures Output(texts, err, ok) == Output(more, err', ok)
  {
    var k := FirstFailure(ok, |texts|);
    FailureStays(ok, k, |more|);
    assert more[..k] == texts[..k];
  }

  /** A conversation that cannot be opened is an error status, nothing else, cancelled or not. */
  lemma OpenFailureIsTold(sc: Scenario, schedule: seq<Label>)
    requires IsRun(sc, schedule) && After(sc, schedule).consumer.Returned? && sc.openErr.Some?
    ensures After(sc, schedule).wire == [ErrorStatus(sc.openErr.value)]
  {
    hide TextsOf, ErrorOf, ProducerIsSound;
    ResponseOfEveryRun(sc, schedule);
    RunsAreSound(sc, schedule);
  }

  /** A cancelled turn may still have said everything; otherwise it ends with the cancellation's error. */
  lemma CancelledRunsArePrefixes(sc: Scenario, schedule: seq<Label>)
    requires IsRun(sc, schedule) && After(sc, schedule).consumer.Returned?
    requires FirstFailure(sc.ok, |After(sc, schedule).received|) == |After(sc, schedule).received|
    ensures
      var s := After(sc, schedule);
      || s.wire == Output(TurnTexts(sc), TurnError(sc), sc.ok)
      || (s.cancelled && s.received < TurnTexts(sc) && s.wire == Output(s.received, Some("context canceled"), sc.ok))
  {
    hide TextsOf, ErrorOf, FirstFailure, ProducerIsSound, Frames, Output;
    RunsAreSound(sc, schedule);
  }
}
