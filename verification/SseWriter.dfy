/**
 What a streaming response carries. Texts and at most one error become frames;
 the header goes out with the first of them, and until then a failure can still
 be told by the status line.
 */
module SseWriter {
  import opened Wrappers

  datatype Payload = Delta(text: string) | ErrorEvent(message: string)

  /** What reaches the response, frame by frame. */
  datatype Item = ErrorStatus(message: string) | Header | Frame(payload: Payload) | DoneFrame

  /** Whether the n-th write of a frame succeeds. */
  type Fates = nat -> bool

  function Frames(texts: seq<string>): seq<Item> {
    seq(|texts|, i requires 0 <= i < |texts| => Frame(Delta(texts[i])))
  }

  /** The first of the first n writes to fail, or n. */
  function FirstFailure(ok: Fates, n: nat): (k: nat)
    ensures k <= n
    ensures k < n ==> !ok(k)
    ensures forall i: nat :: i < k ==> ok(i)
  {
    if n == 0 then 0
    else
      var k := FirstFailure(ok, n - 1);
      if k < n - 1 || !ok(n - 1) then k else n
  }

  /** The frames that close a stream of n deltas. */
  function Ending(err: Option<string>, ok: Fates, n: nat): seq<Item> {
    match err
    case None => if ok(n) then [DoneFrame] else []
    case Some(e) =>
      (if ok(n) then [Frame(ErrorEvent(e))] else []) + (if ok(n + 1) then [DoneFrame] else [])
  }

  /** What one response carries, given the texts received, the final error and the fate of every write. */
  function Output(texts: seq<string>, err: Option<string>, ok: Fates): seq<Item> {
    var sent := FirstFailure(ok, |texts|);
    if sent < |texts| then [Header] + Frames(texts[..sent])
    else if texts == [] && err.Some? then [ErrorStatus(err.value)]
    else [Header] + Frames(texts) + Ending(err, ok, |texts|)
  }

  /** The part of the output written while texts still arrive. */
  function Started(texts: seq<string>): seq<Item> {
    if texts == [] then [] else [Header] + Frames(texts)
  }

  // ------------------------------------------------- the code

  class Writer {
    var wire: seq<Item>
    var wroteHeader: bool
    var writes: nat  // frames attempted so far

    constructor ()
      ensures wire == [] && !wroteHeader && writes == 0
    {
      wire, wroteHeader, writes := [], false, 0;
    }

    method EnsureHeader()
      modifies this`wire, this`wroteHeader
      ensures wroteHeader
      ensures wire == if old(wroteHeader) then old(wire) else old(wire) + [Header]
    {
      if wroteHeader {
        return;
      }
      wire := wire + [Header];
      wroteHeader := true;
    }

    method Event(payload: Payload, ok: Fates) returns (landed: bool)
      modifies this`wire, this`writes
      ensures landed == ok(old(writes)) && writes == old(writes) + 1
      ensures wire == if landed then old(wire) + [Frame(payload)] else old(wire)
    {
      landed := ok(writes);
      writes := writes + 1;
      if landed {
        wire := wire + [Frame(payload)];
      }
    }

    method Done(ok: Fates)
      modifies this`wire, this`writes
      ensures writes == old(writes) + 1
      ensures wire == if ok(old(writes)) then old(wire) + [DoneFrame] else old(wire)
    {
      if ok(writes) {
        wire := wire + [DoneFrame];
      }
      writes := writes + 1;
    }
  }

  lemma OneMoreFrame(texts: seq<string>, i: nat)
    requires i < |texts|
    ensures Started(texts[..i + 1]) ==
            (if i == 0 then [Header] else Started(texts[..i])) + [Frame(Delta(texts[i]))]
  {
    assert Frames(texts[..i + 1]) == Frames(texts[..i]) + [Frame(Delta(texts[i]))];
  }

  lemma CutShort(texts: seq<string>, err: Option<string>, ok: Fates, i: nat)
    requires i < |texts| && FirstFailure(ok, i) == i && !ok(i)
    ensures Output(texts, err, ok) == if i == 0 then [Header] else Started(texts[..i])
  {
    FailureStays(ok, i, |texts|);
    assert Frames(texts[..0]) == [];
  }

  /** A first failure stays the first one, however many writes were planned. */
  lemma {:induction false} FailureStays(ok: Fates, k: nat, n: nat)
    requires k < n && FirstFailure(ok, k) == k && !ok(k)
    ensures FirstFailure(ok, n) == k
  {
    if n > k + 1 {
      FailureStays(ok, k, n - 1);
    }
  }

  /** writeSSE, for the texts the channel yields before it is closed and the error received after. */
  method WriteSse(texts: seq<string>, err: Option<string>, ok: Fates) returns (stream: Writer)
    ensures fresh(stream) && stream.wire == Output(texts, err, ok)
  {
    hide Frames;
    stream := new Writer();
    for i := 0 to |texts|
      invariant stream.wire == Started(texts[..i])
      invariant stream.wroteHeader == (i > 0) && stream.writes == i
      invariant FirstFailure(ok, i) == i
    {
      stream.EnsureHeader();
      var landed := stream.Event(Delta(texts[i]), ok);
      OneMoreFrame(texts, i);
      if !landed {
        CutShort(texts, err, ok, i);
        return;
      }
    }
    assert texts[..|texts|] == texts;
    if err.Some? && !stream.wroteHeader {
      stream.wire := stream.wire + [ErrorStatus(err.value)];
      return;
    }
    stream.EnsureHeader();
    if err.Some? {
      var _ := stream.Event(ErrorEvent(err.value), ok);
    }
    stream.Done(ok);
    NoFrames();
    assert stream.wire == [Header] + Frames(texts) + Ending(err, ok, |texts|);
  }

  lemma NoFrames()
    ensures Frames([]) == []
  {
  }

  // ------------------------------------------------- the three outcomes

  /** A response writer that accepts nothing more once a write has failed. */
  ghost predicate Sticky(ok: Fates) {
    forall i: nat, j: nat :: i <= j && !ok(i) ==> !ok(j)
  }

  /** Everything a turn has to say. */
  function Whole(texts: seq<string>, err: Option<string>): seq<Item> {
    [Header] + Frames(texts) + (if err.Some? then [Frame(ErrorEvent(err.value))] else []) + [DoneFrame]
  }

  /**
   A response is one of three things: a bare error status, exactly when the
   error came before any text; the whole stream, exactly when no write failed;
   or, with a response writer that stays failed, exactly what was written before.
   */
  lemma ThreeOutcomes(texts: seq<string>, err: Option<string>, ok: Fates)
    requires Sticky(ok)
    ensures
      var out, bare := Output(texts, err, ok), texts == [] && err.Some?;
      var writes := |texts| + (if err.Some? then 2 else 1);
      if bare then out == [ErrorStatus(err.value)]
      else
        && out <= Whole(texts, err) && out != [] && (out == Whole(texts, err) <==> FirstFailure(ok, writes) == writes)
        && out == Whole(texts, err)[..1 + FirstFailure(ok, writes)]
  {
    var sent := FirstFailure(ok, |texts|);
    assert Frames(texts[..sent]) <= Frames(texts);
    if sent < |texts| {
      FailureStays(ok, sent, |texts| + (if err.Some? then 2 else 1));
    }
  }

  /** A delta that cannot be written ends the response there, whatever the writer would do later. */
  lemma FailedDeltaEndsIt(texts: seq<string>, err: Option<string>, ok: Fates, k: nat)
    requires k < |texts| && !ok(k) && forall i: nat :: i < k ==> ok(i)
    ensures Output(texts, err, ok) == [Header] + seq(k, i requires 0 <= i < k => Frame(Delta(texts[i])))
  {
    assert FirstFailure(ok, |texts|) == k;
  }

  /**
   Without that assumption one more output is possible: the error event can be
   lost and the terminator still arrive, so a failed turn reads as a complete
   one. It takes exactly a failed error frame followed by a successful last one.
   */
  lemma ErrorEventCanBeLost(texts: seq<string>, message: string, ok: Fates)
    requires texts != []
    ensures Output(texts, Some(message), ok) == Whole(texts, None) <==>
            FirstFailure(ok, |texts|) == |texts| && !ok(|texts|) && ok(|texts| + 1)
  {
    var out := Output(texts, Some(message), ok);
    if FirstFailure(ok, |texts|) < |texts| {
      assert |out| < |Whole(texts, None)|;
    } else if ok(|texts|) {
      assert out[|texts| + 1] == Frame(ErrorEvent(message));
    }
  }
}
