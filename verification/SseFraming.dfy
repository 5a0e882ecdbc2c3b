/**
 The bytes of an event stream and what a conforming reader makes of them. The
 reader follows section 9.2 of the WHATWG HTML standard (server-sent events):
 it takes one character at a time, so a stream cut anywhere has a meaning too.
 */
module SseFraming {
  import opened Wrappers
  import opened SseWriter

  const DONE_EVENT := "[DONE]"

  // ------------------------------------------------- the writer's side

  /** One data line and a blank one. */
  function FrameText(payload: string): (frame: string)
    ensures |frame| == |payload| + 8 && frame[..6] == "data: " && frame[6..6 + |payload|] == payload
    ensures frame[|payload| + 6] == '\n' && frame[|payload| + 7] == '\n'
  {
    "data: " + payload + "\n\n"
  }

  /** The JSON encoding of a payload. */
  type Encoder = Payload -> string

  predicate NoLineBreak(s: string) {
    '\n' !in s && '\r' !in s
  }

  /**
   What JSON promises about an encoded object: it opens with a brace, a line
   break inside a string is escaped (section 7 of RFC 8259), and different
   payloads are encoded differently.
   */
  ghost predicate EncodesObjects(encode: Encoder) {
    && (forall p :: |encode(p)| > 0 && encode(p)[0] == '{' && NoLineBreak(encode(p)))
    && (forall p, q :: encode(p) == encode(q) ==> p == q)
  }

  /** The data a list of items carries, headers aside. */
  function DataOf(items: seq<Item>, encode: Encoder): seq<string> {
    if items == [] then []
    else
      var earlier := DataOf(items[..|items| - 1], encode);
      match items[|items| - 1]
      case Frame(p) => earlier + [encode(p)]
      case DoneFrame => earlier + [DONE_EVENT]
      case _ => earlier
  }

  /** Every payload framed, one after the other. */
  function Body(data: seq<string>): string {
    if data == [] then "" else Body(data[..|data| - 1]) + FrameText(data[|data| - 1])
  }

  // ------------------------------------------------- the reader's side

  datatype Message = Message(kind: string, data: string)

  datatype Reader = Reader(
    line: string,         // the line being read
    afterCr: bool,        // a line feed now would only complete a CRLF
    data: string,         // the data buffer
    kind: string,         // the event type buffer
    lastId: string,
    messages: seq<Message>)

  const FRESH := Reader("", false, "", "", "", [])

  function IndexOf(s: string, c: char): (i: nat)
    ensures i <= |s|
    ensures i < |s| ==> s[i] == c
    ensures forall j :: 0 <= j < i ==> s[j] != c
  {
    if s == "" || s[0] == c then 0 else 1 + IndexOf(s[1..], c)
  }

  function Field(r: Reader, name: string, value: string): Reader {
    if name == "data" then r.(data := r.data + value + "\n")
    else if name == "event" then r.(kind := value)
    else if name == "id" && '\0' !in value then r.(lastId := value)
    else r
  }

  function Dispatch(r: Reader): Reader {
    if r.data == "" then r.(kind := "")
    else
      var data := if r.data[|r.data| - 1] == '\n' then r.data[..|r.data| - 1] else r.data;
      r.(data := "", kind := "",
         messages := r.messages + [Message(if r.kind == "" then "message" else r.kind, data)])
  }

  function EndLine(r: Reader): Reader {
    var line, r' := r.line, r.(line := "");
    var colon := IndexOf(line, ':');
    if line == "" then Dispatch(r')
    else if colon == 0 then r'
    else if colon == |line| then Field(r', line, "")
    else
      var value := line[colon + 1..];
      Field(r', line[..colon], if value != "" && value[0] == ' ' then value[1..] else value)
  }

  function Take(r: Reader, c: char): Reader {
    if c == '\n' && r.afterCr then r.(afterCr := false)
    else if c == '\n' || c == '\r' then EndLine(r).(afterCr := c == '\r')
    else r.(line := r.line + [c], afterCr := false)
  }

  function Feed(r: Reader, s: string): Reader {
    if s == "" then r else Take(Feed(r, s[..|s| - 1]), s[|s| - 1])
  }

  /** The messages a stream has delivered once it ends; what is pending then is discarded. */
  function Read(s: string): seq<Message> {
    Feed(FRESH, s).messages
  }

  function Messages(data: seq<string>): seq<Message> {
    seq(|data|, i requires 0 <= i < |data| => Message("message", data[i]))
  }

  // ------------------------------------------------- reading in pieces

  lemma {:induction false} FeedInPieces(r: Reader, s: string, t: string)
    ensures Feed(r, s + t) == Feed(Feed(r, s), t)
  {
    hide Take;
    if t == "" {
      assert s + t == s;
    } else {
      FeedInPieces(r, s, t[..|t| - 1]);
      assert (s + t)[..|s + t| - 1] == s + t[..|t| - 1];
    }
  }

  lemma {:induction false} FeedLine(r: Reader, s: string)
    requires NoLineBreak(s) && s != ""
    ensures Feed(r, s) == r.(line := r.line + s, afterCr := false)
  {
    var front := s[..|s| - 1];
    if front == "" {
      assert s == [s[0]];
      assert Feed(r, front) == r;
    } else {
      FeedLine(r, front);
      assert front + [s[|s| - 1]] == s;
    }
  }

  /** Between frames: nothing is pending. */
  predicate AtStart(r: Reader) {
    r.line == "" && !r.afterCr && r.data == "" && r.kind == ""
  }

  /** The one line of a frame names the data field and gives back its payload. */
  lemma DataLine(r: Reader, payload: string)
    requires AtStart(r)
    ensures EndLine(r.(line := "data: " + payload)) == r.(data := payload + "\n")
  {
    var line := "data: " + payload;
    assert line[4] == ':';
    assert IndexOf(line, ':') == 4;
    assert line[..4] == "data";
    assert line[5..] == " " + payload;
    assert (" " + payload)[1..] == payload;
    assert r.data + payload + "\n" == payload + "\n";
  }

  /** Everything of a frame but its last character delivers nothing. */
  lemma PartialFrame(r: Reader, payload: string, n: nat)
    requires AtStart(r) && NoLineBreak(payload) && n < |FrameText(payload)|
    ensures Feed(r, FrameText(payload)[..n]).messages == r.messages
    ensures n == |FrameText(payload)| - 1 ==> Feed(r, FrameText(payload)[..n]) == r.(data := payload + "\n")
  {
    hide Feed, NoLineBreak;
    var frame, line := FrameText(payload), "data: " + payload;
    PiecesOfLine(payload);
    if n == 0 {
      assert frame[..n] == "";
      FeedNothing(r);
    } else if n <= |line| {
      assert frame[..n] == line[..n];
      FeedLine(r, line[..n]);
    } else {
      assert frame[..n] == line + ['\n'];
      LineIsRead(r, payload);
    }
  }

  lemma LineIsRead(r: Reader, payload: string)
    requires AtStart(r) && NoLineBreak(payload)
    ensures Feed(r, "data: " + payload + ['\n']) == r.(data := payload + "\n")
  {
    hide Feed, NoLineBreak, EndLine;
    var line := "data: " + payload;
    PiecesOfLine(payload);
    FeedLine(r, line);
    DataLine(r, payload);
    assert r.line + line == line;
    FeedOneMore(r, line, '\n');
  }

  lemma FeedNothing(r: Reader)
    ensures Feed(r, "") == r
  {
  }

  lemma PiecesOfLine(payload: string)
    requires NoLineBreak(payload)
    ensures forall n :: 0 <= n <= |payload| + 6 ==> NoLineBreak(("data: " + payload)[..n])
    ensures NoLineBreak("data: " + payload)
  {
  }

  lemma FeedOneMore(r: Reader, s: string, c: char)
    ensures Feed(r, s + [c]) == Take(Feed(r, s), c)
  {
    assert (s + [c])[..|s|] == s;
  }

  /** A frame delivers its payload with its very last character, and nothing before that. */
  lemma FrameDelivers(r: Reader, payload: string, n: nat)
    requires AtStart(r) && NoLineBreak(payload) && n <= |FrameText(payload)|
    ensures Feed(r, FrameText(payload)[..n]).messages ==
            r.messages + (if n == |FrameText(payload)| then [Message("message", payload)] else [])
    ensures n == |FrameText(payload)| ==>
              Feed(r, FrameText(payload)[..n]) == r.(messages := r.messages + [Message("message", payload)])
  {
    hide EndLine, Dispatch, NoLineBreak, Feed;
    var frame := FrameText(payload);
    if n < |frame| {
      PartialFrame(r, payload, n);
    } else {
      PartialFrame(r, payload, n - 1);
      FeedOneMore(r, frame[..n - 1], '\n');
      assert frame[..n] == frame[..n - 1] + ['\n'];
      BlankLine(r, payload);
    }
  }

  lemma BlankLine(r: Reader, payload: string)
    requires AtStart(r)
    ensures EndLine(r.(data := payload + "\n")) == r.(messages := r.messages + [Message("message", payload)])
  {
    var data := payload + "\n";
    assert data[..|data| - 1] == payload;
  }

  // ------------------------------------------------- the reader, by itself

  /** The same text with every line ended by a carriage return and a line feed. */
  function WithCr(s: string): string {
    if s == "" then ""
    else WithCr(s[..|s| - 1]) + (if s[|s| - 1] == '\n' then "\r\n" else [s[|s| - 1]])
  }

  /** Line ends may be either; the messages are the same. */
  lemma {:induction false} LineEndsAgree(s: string)
    requires '\r' !in s
    ensures Feed(FRESH, WithCr(s)) == Feed(FRESH, s) && !Feed(FRESH, s).afterCr
  {
    hide EndLine;
    if s != "" {
      var front, c := s[..|s| - 1], s[|s| - 1];
      LineEndsAgree(front);
      if c == '\n' {
        var w := WithCr(front);
        FeedOneMore(FRESH, w, '\r');
        FeedOneMore(FRESH, w + ['\r'], '\n');
        assert w + "\r\n" == w + ['\r'] + ['\n'];
        CrIsCarried(Feed(FRESH, front));
      } else {
        FeedOneMore(FRESH, WithCr(front), c);
      }
    }
  }

  lemma CrIsCarried(r: Reader)
    ensures EndLine(r).afterCr == r.afterCr
  {
  }

  /** Where a line's field name ends. */
  lemma NameEnds(name: string, rest: string)
    requires ':' !in name
    ensures
      var line := name + ":" + rest;
      line[|name|] == ':' && IndexOf(line, ':') == |name| && line[..|name|] == name && line[|name| + 1..] == rest
  {
    var line := name + ":" + rest;
    assert line[|name|] == ':';
    assert forall k :: 0 <= k < |name| ==> line[k] == name[k];
  }

  /** A blank line or a comment says nothing, a named event keeps its name. */
  lemma OtherLines(r: Reader, text: string)
    requires AtStart(r) && text != "" && text[0] != ' '
    ensures EndLine(r) == r
    ensures EndLine(r.(line := ":" + text)) == r
    ensures EndLine(r.(line := "event:" + text)) == r.(kind := text)
    ensures EndLine(r.(line := "event: " + text)) == r.(kind := text)
  {
    hide IndexOf;
    NameEnds("", text);
    NameEnds("event", text);
    NameEnds("event", " " + text);
    assert "" + ":" + text == ":" + text && "event" + ":" == "event:";
    assert "event" + ":" + (" " + text) == "event: " + text && (" " + text)[1..] == text;
  }

  /** Data lines are joined by line feeds. */
  lemma DataLinesJoin(r: Reader, text: string, more: string)
    requires r.data == more + "\n" && r.line == "data: " + text
    ensures EndLine(r) == r.(line := "", data := more + "\n" + text + "\n")
  {
    hide IndexOf;
    NameEnds("data", " " + text);
    assert "data" + ":" + (" " + text) == "data: " + text && (" " + text)[1..] == text;
  }

  // ------------------------------------------------- whole streams and cut ones

  /** How many frames lie wholly within the first n characters. */
  function WholeFrames(data: seq<string>, n: nat): (k: nat)
    ensures k <= |data|
  {
    if data == [] then 0
    else if n >= |Body(data)| then |data|
    else WholeFrames(data[..|data| - 1], n)
  }

  /**
   Round trip, cut anywhere: from the first n characters of a body the reader
   gets exactly the payloads of the frames that are there in full, in order.
   */
  lemma {:induction false} CutReadsBack(data: seq<string>, n: nat)
    requires forall d :: d in data ==> NoLineBreak(d)
    requires n <= |Body(data)|
    ensures Read(Body(data)[..n]) == Messages(data[..WholeFrames(data, n)])
    ensures n == |Body(data)| ==> AtStart(Feed(FRESH, Body(data)[..n]))
  {
    hide Feed, NoLineBreak, FrameText;
    if data == [] {
      assert Body(data)[..n] == "";
      FeedNothing(FRESH);
    } else {
      var front, last := data[..|data| - 1], data[|data| - 1];
      var body := Body(front);
      assert Body(data) == body + FrameText(last);
      if n < |body| {
        CutReadsBack(front, n);
        assert Body(data)[..n] == body[..n];
        assert data[..WholeFrames(data, n)] == front[..WholeFrames(front, n)];
      } else {
        CutReadsBack(front, |body|);
        assert body[..|body|] == body;
        AllFramesAreWhole(front);
        assert front[..|front|] == front;
        var r := Feed(FRESH, body);
        FeedInPieces(FRESH, body, FrameText(last)[..n - |body|]);
        assert Body(data)[..n] == body + FrameText(last)[..n - |body|];
        FrameDelivers(r, last, n - |body|);
        LastFrame(data, n);
      }
    }
  }

  lemma AllFramesAreWhole(data: seq<string>)
    ensures WholeFrames(data, |Body(data)|) == |data|
  {
  }

  lemma LastFrame(data: seq<string>, n: nat)
    requires data != [] && |Body(data[..|data| - 1])| <= n <= |Body(data)|
    ensures
      var front := data[..|data| - 1];
      Messages(data[..WholeFrames(data, n)]) ==
      Messages(front) + (if n == |Body(data)| then [Message("message", data[|data| - 1])] else [])
  {
    var front := data[..|data| - 1];
    AllFramesAreWhole(front);
    if n < |Body(data)| {
      WholeFramesCap(front, n);
      assert data[..|front|] == front;
    } else {
      assert data[..|data|] == data;
    }
  }

  lemma WholeFramesCap(data: seq<string>, n: nat)
    requires n >= |Body(data)|
    ensures WholeFrames(data, n) == |data|
  {
  }

  /** WholeFrames counts what its name says: so many frames fit and one more does not. */
  lemma {:induction false} WholeFramesFit(data: seq<string>, n: nat)
    ensures
      var k := WholeFrames(data, n);
      |Body(data[..k])| <= n && (k < |data| ==> n < |Body(data[..k + 1])|)
  {
    if data != [] && n < |Body(data)| {
      var front, k := data[..|data| - 1], WholeFrames(data, n);
      WholeFramesFit(front, n);
      assert data[..k] == front[..k];
      if k < |front| {
        assert data[..k + 1] == front[..k + 1];
      } else {
        assert data[..k + 1] == data;
      }
    } else {
      assert data[..|data|] == data;
    }
  }

  // ------------------------------------------------- what a turn's response reads as

  function Encoded(texts: seq<string>, encode: Encoder): seq<string> {
    seq(|texts|, i requires 0 <= i < |texts| => encode(Delta(texts[i])))
  }

  /** What the whole response of a turn carries. */
  function TurnData(texts: seq<string>, err: Option<string>, encode: Encoder): seq<string> {
    Encoded(texts, encode) + (if err.Some? then [encode(ErrorEvent(err.value))] else []) + [DONE_EVENT]
  }

  lemma {:induction false} DataOfFrames(texts: seq<string>, encode: Encoder)
    ensures DataOf([Header] + Frames(texts), encode) == Encoded(texts, encode)
  {
    var items := [Header] + Frames(texts);
    if texts == [] {
      assert items == [Header] && items[..0] == [];
    } else {
      var front := texts[..|texts| - 1];
      DataOfFrames(front, encode);
      assert items[..|items| - 1] == [Header] + Frames(front);
      assert Encoded(texts, encode) == Encoded(front, encode) + [encode(Delta(texts[|texts| - 1]))];
    }
  }

  lemma DataOfWhole(texts: seq<string>, err: Option<string>, encode: Encoder)
    ensures DataOf(Whole(texts, err), encode) == TurnData(texts, err, encode)
  {
    hide Frames, Encoded;
    var deltas, all := [Header] + Frames(texts), Whole(texts, err);
    DataOfFrames(texts, encode);
    if err.Some? {
      var ending := deltas + [Frame(ErrorEvent(err.value))];
      assert all[..|all| - 1] == ending && ending[..|ending| - 1] == deltas;
    } else {
      assert all[..|all| - 1] == deltas;
    }
  }

  lemma TurnDataIsClean(texts: seq<string>, err: Option<string>, encode: Encoder)
    requires EncodesObjects(encode)
    ensures
      var data := TurnData(texts, err, encode);
      && (forall d :: d in data ==> NoLineBreak(d))
      && (forall i :: 0 <= i < |data| ==> (data[i] == DONE_EVENT <==> i == |data| - 1))
  {
  }

  /**
   However the response is cut, its reader gets the payloads that arrived in
   full and nothing else; and the terminator is read exactly when every byte
   arrived, so a client that sees it has the whole turn.
   */
  lemma ResponseReadsBack(texts: seq<string>, err: Option<string>, encode: Encoder, n: nat)
    requires EncodesObjects(encode)
    requires n <= |Body(DataOf(Whole(texts, err), encode))|
    ensures
      var data := DataOf(Whole(texts, err), encode);
      var got := Read(Body(data)[..n]);
      && data == TurnData(texts, err, encode)
      && got == Messages(data[..WholeFrames(data, n)])
      && (Message("message", "[DONE]") in got <==> n == |Body(data)|)
  {
    hide Whole, DataOf, Body, Read, NoLineBreak;
    DataOfWhole(texts, err, encode);
    TurnDataIsClean(texts, err, encode);
    var data := DataOf(Whole(texts, err), encode);
    var k := WholeFrames(data, n);
    assert k == |data| ==> data[..k] == data;
    CutReadsBack(data, n);
    WholeFramesFit(data, n);
    if n == |Body(data)| {
      AllFramesAreWhole(data);
      assert Messages(data[..k])[|data| - 1] == Message("message", DONE_EVENT);
    }
  }

  /** What is read determines the turn: its texts, whether it failed, and with what message. */
  lemma ReadingDeterminesTheTurn(
      texts: seq<string>, err: Option<string>, texts': seq<string>, err': Option<string>, encode: Encoder)
    requires EncodesObjects(encode)
    requires Read(Body(DataOf(Whole(texts, err), encode))) == Read(Body(DataOf(Whole(texts', err'), encode)))
    ensures texts == texts' && err == err'
  {
    hide Whole, DataOf, Body, Read, NoLineBreak;
    AllIsRead(texts, err, encode);
    AllIsRead(texts', err', encode);
    var data, data' := TurnData(texts, err, encode), TurnData(texts', err', encode);
    forall i | 0 <= i < |data| && i < |data'|
      ensures data[i] == data'[i]
    {
      assert Messages(data)[i] == Messages(data')[i];
    }
    assert |Messages(data)| == |data| && |Messages(data')| == |data'|;
    assert forall i :: 0 <= i < |texts| ==> data[i] == encode(Delta(texts[i]));
    assert forall i :: 0 <= i < |texts'| ==> data'[i] == encode(Delta(texts'[i]));
    assert err.Some? ==> data[|texts|] == encode(ErrorEvent(err.value));
    assert err'.Some? ==> data'[|texts'|] == encode(ErrorEvent(err'.value));
    if |texts| == |texts'| {
      assert forall i :: 0 <= i < |texts| ==> data[i] == data'[i];
    }
  }

  lemma AllIsRead(texts: seq<string>, err: Option<string>, encode: Encoder)
    requires EncodesObjects(encode)
    ensures Read(Body(DataOf(Whole(texts, err), encode))) == Messages(TurnData(texts, err, encode))
  {
    hide Whole, DataOf, Read, NoLineBreak;
    var data := DataOf(Whole(texts, err), encode);
    var body := Body(data);
    ResponseReadsBack(texts, err, encode, |body|);
    AllFramesAreWhole(data);
    assert body[..|body|] == body && data[..|data|] == data;
  }

  /**
   With a response writer that stays failed, the client reads the terminator
   exactly when no write failed, whatever the writes before it carried.
   */
  lemma DoneMeansComplete(texts: seq<string>, err: Option<string>, ok: Fates, encode: Encoder)
    requires EncodesObjects(encode) && Sticky(ok)
    requires texts != [] || err.None?
    ensures
      Message("message", DONE_EVENT) in Read(Body(DataOf(Output(texts, err, ok), encode))) <==>
      Output(texts, err, ok) == Whole(texts, err)
  {
    hide *;
    var out, whole := Output(texts, err, ok), Whole(texts, err);
    OutputIsPrefix(texts, err, ok);
    PrefixReadsDone(texts, err, |out|, encode);
  }

  lemma OutputIsPrefix(texts: seq<string>, err: Option<string>, ok: Fates)
    requires Sticky(ok) && (texts != [] || err.None?)
    ensures |Output(texts, err, ok)| <= |Whole(texts, err)|
    ensures Output(texts, err, ok) == Whole(texts, err)[..|Output(texts, err, ok)|]
  {
    hide Output, Whole, FirstFailure, Sticky;
    ThreeOutcomes(texts, err, ok);
  }

  lemma PrefixReadsDone(texts: seq<string>, err: Option<string>, k: nat, encode: Encoder)
    requires EncodesObjects(encode) && k <= |Whole(texts, err)|
    ensures
      Message("message", DONE_EVENT) in Read(Body(DataOf(Whole(texts, err)[..k], encode))) <==>
      Whole(texts, err)[..k] == Whole(texts, err)
  {
    hide Body, Read, NoLineBreak, Frames;
    var whole := Whole(texts, err);
    var data, all := DataOf(whole[..k], encode), DataOf(whole, encode);
    PrefixCarriesPrefix(whole, k, encode);
    assert data == all[..|data|];
    BodyOfPrefix(all, |data|);
    assert Body(all)[..|Body(data)|] == Body(data);
    ResponseReadsBack(texts, err, encode, |Body(data)|);
    if k < |whole| {
      var front := whole[..|whole| - 1];
      assert whole[|whole| - 1] == DoneFrame;
      assert front[..k] == whole[..k];
      PrefixCarriesPrefix(front, k, encode);
      assert |data| < |all|;
    } else {
      assert whole[..k] == whole;
    }
  }

  lemma {:induction false} PrefixCarriesPrefix(items: seq<Item>, k: nat, encode: Encoder)
    requires k <= |items|
    ensures DataOf(items[..k], encode) <= DataOf(items, encode)
  {
    if k == |items| {
      assert items[..k] == items;
    } else {
      PrefixCarriesPrefix(items[..|items| - 1], k, encode);
      assert items[..|items| - 1][..k] == items[..k];
    }
  }

  /** A shorter list of payloads is a shorter body, and a prefix of the longer one. */
  lemma {:induction false} BodyOfPrefix(data: seq<string>, k: nat)
    requires k <= |data|
    ensures Body(data[..k]) <= Body(data)
    ensures k < |data| ==> |Body(data[..k])| < |Body(data)|
  {
    if k == |data| {
      assert data[..k] == data;
    } else {
      BodyOfPrefix(data[..|data| - 1], k);
      assert data[..|data| - 1][..k] == data[..k];
    }
  }
}
