/** Messages framed by newlines: reading them out of a stream that comes in pieces, against the
    plain split of the whole stream. */
module Framing {
  import opened Options

  newtype byte = x: int | 0 <= x < 256

  const NEWLINE: byte := 10

  type Bytes = seq<byte>

  /** How a stream ends: between messages, with one too long, inside one, or with one that is no text. */
  datatype Ending = Clean | TooLong | Truncated | NotText

  /** The largest message, and which bytes are text. */
  datatype Limits = Limits(most: nat, text: Bytes -> bool)

  /** Where the first newline is, the length when there is none. */
  function FirstNewline(s: Bytes): (n: nat)
    ensures n <= |s| && (n < |s| ==> s[n] == NEWLINE) && forall i :: 0 <= i < n ==> s[i] != NEWLINE
  {
    if s == [] || s[0] == NEWLINE then 0 else 1 + FirstNewline(s[1..])
  }

  // ── The plain split ─────────────────────────────────────────────

  datatype Reading = Reading(messages: seq<Bytes>, ending: Ending)

  /** What reading a whole stream yields: its lines, up to the first that cannot be a message. */
  function Split(s: Bytes, limits: Limits): Reading
    decreases |s|
  {
    var n := FirstNewline(s);
    if n < |s| then
      if n > limits.most then Reading([], TooLong)
      else if !limits.text(s[..n]) then Reading([], NotText)
      else
        var rest := Split(s[n + 1..], limits);
        Reading([s[..n]] + rest.messages, rest.ending)
    else if s == [] then Reading([], Clean)
    else if |s| > limits.most then Reading([], TooLong)
    else Reading([], Truncated)
  }

  datatype Expected = Line(line: Bytes) | Ended(how: Ending)

  function Lines(r: Reading): (es: seq<Expected>)
    ensures |es| == |r.messages| + 1
  {
    seq(|r.messages|, i requires 0 <= i < |r.messages| => Line(r.messages[i])) + [Ended(r.ending)]
  }

  lemma LinesFirst(line: Bytes, r: Reading)
    ensures Lines(Reading([line] + r.messages, r.ending)) == [Line(line)] + Lines(r)
  {}

  /** The reference a fuzzed channel is compared with: every byte text. */
  method ExpectedLines(stream: Bytes, most: nat) returns (out: seq<Expected>)
    ensures out == Lines(Split(stream, Limits(most, _ => true)))
  {
    ghost var limits := Limits(most, _ => true);
    out := [];
    var rest := stream;
    while true
      invariant out + Lines(Split(rest, limits)) == Lines(Split(stream, limits))
      decreases |rest|
    {
      var end := FirstNewline(rest);
      if end < |rest| && end > most {
        return out + [Ended(TooLong)];
      } else if end < |rest| {
        LinesFirst(rest[..end], Split(rest[end + 1..], limits));
        out := out + [Line(rest[..end])];
        rest := rest[end + 1..];
      } else if rest == [] {
        return out + [Ended(Clean)];
      } else if |rest| > most {
        return out + [Ended(TooLong)];
      } else {
        return out + [Ended(Truncated)];
      }
    }
  }

  // ── Reading in pieces ───────────────────────────────────────────

  /** What is read so far: the messages, the bytes of one begun, and why reading stopped if it did. */
  datatype Partial = Partial(messages: seq<Bytes>, pending: Bytes, failure: Option<Ending>)

  /** What is read once a stream has come this far. */
  function Read(s: Bytes, limits: Limits): (p: Partial)
    ensures p.failure.Some? ==> p.pending == []
    ensures |p.pending| <= limits.most
    decreases |s|
  {
    var n := FirstNewline(s);
    if n < |s| then
      if n > limits.most then Partial([], [], Some(TooLong))
      else if !limits.text(s[..n]) then Partial([], [], Some(NotText))
      else Prepend([s[..n]], Read(s[n + 1..], limits))
    else if |s| > limits.most then Partial([], [], Some(TooLong))
    else Partial([], s, None)
  }

  function Prepend(first: seq<Bytes>, p: Partial): Partial {
    p.(messages := first + p.messages)
  }

  /** How reading ends when the stream does. */
  function EndOf(p: Partial): Ending {
    if p.failure.Some? then p.failure.value else if p.pending != [] then Truncated else Clean
  }

  /** Read in any pieces, ended, a stream yields what the plain split of it does. */
  lemma {:induction false} ReadIsSplit(s: Bytes, limits: Limits)
    ensures Split(s, limits) == Reading(Read(s, limits).messages, EndOf(Read(s, limits)))
    decreases |s|
  {
    var n := FirstNewline(s);
    if n < |s| && n <= limits.most && limits.text(s[..n]) { ReadIsSplit(s[n + 1..], limits); }
  }

  /** The first newline of a stream is that of its beginning, if it has one. */
  lemma FirstOfMore(s: Bytes, d: Bytes)
    ensures FirstNewline(s) < |s| ==> FirstNewline(s + d) == FirstNewline(s)
    ensures FirstNewline(s) == |s| ==> FirstNewline(s + d) >= |s|
  {
    var n, m := FirstNewline(s), FirstNewline(s + d);
    assert forall i :: 0 <= i < |s| ==> (s + d)[i] == s[i];
  }

  lemma PrependTwice(a: seq<Bytes>, b: seq<Bytes>, p: Partial)
    ensures Prepend(a, Prepend(b, p)) == Prepend(a + b, p)
    ensures Prepend([], p) == p
  {
    assert a + (b + p.messages) == (a + b) + p.messages;
    assert [] + p.messages == p.messages;
  }

  /** What was not read to its end is read on from there; after a failure nothing is. */
  lemma {:induction false} ReadMore(s: Bytes, d: Bytes, limits: Limits)
    ensures var p := Read(s, limits);
      Read(s + d, limits) == if p.failure.Some? then p else Prepend(p.messages, Read(p.pending + d, limits))
    decreases |s|
  {
    var n := FirstNewline(s);
    FirstOfMore(s, d);
    if n < |s| {
      assert (s + d)[..n] == s[..n] && (s + d)[n + 1..] == s[n + 1..] + d;
      if n <= limits.most && limits.text(s[..n]) {
        var p := Read(s[n + 1..], limits);
        ReadMore(s[n + 1..], d, limits);
        PrependTwice([s[..n]], p.messages, Read(p.pending + d, limits));
        hide Prepend;
        assert Read(s + d, limits) == Prepend([s[..n]], Read(s[n + 1..] + d, limits));
      }
    } else if |s| <= limits.most {
      PrependTwice([], [], Read(s + d, limits));
    } else {
      LongStaysLong(s, d, limits);
    }
  }

  lemma LongStaysLong(s: Bytes, d: Bytes, limits: Limits)
    requires FirstNewline(s) == |s| > limits.most
    ensures Read(s + d, limits) == Partial([], [], Some(TooLong))
  {
    FirstOfMore(s, d);
  }

  /** One line more, its beginning pending. */
  lemma LineRead(pending: Bytes, piece: Bytes, rest: Bytes, limits: Limits)
    requires NEWLINE !in pending && NEWLINE !in piece
    ensures var line := pending + piece;
      Read(pending + (piece + [NEWLINE] + rest), limits) ==
        if |line| > limits.most then Partial([], [], Some(TooLong))
        else if !limits.text(line) then Partial([], [], Some(NotText))
        else Prepend([line], Read(rest, limits))
  {
    var line := pending + piece;
    var s := pending + (piece + [NEWLINE] + rest);
    assert s == line + [NEWLINE] + rest;
    assert forall i :: 0 <= i < |line| ==> s[i] == line[i] && s[i] != NEWLINE;
    assert s[|line|] == NEWLINE;
    assert FirstNewline(s) == |line|;
    assert s[..|line|] == line && s[|line| + 1..] == rest;
  }

  lemma PendingRead(s: Bytes, limits: Limits)
    requires NEWLINE !in s
    ensures Read(s, limits) == if |s| > limits.most then Partial([], [], Some(TooLong)) else Partial([], s, None)
  {}

  lemma {:induction false} PendingPlain(s: Bytes, limits: Limits)
    ensures NEWLINE !in Read(s, limits).pending
    decreases |s|
  {
    var n := FirstNewline(s);
    if n < |s| && n <= limits.most && limits.text(s[..n]) { PendingPlain(s[n + 1..], limits); }
  }

  function Joined(chunks: seq<Bytes>): Bytes {
    if chunks == [] then [] else Joined(chunks[..|chunks| - 1]) + chunks[|chunks| - 1]
  }

  lemma JoinedMore(chunks: seq<Bytes>, chunk: Bytes)
    ensures Joined(chunks + [chunk]) == Joined(chunks) + chunk
  {
    assert (chunks + [chunk])[..|chunks|] == chunks;
  }

  /** Whether so many messages are enough for the handler, which closes the channel. */
  predicate Closes(quits: Option<nat>, messages: nat) {
    quits.Some? && 1 <= quits.value <= messages
  }

  /** The messages a handler takes that closes the channel with message number `quits`. */
  function Taken(messages: seq<Bytes>, quits: Option<nat>): seq<Bytes> {
    if Closes(quits, |messages|) then messages[..quits.value] else messages
  }

  /** A channel on a stream. `quits`: the message with which the handler closes it, if it does.
      `stream`: all that came so far. */
  class Framer {
    const limits: Limits
    const quits: Option<nat>
    var closed: bool
    var chunks: seq<Bytes>
    var length: nat
    var failure: Option<Ending>
    var delivered: seq<Bytes>
    var written: Bytes
    ghost var stream: Bytes

    ghost predicate Valid()
      reads this
    {
      var whole := Read(stream, limits);
      && length == |Joined(chunks)|
      && delivered == Taken(whole.messages, quits)
      && (closed <==> Closes(quits, |whole.messages|))
      && (!closed ==> whole == Partial(delivered, Joined(chunks), failure))
    }

    constructor (limits: Limits, quits: Option<nat>)
      ensures Valid() && stream == [] && written == [] && !closed && this.limits == limits && this.quits == quits
    {
      this.limits, this.quits, closed := limits, quits, false;
      chunks, length, failure, delivered, written, stream := [], 0, None, [], [], [];
    }

    /** Stop: nothing more is read. */
    method Fail(reason: Ending)
      requires failure.None?
      modifies this`failure, this`chunks, this`length
      ensures failure == Some(reason) && chunks == [] && length == 0
    {
      failure, chunks, length := Some(reason), [], 0;
    }

    /** A line is complete: deliver it, unless it cannot be a message. */
    method Line(piece: Bytes)
      requires failure.None? && length == |Joined(chunks)|
      modifies this`chunks, this`length, this`failure, this`delivered
      ensures chunks == [] && length == 0
      ensures var line := old(Joined(chunks)) + piece;
        && failure ==
           (if |line| > limits.most then Some(TooLong) else if !limits.text(line) then Some(NotText) else None)
        && delivered == if failure.None? then old(delivered) + [line] else old(delivered)
    {
      if length + |piece| > limits.most { Fail(TooLong); return; }
      var line := Joined(chunks) + piece;
      chunks, length := [], 0;
      if !limits.text(line) { Fail(NotText); return; }
      delivered := delivered + [line];
    }

    /** Bytes came; after a failure, or once the handler closed the channel, they are not read. */
    method Data(data: Bytes)
      requires Valid()
      modifies this`chunks, this`length, this`failure, this`delivered, this`stream, this`closed
      ensures Valid() && stream == old(stream) + data
      ensures closed ==> |delivered| == quits.value
    {
      hide Read, FirstNewline, Prepend, Joined, Taken, Closes;
      ReadMore(stream, data, limits);
      PendingPlain(stream, limits);
      ghost var whole := Read(stream + data, limits);
      if closed { StaysClosed(Read(stream, limits), whole, quits, Read(Read(stream, limits).pending + data, limits)); }
      stream := stream + data;
      if closed || failure.Some? { return; }
      NotYet(delivered, quits);
      var start := 0;
      assert data[0..] == data;
      while start + FirstNewline(data[start..]) < |data|
        invariant start <= |data| && failure.None? && !closed && length == |Joined(chunks)| <= limits.most
        invariant !Closes(quits, |delivered|)
        invariant stream == old(stream) + data
        invariant NEWLINE !in Joined(chunks)
        invariant whole == Prepend(delivered, Read(Joined(chunks) + data[start..], limits))
      {
        var at := start + FirstNewline(data[start..]);
        ghost var line, before := Joined(chunks) + data[start..at], delivered;
        LineFound(data, start, at);
        LineRead(Joined(chunks), data[start..at], data[at + 1..], limits);
        Line(data[start..at]);
        if failure.Some? {
          Stopped(before, failure.value);
          NotYet(before, quits);
          NoChunks();
          return;
        }
        PrependTwice(before, [line], Read(data[at + 1..], limits));
        if quits == Some(|delivered|) {
          QuitsNow(delivered, Read(data[at + 1..], limits), quits);
          closed := true;
          NoChunks();
          return;
        }
        OneMore(before, line, quits);
        start := at + 1;
        NoChunks();
        assert [] + data[start..] == data[start..];
      }
      Rest(data[start..]);
    }

    /** The bytes after the last newline wait for more. */
    method Rest(rest: Bytes)
      requires failure.None? && length == |Joined(chunks)| <= limits.most && NEWLINE !in Joined(chunks)
      requires FirstNewline(rest) == |rest|
      requires Read(stream, limits) == Prepend(delivered, Read(Joined(chunks) + rest, limits))
      requires !closed && !Closes(quits, |delivered|)
      modifies this`chunks, this`length, this`failure
      ensures Valid()
    {
      hide Joined;
      NotYet(delivered, quits);
      var all := Joined(chunks) + rest;
      assert NEWLINE !in all;
      PendingRead(all, limits);
      assert delivered + [] == delivered;
      if rest == [] {
        assert all == Joined(chunks);
        return;
      }
      if length + |rest| > limits.most {
        Fail(TooLong);
        NoChunks();
        return;
      }
      JoinedMore(chunks, rest);
      chunks, length := chunks + [rest], length + |rest|;
    }

    /** The stream ended: how reading did. */
    method End() returns (ending: Ending)
      requires Valid() && !closed
      ensures Reading(delivered, ending) == Split(stream, limits)
    {
      ReadIsSplit(stream, limits);
      ending := if failure.Some? then failure.value else if length > 0 then Truncated else Clean;
    }

    /** Send a message; false for one that would not be read as itself. */
    method Send(message: Bytes) returns (ok: bool)
      modifies this`written
      ensures ok <==> NEWLINE !in message && |message| <= limits.most
      ensures written == if ok then old(written) + message + [NEWLINE] else old(written)
    {
      if NEWLINE in message || |message| > limits.most { return false; }
      written := written + message + [NEWLINE];
      ok := true;
    }
  }

  lemma NoChunks()
    ensures Joined([]) == []
  {}

  /** Messages that are not enough for the handler are all taken. */
  lemma NotYet(messages: seq<Bytes>, quits: Option<nat>)
    ensures !Closes(quits, |messages|) ==> Taken(messages, quits) == messages
    ensures Closes(quits, |messages|) ==> |Taken(messages, quits)| == quits.value
    ensures Taken(messages, quits) == messages && Closes(quits, |messages|) ==> |messages| == quits.value
  {}

  lemma OneMore(before: seq<Bytes>, line: Bytes, quits: Option<nat>)
    requires !Closes(quits, |before|) && quits != Some(|before| + 1)
    ensures !Closes(quits, |before + [line]|)
  {}

  /** The handler closes with the last of these, whatever was to come. */
  lemma QuitsNow(messages: seq<Bytes>, rest: Partial, quits: Option<nat>)
    requires quits == Some(|messages|) && messages != []
    ensures var whole := Prepend(messages, rest).messages; Closes(quits, |whole|) && Taken(whole, quits) == messages
  {
    assert (messages + rest.messages)[..|messages|] == messages;
  }

  /** Once closed, what is read later changes nothing. */
  lemma StaysClosed(before: Partial, whole: Partial, quits: Option<nat>, more: Partial)
    requires Closes(quits, |before.messages|)
    requires whole == if before.failure.Some? then before else Prepend(before.messages, more)
    ensures Closes(quits, |whole.messages|) && Taken(whole.messages, quits) == Taken(before.messages, quits)
    ensures |Taken(whole.messages, quits)| == quits.value
  {}

  lemma Stopped(before: seq<Bytes>, how: Ending)
    ensures Prepend(before, Partial([], [], Some(how))) == Partial(before, [], Some(how))
  {
    assert before + [] == before;
  }

  lemma LineFound(data: Bytes, start: nat, at: nat)
    requires start <= at < |data| && at == start + FirstNewline(data[start..])
    ensures NEWLINE !in data[start..at] && data[start..] == data[start..at] + [NEWLINE] + data[at + 1..]
  {
    assert data[start..at] == data[start..][..at - start];
    assert data[start..][at - start] == NEWLINE;
  }

  // ── Independence of the pieces ──────────────────────────────────

  /** A stream read piece by piece, however it is cut, delivers what its plain split does. */
  method ReadPieces(pieces: seq<Bytes>, limits: Limits) returns (messages: seq<Bytes>, ending: Ending)
    ensures Reading(messages, ending) == Split(Joined(pieces), limits)
  {
    var framer := new Framer(limits, None);
    for i := 0 to |pieces|
      invariant framer.Valid() && fresh(framer) && framer.limits == limits && framer.stream == Joined(pieces[..i])
      invariant framer.quits == None
    {
      JoinedMore(pieces[..i], pieces[i]);
      assert pieces[..i + 1] == pieces[..i] + [pieces[i]];
      framer.Data(pieces[i]);
    }
    assert pieces[..|pieces|] == pieces;
    ending := framer.End();
    messages := framer.delivered;
  }

  /** What sending messages writes. */
  function Written(messages: seq<Bytes>): Bytes {
    if messages == [] then [] else messages[0] + [NEWLINE] + Written(messages[1..])
  }

  /** Every sequence of messages that are sent is received as sent, and the stream ends clean. */
  lemma {:induction false} SentIsReceived(messages: seq<Bytes>, limits: Limits)
    requires forall i ::
      0 <= i < |messages| ==> NEWLINE !in messages[i] && |messages[i]| <= limits.most && limits.text(messages[i])
    ensures Split(Written(messages), limits) == Reading(messages, Clean)
    decreases |messages|
  {
    if messages != [] {
      SentIsReceived(messages[1..], limits);
      OneReceived(messages[0], Written(messages[1..]), limits);
      hide Split;
      assert [messages[0]] + messages[1..] == messages;
    }
  }

  lemma OneReceived(m: Bytes, rest: Bytes, limits: Limits)
    requires NEWLINE !in m && |m| <= limits.most && limits.text(m)
    ensures Split(m + [NEWLINE] + rest, limits) ==
      Reading([m] + Split(rest, limits).messages, Split(rest, limits).ending)
  {
    var s := m + [NEWLINE] + rest;
    assert forall i :: 0 <= i < |m| ==> s[i] == m[i] && s[i] != NEWLINE;
    assert s[|m|] == NEWLINE && FirstNewline(s) == |m|;
    assert s[..|m|] == m && s[|m| + 1..] == rest;
  }

  /** Cut off anywhere, what was sent is received up to the last whole message: a prefix of it. */
  lemma CutIsPrefix(s: Bytes, cut: nat, limits: Limits)
    requires cut <= |s|
    ensures Split(s[..cut], limits).messages <= Split(s, limits).messages
  {
    ReadMore(s[..cut], s[cut..], limits);
    assert s[..cut] + s[cut..] == s;
    ReadIsSplit(s[..cut], limits);
    ReadIsSplit(s, limits);
  }
}
