/**
 * Server-sent event frames and how a receiving client interprets them, after
 * section 9.2 of the WHATWG HTML Standard ("Server-sent events"), restricted
 * to the `data` field: a line ends at CR LF, CR or LF; a line that starts
 * with a colon is a comment; a blank line dispatches the buffered data as one
 * event.
 */
module EventStream {

  /** The heartbeat: a comment line. */
  const PingFrame: string := ":ping\n\n"

  /** Text without a line end. */
  predicate SingleLine(p: string)
  {
    '\n' !in p && '\r' !in p
  }

  /** A payload frame; a single-line payload is carried exactly. */
  function DataFrame(payload: string): (f: string)
    ensures SingleLine(payload) ==> IsDataFrame(f) && DataOf(f) == payload
  {
    var f := "data: " + payload + "\n\n";
    assert f[..6] == "data: ";
    assert f[6..|f| - 2] == payload;
    assert f[|f| - 2..] == "\n\n";
    f
  }

  function StripLeadingSpace(v: string): string
  {
    if |v| > 0 && v[0] == ' ' then v[1..] else v
  }

  /** Field name before the first colon; the value after it, less one leading space. */
  function SplitField(line: string): (string, string)
  {
    if line == [] then ([], [])
    else if line[0] == ':' then ([], StripLeadingSpace(line[1..]))
    else
      var (f, v) := SplitField(line[1..]);
      ([line[0]] + f, v)
  }

  /** The data buffer after one non-blank line. */
  function ApplyLine(line: string, data: string): string
  {
    if |line| > 0 && line[0] == ':' then data
    else
      var (field, value) := SplitField(line);
      if field == "data" then data + value + "\n" else data
  }

  /** The events a client dispatches while reading `s`, given the current line and data buffer. */
  function Feed(s: string, line: string, data: string): seq<string>
    decreases |s|
  {
    if s == [] then []
    else if s[0] == '\n' || s[0] == '\r' then
      var rest := if s[0] == '\r' && |s| > 1 && s[1] == '\n' then s[2..] else s[1..];
      if line != [] then Feed(rest, [], ApplyLine(line, data))
      else if data == [] then Feed(rest, [], [])
      else [data[..|data| - 1]] + Feed(rest, [], [])
    else Feed(s[1..], line + [s[0]], data)
  }

  /** The events a fresh client dispatches for a whole stream. */
  function Events(s: string): seq<string>
  {
    Feed(s, [], [])
  }

  predicate IsDataFrame(f: string)
  {
    |f| >= 8 && f[..6] == "data: " && f[|f| - 2..] == "\n\n" && SingleLine(f[6..|f| - 2])
  }

  function DataOf(f: string): string
    requires IsDataFrame(f)
  {
    f[6..|f| - 2]
  }

  /** Each frame is a heartbeat or a single-line payload frame. */
  predicate WellFramed(frames: seq<string>)
  {
    forall i :: 0 <= i < |frames| ==> frames[i] == PingFrame || IsDataFrame(frames[i])
  }

  /** The payloads carried by a sequence of frames, heartbeats skipped. */
  function Payloads(frames: seq<string>): seq<string>
    requires WellFramed(frames)
  {
    if frames == [] then []
    else (if IsDataFrame(frames[0]) then [DataOf(frames[0])] else []) + Payloads(frames[1..])
  }

  function Concat(frames: seq<string>): string
  {
    if frames == [] then [] else frames[0] + Concat(frames[1..])
  }

  /** The heartbeat is not a payload frame. */
  lemma PingIsNotData()
    ensures !IsDataFrame(PingFrame)
  {
    assert PingFrame[..6] != "data: " by {
      assert PingFrame[0] == ':';
    }
  }

  lemma {:induction false} FeedChars(l: string, rest: string, line: string, data: string)
    requires SingleLine(l)
    ensures Feed(l + rest, line, data) == Feed(rest, line + l, data)
  {
    if l == [] {
      assert l + rest == rest;
      assert line + l == line;
    } else {
      assert (l + rest)[0] == l[0];
      assert (l + rest)[1..] == l[1..] + rest;
      FeedChars(l[1..], rest, line + [l[0]], data);
      assert line + [l[0]] + l[1..] == line + l;
    }
  }

  lemma {:induction false} SplitNamedField(name: string, rest: string)
    requires ':' !in name
    ensures SplitField(name + ":" + rest) == (name, StripLeadingSpace(rest))
  {
    if name == [] {
      assert name + ":" + rest == [':'] + rest;
    } else {
      assert (name + ":" + rest)[1..] == name[1..] + ":" + rest;
      SplitNamedField(name[1..], rest);
      assert [name[0]] + name[1..] == name;
    }
  }

  /** A line feed ends the current line: a blank line dispatches the buffered data. */
  lemma FeedLineFeed(rest: string, line: string, data: string)
    ensures Feed("\n" + rest, line, data)
            == if line != [] then Feed(rest, [], ApplyLine(line, data))
               else if data == [] then Feed(rest, [], [])
               else [data[..|data| - 1]] + Feed(rest, [], [])
  {
    assert ("\n" + rest)[0] == '\n';
    assert ("\n" + rest)[1..] == rest;
  }

  /** A payload frame dispatches exactly its payload, and leaves the client ready for the next frame. */
  lemma DataFrameEvent(p: string, rest: string)
    requires SingleLine(p)
    ensures Events(DataFrame(p) + rest) == [p] + Events(rest)
  {
    var l := "data: " + p;
    assert DataFrame(p) + rest == l + ("\n" + ("\n" + rest));
    FeedChars(l, "\n" + ("\n" + rest), [], []);
    assert [] + l == l;
    SplitNamedField("data", " " + p);
    assert l == "data" + ":" + (" " + p);
    assert ApplyLine(l, []) == p + "\n";
    FeedLineFeed("\n" + rest, l, []);
    FeedLineFeed(rest, [], p + "\n");
    assert (p + "\n")[..|p + "\n"| - 1] == p;
  }

  /** A heartbeat dispatches nothing: a conforming client ignores it. */
  lemma PingFrameEvent(rest: string)
    ensures Events(PingFrame + rest) == Events(rest)
  {
    assert PingFrame + rest == ":ping" + ("\n" + ("\n" + rest));
    FeedChars(":ping", "\n" + ("\n" + rest), [], []);
    assert [] + ":ping" == ":ping";
    FeedLineFeed("\n" + rest, ":ping", []);
    FeedLineFeed(rest, [], []);
  }

  /** A well-framed stream is read as exactly its payloads, in order. */
  lemma {:induction false} StreamEvents(frames: seq<string>, rest: string)
    requires WellFramed(frames)
    ensures Events(Concat(frames) + rest) == Payloads(frames) + Events(rest)
  {
    if frames == [] {
      assert Concat(frames) + rest == rest;
      assert Payloads(frames) + Events(rest) == Events(rest);
    } else {
      var f := frames[0];
      assert WellFramed(frames[1..]) by {
        assert forall i :: 0 <= i < |frames[1..]| ==> frames[1..][i] == frames[i + 1];
      }
      StreamEvents(frames[1..], rest);
      assert Concat(frames) + rest == f + (Concat(frames[1..]) + rest);
      if IsDataFrame(f) {
        assert f == DataFrame(DataOf(f)) by {
          assert f == f[..6] + f[6..|f| - 2] + f[|f| - 2..];
        }
        DataFrameEvent(DataOf(f), Concat(frames[1..]) + rest);
        assert Payloads(frames) == [DataOf(f)] + Payloads(frames[1..]);
        assert ([DataOf(f)] + Payloads(frames[1..])) + Events(rest)
               == [DataOf(f)] + (Payloads(frames[1..]) + Events(rest));
      } else {
        assert f == PingFrame;
        PingFrameEvent(Concat(frames[1..]) + rest);
        assert Payloads(frames) == [] + Payloads(frames[1..]);
        assert [] + Payloads(frames[1..]) == Payloads(frames[1..]);
      }
    }
  }

  lemma {:induction false} ConcatAppend(frames: seq<string>, f: string)
    ensures Concat(frames + [f]) == Concat(frames) + f
  {
    if frames == [] {
      assert [] + [f] == [f];
      assert Concat([f]) == f + Concat([]);
    } else {
      assert (frames + [f])[1..] == frames[1..] + [f];
      ConcatAppend(frames[1..], f);
    }
  }

  lemma AppendWellFramed(frames: seq<string>, f: string)
    requires WellFramed(frames) && (f == PingFrame || IsDataFrame(f))
    ensures WellFramed(frames + [f])
  {
    assert forall i :: 0 <= i < |frames| ==> (frames + [f])[i] == frames[i];
  }

  /** Appending a payload frame to a connection's output delivers exactly one more event: its payload. */
  lemma AppendDataFrame(frames: seq<string>, p: string)
    requires WellFramed(frames) && SingleLine(p)
    ensures WellFramed(frames + [DataFrame(p)])
    ensures Events(Concat(frames + [DataFrame(p)])) == Events(Concat(frames)) + [p]
  {
    ConcatAppend(frames, DataFrame(p));
    StreamEvents(frames, DataFrame(p));
    StreamEvents(frames, []);
    assert Concat(frames) + [] == Concat(frames);
    DataFrameEvent(p, []);
    assert DataFrame(p) + [] == DataFrame(p);
  }

  /** Appending a heartbeat delivers no event. */
  lemma AppendPing(frames: seq<string>)
    requires WellFramed(frames)
    ensures WellFramed(frames + [PingFrame])
    ensures Events(Concat(frames + [PingFrame])) == Events(Concat(frames))
  {
    ConcatAppend(frames, PingFrame);
    StreamEvents(frames, PingFrame);
    StreamEvents(frames, []);
    assert Concat(frames) + [] == Concat(frames);
    PingFrameEvent([]);
    assert PingFrame + [] == PingFrame;
  }
}
