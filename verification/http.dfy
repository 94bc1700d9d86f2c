/** What both Android `PollingThread`s share: how `getHTTP` turns the outcome
    of one request into a body string, and `now()`
    (android/src/pbg/oracle/app/PollingThread.java and
    android/app/src/main/java/pbg/oracle/app/PollingThread.java).

    The network is not modelled: an `Exchange` is the outcome of one request
    as the code observes it. */
module Http {
  import opened Wrappers

  /** The exceptions `getHTTP` catches, with their messages. */
  datatype Failure =
    | MalformedUrl(message: string)   // MalformedURLException
    | IO(message: string)             // IOException
    | Other(message: string)          // any other Exception

  /** The text appended to the body for a caught exception. */
  function FailureText(f: Failure): (s: string)
    ensures f.MalformedUrl? ==> s == "Error: Malformed URL - " + f.message
    ensures f.IO? ==> s == "IO Error: " + f.message
    ensures f.Other? ==> s == "Exception: " + f.message
  {
    match f
    case MalformedUrl(m) => "Error: Malformed URL - " + m
    case IO(m) => "IO Error: " + m
    case Other(m) => "Exception: " + m
  }

  /** A response stream: the lines `readLine` returns before it returns
      null, or before it throws `end`. */
  datatype Stream = Stream(lines: seq<string>, end: Option<Failure>)

  /** One request: it throws before a stream is chosen, or it answers with a
      status code, its input stream and its error stream. */
  datatype Exchange =
    | Failed(failure: Failure)
    | Answered(status: int, input: Stream, error: Stream)

  /** The stream `getHTTP` reads: the error stream for a status above 299. */
  function Selected(x: Exchange): (s: Stream)
    requires x.Answered?
    ensures x.status > 299 ==> s == x.error
    ensures x.status <= 299 ==> s == x.input
  {
    if x.status > 299 then x.error else x.input
  }

  /** Every line followed by "\n", in order. */
  function JoinLines(lines: seq<string>): string {
    if lines == [] then "" else lines[0] + "\n" + JoinLines(lines[1..])
  }

  lemma {:induction false} JoinLinesSnoc(lines: seq<string>, line: string)
    ensures JoinLines(lines + [line]) == JoinLines(lines) + line + "\n"
  {
    if lines == [] {
      assert lines + [line] == [line];
    } else {
      assert (lines + [line])[1..] == lines[1..] + [line];
      JoinLinesSnoc(lines[1..], line);
    }
  }

  /** The position of the first c in s. */
  function IndexOf(s: string, c: char): (i: nat)
    requires c in s
    ensures i < |s| && s[i] == c && c !in s[..i]
  {
    if s[0] == c then 0 else IndexOf(s[1..], c) + 1
  }

  /** The lines of a text, each ended by "\n"; text after the last "\n" is
      not a complete line and is dropped. */
  function SplitLines(s: string): seq<string>
    decreases |s|
  {
    if '\n' !in s then []
    else
      var i := IndexOf(s, '\n');
      [s[..i]] + SplitLines(s[i + 1..])
  }

  /** The body of a fully read stream gives back its lines: `readLine`
      never returns a line holding "\n", so splitting undoes the joining. */
  lemma {:induction false} SplitJoinLines(lines: seq<string>)
    requires forall k :: 0 <= k < |lines| ==> '\n' !in lines[k]
    ensures SplitLines(JoinLines(lines)) == lines
  {
    if lines != [] {
      var s := JoinLines(lines);
      var n := |lines[0]|;
      assert s == lines[0] + "\n" + JoinLines(lines[1..]);
      assert s[n] == '\n';
      assert s[..n] == lines[0];
      assert '\n' in s;
      var i := IndexOf(s, '\n');
      assert i == n;
      assert s[n + 1..] == JoinLines(lines[1..]);
      SplitJoinLines(lines[1..]);
      assert [lines[0]] + lines[1..] == lines;
    }
  }

  /** What reading a stream appends: every line and "\n", then the text of
      the exception that stopped the reading, if any. */
  function StreamText(s: Stream): string {
    JoinLines(s.lines) + (if s.end.Some? then FailureText(s.end.value) else "")
  }

  /** The body `getHTTP` returns for a request. */
  function Body(x: Exchange): string {
    match x
    case Failed(f) => FailureText(f)
    case Answered(_, _, _) => StreamText(Selected(x))
  }

  /** A body read without error is exactly the selected stream's lines, and
      an interrupted read keeps the lines read before the exception. */
  lemma BodyLines(x: Exchange)
    requires x.Answered?
    requires forall k :: 0 <= k < |Selected(x).lines| ==> '\n' !in Selected(x).lines[k]
    ensures Selected(x).end.None? ==> SplitLines(Body(x)) == Selected(x).lines
    ensures JoinLines(Selected(x).lines) <= Body(x)
  {
    assert Body(x) == StreamText(Selected(x));
    if Selected(x).end.None? {
      assert JoinLines(Selected(x).lines) + "" == JoinLines(Selected(x).lines);
      assert Body(x) == JoinLines(Selected(x).lines);
      SplitJoinLines(Selected(x).lines);
    }
  }

  /** The `readLine` loop and the catch blocks of `getHTTP` on one response:
      `result` is the StringBuilder. */
  method ReadStream(s: Stream) returns (result: string)
    ensures result == StreamText(s)
  {
    result := "";
    var i := 0;
    while i < |s.lines|
      invariant i <= |s.lines|
      invariant result == JoinLines(s.lines[..i])
    {
      JoinLinesSnoc(s.lines[..i], s.lines[i]);
      assert s.lines[..i + 1] == s.lines[..i] + [s.lines[i]];
      result := result + s.lines[i] + "\n";
      i := i + 1;
    }
    assert s.lines[..i] == s.lines;
    if s.end.Some? {
      result := result + FailureText(s.end.value);
    }
  }

  /** The part of `getHTTP` both clients share, from the response code on. */
  method ReadExchange(x: Exchange) returns (result: string)
    ensures result == Body(x)
  {
    match x
    case Failed(f) =>
      result := FailureText(f);
    case Answered(status, input, error) =>
      var reader := if status > 299 then error else input;
      result := ReadStream(reader);
  }

  // ---------------------------------------------------------------------
  // now()

  /** A wall-clock time of day, to the second. */
  datatype Time = Time(hour: nat, minute: nat, second: nat)

  predicate ValidTime(t: Time) {
    t.hour < 24 && t.minute < 60 && t.second < 60
  }

  function Digit(d: nat): (c: char)
    requires d < 10
    ensures '0' <= c <= '9'
  {
    ('0' as int + d) as char
  }

  /** A number below 100 as two digits, zero-padded. */
  function Pad2(n: nat): (s: string)
    requires n < 100
    ensures |s| == 2
  {
    [Digit(n / 10), Digit(n % 10)]
  }

  /** `now()`: the time formatted with the pattern "HH:mm:ss". */
  function FormatTime(t: Time): (s: string)
    requires ValidTime(t)
    ensures |s| == 8 && s[2] == ':' && s[5] == ':'
    ensures forall k :: 0 <= k < 8 && k != 2 && k != 5 ==> '0' <= s[k] <= '9'
  {
    Pad2(t.hour) + ":" + Pad2(t.minute) + ":" + Pad2(t.second)
  }

  function DigitValue(c: char): Option<nat> {
    if '0' <= c <= '9' then Some(c as int - '0' as int) else None
  }

  function Parse2(s: string): Option<nat>
    requires |s| == 2
  {
    match (DigitValue(s[0]), DigitValue(s[1]))
    case (Some(a), Some(b)) => Some(10 * a + b)
    case _ => None
  }

  /** Reading "HH:mm:ss" back. */
  function ParseTime(s: string): (r: Option<Time>)
    ensures r.Some? ==> ValidTime(r.value)
  {
    if |s| != 8 || s[2] != ':' || s[5] != ':' then None
    else
      match (Parse2(s[0..2]), Parse2(s[3..5]), Parse2(s[6..8]))
      case (Some(h), Some(m), Some(sec)) =>
        if h < 24 && m < 60 && sec < 60 then Some(Time(h, m, sec)) else None
      case _ => None
  }

  /** The formatted time determines the time: reading it back gives it. */
  lemma ParseFormatTime(t: Time)
    requires ValidTime(t)
    ensures ParseTime(FormatTime(t)) == Some(t)
  {
    var s := FormatTime(t);
    assert s[0..2] == Pad2(t.hour);
    assert s[3..5] == Pad2(t.minute);
    assert s[6..8] == Pad2(t.second);
  }

  // ---------------------------------------------------------------------
  // The polling loop

  /** Which rounds' `Thread.sleep` throws, in order; `interrupted` reads
      that out of whatever a client's round records. */
  function SleepThrows<R>(rounds: seq<R>, interrupted: R -> bool): (s: seq<bool>)
    ensures |s| == |rounds| && forall i :: 0 <= i < |rounds| ==> s[i] == interrupted(rounds[i])
  {
    seq(|rounds|, i requires 0 <= i < |rounds| => interrupted(rounds[i]))
  }

  /** The index of the first round whose `Thread.sleep` throws. */
  function FirstThrow(sleepThrows: seq<bool>): (i: nat)
    requires true in sleepThrows
    ensures i < |sleepThrows| && sleepThrows[i] && true !in sleepThrows[..i]
  {
    if sleepThrows[0] then 0 else FirstThrow(sleepThrows[1..]) + 1
  }
}
