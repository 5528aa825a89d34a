/** The message and subject that `send_alert` in lambda/predictor.py composes for publication. */
module AlertMessage {
  import opened Wrappers
  import opened Risk
  import opened Decimal
  import opened Classifier

  const SIREN: string := "\U{1F6A8}"

  /** The five lines before the numbered alerts. */
  function HeaderLines(risk: Level, timestamp: string): seq<string>
  {
    [SIREN + " DISASTER EARLY WARNING SYSTEM " + SIREN,
     "Risk Level: " + Name(risk),
     "Time: " + timestamp,
     "",
     "ALERTS:"]
  }

  /** How a reading is printed: its rendering, or "N/A" when the event lacks it. */
  function ReadingText(o: Option<real>, render: real -> string): string
  {
    match o
    case Some(x) => render(x)
    case None => "N/A"
  }

  /** The eight lines after the numbered alerts. */
  function FooterLines(r: Readings, render: real -> string): seq<string>
  {
    ["",
     "SENSOR DATA:",
     "\U{1F4A7} Water Level: " + ReadingText(r.waterLevel, render) + " meters",
     "\U{1F4F3} Vibration: " + ReadingText(r.vibration, render) + " magnitude",
     "\U{1F327}\U{FE0F} Rainfall: " + ReadingText(r.rainfall, render) + " mm",
     "\U{1F4A8} Wind: " + ReadingText(r.windSpeed, render) + " km/h",
     "",
     "Take appropriate action immediately!"]
  }

  /** Alert `alert` shown as item number `i`. */
  function NumberedLine(i: nat, alert: string): string
  {
    NatToString(i) + ". " + alert
  }

  /** The alerts numbered consecutively from `first`. */
  function NumberedFrom(alerts: seq<string>, first: nat): seq<string>
    decreases |alerts|
  {
    if alerts == [] then [] else [NumberedLine(first, alerts[0])] + NumberedFrom(alerts[1..], first + 1)
  }

  /** All lines of the message. */
  function MessageLines(alerts: seq<string>, risk: Level, timestamp: string, r: Readings,
                        render: real -> string): seq<string>
  {
    HeaderLines(risk, timestamp) + NumberedFrom(alerts, 1) + FooterLines(r, render)
  }

  /** The lines joined with `sep` between consecutive ones. */
  function Join(lines: seq<string>, sep: string): string
    decreases |lines|
  {
    if |lines| == 0 then ""
    else if |lines| == 1 then lines[0]
    else lines[0] + sep + Join(lines[1..], sep)
  }

  /** Cuts `s` at every occurrence of `c`, as Python's `str.split` with a one-character separator. */
  function Split(s: string, c: char): (parts: seq<string>)
    ensures |parts| >= 1
    decreases |s|
  {
    if |s| == 0 then [""]
    else if s[0] == c then [""] + Split(s[1..], c)
    else var rest := Split(s[1..], c); [[s[0]] + rest[0]] + rest[1..]
  }

  /** A piece free of the separator, followed by the separator, splits off as one part. */
  lemma {:induction false} SplitPiece(a: string, c: char, b: string)
    requires c !in a
    ensures Split(a + [c] + b, c) == [a] + Split(b, c)
    decreases |a|
  {
    if |a| > 0 {
      assert (a + [c] + b)[1..] == a[1..] + [c] + b;
      SplitPiece(a[1..], c, b);
      assert [a[0]] + a[1..] == a;
    } else {
      assert a + [c] + b == [c] + b;
    }
  }

  /** A piece free of the separator splits into itself alone. */
  lemma {:induction false} SplitNone(a: string, c: char)
    requires c !in a
    ensures Split(a, c) == [a]
    decreases |a|
  {
    if |a| > 0 {
      SplitNone(a[1..], c);
      assert [a[0]] + a[1..] == a;
    }
  }

  /** Joining lines that hold no newline and splitting the result at newlines gives the lines back,
      so each line of the published message is one of the composed parts. */
  lemma {:induction false} SplitJoin(lines: seq<string>, c: char)
    requires |lines| >= 1
    requires forall k :: 0 <= k < |lines| ==> c !in lines[k]
    ensures Split(Join(lines, [c]), c) == lines
    decreases |lines|
  {
    if |lines| == 1 {
      SplitNone(lines[0], c);
    } else {
      SplitJoin(lines[1..], c);
      SplitPiece(lines[0], c, Join(lines[1..], [c]));
      assert [lines[0]] + lines[1..] == lines;
    }
  }

  /** The subject line: the risk level and the number of warnings. */
  function Subject(risk: Level, count: nat): string
  {
    SIREN + " " + Name(risk) + " DISASTER ALERT - " + NatToString(count) + " Warning(s)"
  }

  /** Numbering one more alert extends the numbered list by one line. */
  lemma {:induction false} NumberedFromSnoc(alerts: seq<string>, x: string, first: nat)
    ensures NumberedFrom(alerts + [x], first) == NumberedFrom(alerts, first) + [NumberedLine(first + |alerts|, x)]
    decreases |alerts|
  {
    if alerts != [] {
      assert (alerts + [x])[1..] == alerts[1..] + [x];
      NumberedFromSnoc(alerts[1..], x, first + 1);
    }
  }

  /** The k-th numbered line carries the number `first + k` and the k-th alert. */
  lemma {:induction false} NumberedFromAt(alerts: seq<string>, first: nat, k: nat)
    requires k < |alerts|
    ensures |NumberedFrom(alerts, first)| == |alerts|
    ensures NumberedFrom(alerts, first)[k] == NumberedLine(first + k, alerts[k])
    decreases |alerts|
  {
    if k > 0 {
      NumberedFromAt(alerts[1..], first + 1, k - 1);
    } else if |alerts| > 1 {
      NumberedFromAt(alerts[1..], first + 1, 0);
    }
  }

  /** The message lists the alerts numbered 1..n in their original order, between the header and
      the sensor-data footer. */
  lemma MessageLayout(alerts: seq<string>, risk: Level, timestamp: string, r: Readings,
                      render: real -> string)
    ensures |MessageLines(alerts, risk, timestamp, r, render)| == 5 + |alerts| + 8
    ensures MessageLines(alerts, risk, timestamp, r, render)[..5] == HeaderLines(risk, timestamp)
    ensures MessageLines(alerts, risk, timestamp, r, render)[1] == "Risk Level: " + Name(risk)
    ensures forall k :: 0 <= k < |alerts| ==>
      MessageLines(alerts, risk, timestamp, r, render)[5 + k] == NumberedLine(k + 1, alerts[k])
    ensures MessageLines(alerts, risk, timestamp, r, render)[5 + |alerts|..] == FooterLines(r, render)
  {
    var lines := MessageLines(alerts, risk, timestamp, r, render);
    if alerts != [] {
      NumberedFromAt(alerts, 1, 0);
    }
    forall k | 0 <= k < |alerts|
      ensures lines[5 + k] == NumberedLine(k + 1, alerts[k])
    {
      NumberedFromAt(alerts, 1, k);
    }
  }

  /** The subject determines the risk level and the warning count it was made from. */
  lemma SubjectDetermines(risk1: Level, count1: nat, risk2: Level, count2: nat)
    requires Subject(risk1, count1) == Subject(risk2, count2)
    ensures risk1 == risk2 && count1 == count2
  {
    var s := Subject(risk1, count1);
    assert s[2] == Name(risk1)[0];
    assert s[2] == Name(risk2)[0];
    NameDeterminesLevel(risk1, risk2);
    var prefix := SIREN + " " + Name(risk1) + " DISASTER ALERT - ";
    var suffix := " Warning(s)";
    assert s == prefix + NatToString(count1) + suffix;
    assert s == prefix + NatToString(count2) + suffix;
    assert NatToString(count1) == s[|prefix|..|s| - |suffix|];
    assert NatToString(count2) == s[|prefix|..|s| - |suffix|];
    NatToStringInjective(count1, count2);
  }

  /** No header, numbered or footer line holds a newline of its own making. */
  lemma HeaderHasNoNewline(risk: Level, timestamp: string, k: nat)
    requires '\n' !in timestamp && k < 5
    ensures '\n' !in HeaderLines(risk, timestamp)[k]
  {
  }

  lemma FooterHasNoNewline(r: Readings, render: real -> string, k: nat)
    requires forall x :: '\n' !in render(x)
    requires k < 8
    ensures '\n' !in FooterLines(r, render)[k]
  {
  }

  lemma NumberedLineHasNoNewline(i: nat, alert: string)
    requires '\n' !in alert
    ensures '\n' !in NumberedLine(i, alert)
  {
  }

  /** When the timestamp, the alerts and the rendered readings hold no newline, splitting the joined
      message at newlines gives back exactly the composed lines. */
  lemma MessageSplitsIntoLines(alerts: seq<string>, risk: Level, timestamp: string, r: Readings,
                               render: real -> string)
    requires '\n' !in timestamp
    requires forall k :: 0 <= k < |alerts| ==> '\n' !in alerts[k]
    requires forall x :: '\n' !in render(x)
    ensures Split(Join(MessageLines(alerts, risk, timestamp, r, render), "\n"), '\n')
         == MessageLines(alerts, risk, timestamp, r, render)
  {
    var lines := MessageLines(alerts, risk, timestamp, r, render);
    MessageLayout(alerts, risk, timestamp, r, render);
    forall k | 0 <= k < |lines|
      ensures '\n' !in lines[k]
    {
      if k < 5 {
        HeaderHasNoNewline(risk, timestamp, k);
      } else if k < 5 + |alerts| {
        NumberedLineHasNoNewline(k - 4, alerts[k - 5]);
      } else {
        FooterHasNoNewline(r, render, k - 5 - |alerts|);
      }
    }
    SplitJoin(lines, '\n');
  }

  /** Builds `message_parts` as the source does: the header, one appended line per alert numbered
      from 1, then the footer. */
  method ComposeMessageParts(alerts: seq<string>, risk: Level, timestamp: string, r: Readings,
                             render: real -> string)
    returns (parts: seq<string>)
    ensures parts == MessageLines(alerts, risk, timestamp, r, render)
  {
    parts := HeaderLines(risk, timestamp);
    for i := 1 to |alerts| + 1
      invariant parts == HeaderLines(risk, timestamp) + NumberedFrom(alerts[..i - 1], 1)
    {
      NumberedFromSnoc(alerts[..i - 1], alerts[i - 1], 1);
      assert alerts[..i] == alerts[..i - 1] + [alerts[i - 1]];
      parts := parts + [NumberedLine(i, alerts[i - 1])];
    }
    assert alerts[..|alerts|] == alerts;
    parts := parts + FooterLines(r, render);
  }
}
