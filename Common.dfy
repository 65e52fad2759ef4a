/** Definitions shared by the remix edge function and the page that calls it:
    the log entry both sides exchange, an optional value, and the decimal
    rendering that JavaScript template literals apply to numbers. */
module Common {

  datatype Option<+T> = None | Some(value: T)

  /** The four severities a log line can carry ("info" | "success" | "error" | "warning"). */
  datatype Kind = Info | Success | Error | Warning

  /** One line of the progress log: a message and its severity. */
  datatype LogEntry<+M> = LogEntry(message: M, kind: Kind)

  function Last<T>(s: seq<T>): T
    requires s != []
  {
    s[|s| - 1]
  }

  /** The entries of `logs` that are warnings, in their original order. */
  function Warnings<M>(logs: seq<LogEntry<M>>): (w: seq<LogEntry<M>>)
    ensures |w| <= |logs|
    ensures forall i :: 0 <= i < |w| ==> w[i].kind == Warning
    decreases |logs|
  {
    if logs == [] then []
    else if Last(logs).kind == Warning then Warnings(logs[..|logs| - 1]) + [Last(logs)]
    else Warnings(logs[..|logs| - 1])
  }

  lemma {:induction false} WarningsAppend<M>(a: seq<LogEntry<M>>, b: seq<LogEntry<M>>)
    ensures Warnings(a + b) == Warnings(a) + Warnings(b)
    decreases |b|
  {
    if b == [] {
      assert a + b == a;
    } else {
      assert (a + b)[..|a + b| - 1] == a + b[..|b| - 1];
      WarningsAppend(a, b[..|b| - 1]);
    }
  }

  /** A log without warnings has none to report. */
  lemma {:induction false} WarningsNone<M>(logs: seq<LogEntry<M>>)
    requires forall i :: 0 <= i < |logs| ==> logs[i].kind != Warning
    ensures Warnings(logs) == []
    decreases |logs|
  {
    if logs != [] {
      WarningsNone(logs[..|logs| - 1]);
    }
  }

  /** A log of warnings only is reported whole. */
  lemma {:induction false} WarningsAll<M>(logs: seq<LogEntry<M>>)
    requires forall i :: 0 <= i < |logs| ==> logs[i].kind == Warning
    ensures Warnings(logs) == logs
    decreases |logs|
  {
    if logs != [] {
      WarningsAll(logs[..|logs| - 1]);
      assert logs[..|logs| - 1] + [Last(logs)] == logs;
    }
  }

  predicate IsDigit(c: char) {
    '0' <= c <= '9'
  }

  /** The decimal digits of `n`, as `${n}` renders a non-negative integer. */
  function Decimal(n: nat): (s: string)
    ensures |s| > 0
    ensures forall i :: 0 <= i < |s| ==> IsDigit(s[i])
    ensures |s| > 1 ==> s[0] != '0'
    decreases n
  {
    if n < 10 then [Digit(n)] else Decimal(n / 10) + [Digit(n % 10)]
  }

  function Digit(d: nat): (c: char)
    requires d < 10
    ensures IsDigit(c) && c as int - '0' as int == d
  {
    (d + '0' as int) as char
  }

  function DigitValue(c: char): (d: nat)
    requires IsDigit(c)
    ensures d < 10
  {
    c as int - '0' as int
  }

  /** The number a string of decimal digits denotes. */
  function DecimalValue(s: string): nat
    requires forall i :: 0 <= i < |s| ==> IsDigit(s[i])
    decreases |s|
  {
    if s == [] then 0
    else DecimalValue(s[..|s| - 1]) * 10 + DigitValue(s[|s| - 1])
  }

  /** Reading back the rendered digits gives the number again. */
  lemma {:induction false} DecimalRoundTrip(n: nat)
    ensures DecimalValue(Decimal(n)) == n
    decreases n
  {
    var s := Decimal(n);
    if n >= 10 {
      DecimalRoundTrip(n / 10);
      assert s[..|s| - 1] == Decimal(n / 10);
    }
  }
}
