// Trading-session windows (mt5-ai-bot/src/utils/timeutils.py): "H:MM"
// parsing, the per-window configuration records, and the test whether a
// local time of day falls inside any window, including windows that wrap
// past midnight. Times of day are microseconds since local midnight.

module TimeUtils {
  import opened Common

  const MicrosPerMinute: nat := 60_000_000
  const MicrosPerDay: nat := 24 * 60 * MicrosPerMinute

  /** A local time of day, as microseconds since midnight. */
  type TimeOfDay = t: nat | t < MicrosPerDay

  /** The time of day hour:minute:00.000000. */
  function ClockTime(hour: nat, minute: nat): (t: TimeOfDay)
    requires hour < 24 && minute < 60
    ensures t % MicrosPerMinute == 0
  {
    (hour * 60 + minute) * MicrosPerMinute
  }

  datatype SessionWindow = SessionWindow(name: string, start: TimeOfDay, end: TimeOfDay)

  /** Why a configured time or window was rejected (Python raises ValueError or KeyError). */
  datatype TimeError =
    | WrongFieldCount(value: string)
    | NotAnInteger(text: string)
    | OutOfRange(hour: int, minute: int)
    | MissingKey(key: string)

  /** Both ends are inclusive; a window whose start is after its end wraps past midnight. */
  predicate InWindow(w: SessionWindow, t: TimeOfDay)
  {
    if w.start <= w.end then w.start <= t <= w.end
    else t >= w.start || t <= w.end
  }

  /** is_in_session on a local time of day: true as soon as one window contains it. */
  function IsInSession(t: TimeOfDay, windows: seq<SessionWindow>): (inside: bool)
    ensures inside <==> exists w :: w in windows && InWindow(w, t)
  {
    if |windows| == 0 then false
    else if InWindow(windows[0], t) then true
    else
      assert forall w :: w in windows ==> w == windows[0] || w in windows[1..];
      IsInSession(t, windows[1..])
  }

  /** Reordering or repeating windows does not change the answer. */
  lemma SessionOrderIrrelevant(t: TimeOfDay, a: seq<SessionWindow>, b: seq<SessionWindow>)
    requires forall w :: w in a <==> w in b
    ensures IsInSession(t, a) == IsInSession(t, b)
  {
  }

  /** A window that wraps past midnight contains exactly the times outside the gap between its ends. */
  lemma WrappingWindow(w: SessionWindow, t: TimeOfDay)
    requires w.start > w.end
    ensures InWindow(w, t) <==> !(w.end < t < w.start)
  {
  }

  predicate IsDigit(c: char) { '0' <= c <= '9' }

  function DigitValue(c: char): nat
    requires IsDigit(c)
  {
    (c as int - '0' as int) as nat
  }

  function DigitChar(d: nat): (c: char)
    requires d < 10
    ensures IsDigit(c) && DigitValue(c) == d
  {
    ('0' as int + d) as char
  }

  /** The decimal value of a string of digits. */
  function DigitsValue(s: string): nat
    requires forall i :: 0 <= i < |s| ==> IsDigit(s[i])
  {
    if |s| == 0 then 0 else DigitsValue(s[..|s| - 1]) * 10 + DigitValue(s[|s| - 1])
  }

  /** Decimal text of a natural number, without leading zeros. */
  function NatText(n: nat): (s: string)
    ensures |s| > 0 && forall i :: 0 <= i < |s| ==> IsDigit(s[i])
  {
    if n < 10 then [DigitChar(n)] else NatText(n / 10) + [DigitChar(n % 10)]
  }

  lemma {:induction false} NatTextValue(n: nat)
    ensures DigitsValue(NatText(n)) == n
  {
    if n >= 10 {
      var s := NatText(n);
      assert s[..|s| - 1] == NatText(n / 10);
      NatTextValue(n / 10);
    }
  }

  /** Python's int() on the text of a field, restricted to plain digit strings. */
  function ParseInt(s: string): (r: Result<int, TimeError>)
    ensures r.Ok? <==> |s| > 0 && forall i :: 0 <= i < |s| ==> IsDigit(s[i])
    ensures r.Ok? ==> r.value >= 0
  {
    if |s| > 0 && forall i :: 0 <= i < |s| ==> IsDigit(s[i]) then Ok(DigitsValue(s))
    else Err(NotAnInteger(s))
  }

  /** Positions of ':' in a string. */
  function Colons(s: string): (ps: seq<nat>)
    ensures forall k :: 0 <= k < |ps| ==> ps[k] < |s| && s[ps[k]] == ':'
    ensures forall i :: 0 <= i < |s| && s[i] == ':' ==> i in ps
  {
    if |s| == 0 then []
    else
      var rest := Colons(s[..|s| - 1]);
      if s[|s| - 1] == ':' then rest + [|s| - 1] else rest
  }

  /**
   * _parse_time: "H:MM" split at its one colon, both parts read as integers
   * and checked as an hour and a minute. Anything but exactly one colon is
   * rejected.
   */
  function ParseTime(value: string): (r: Result<TimeOfDay, TimeError>)
    ensures |Colons(value)| != 1 ==> r == Err(WrongFieldCount(value))
    ensures r.Ok? ==> r.value % MicrosPerMinute == 0
  {
    var colons := Colons(value);
    if |colons| != 1 then Err(WrongFieldCount(value))
    else
      var hourText := value[..colons[0]];
      var minuteText := value[colons[0] + 1..];
      match ParseInt(hourText)
      case Err(e) => Err(e)
      case Ok(hour) =>
        match ParseInt(minuteText)
        case Err(e) => Err(e)
        case Ok(minute) =>
          if 0 <= hour < 24 && 0 <= minute < 60 then Ok(ClockTime(hour, minute))
          else Err(OutOfRange(hour, minute))
  }

  /** Two-digit text of a minute. */
  function MinuteText(m: nat): (s: string)
    requires m < 60
  {
    [DigitChar(m / 10), DigitChar(m % 10)]
  }

  /** The "H:MM" text of an hour and minute, the format the configuration uses. */
  function FormatTime(hour: nat, minute: nat): string
    requires hour < 24 && minute < 60
  {
    NatText(hour) + ":" + MinuteText(minute)
  }

  /** Every valid "H:MM" text parses back to its time of day. */
  lemma ParseFormatTime(hour: nat, minute: nat)
    requires hour < 24 && minute < 60
    ensures ParseTime(FormatTime(hour, minute)) == Ok(ClockTime(hour, minute))
  {
    var h := NatText(hour);
    var s := FormatTime(hour, minute);
    var m := MinuteText(minute);
    assert forall i :: 0 <= i < |h| ==> s[i] != ':';
    assert s[|h|] == ':';
    assert forall i :: |h| < i < |s| ==> s[i] != ':';
    assert Colons(s) == [|h|] by {
      ColonsUnique(s, |h|);
    }
    assert s[..|h|] == h;
    assert s[|h| + 1..] == m;
    NatTextValue(hour);
    assert m[..1] == [DigitChar(minute / 10)];
    assert DigitsValue(m) == minute;
  }

  /** A string with a single colon at position p has exactly that colon. */
  lemma {:induction false} ColonsUnique(s: string, p: nat)
    requires p < |s| && s[p] == ':'
    requires forall i :: 0 <= i < |s| && i != p ==> s[i] != ':'
    ensures Colons(s) == [p]
    decreases |s|
  {
    if |s| - 1 != p {
      ColonsUnique(s[..|s| - 1], p);
    } else {
      NoColons(s[..|s| - 1]);
    }
  }

  lemma {:induction false} NoColons(s: string)
    requires forall i :: 0 <= i < |s| ==> s[i] != ':'
    ensures Colons(s) == []
    decreases |s|
  {
    if |s| > 0 {
      NoColons(s[..|s| - 1]);
    }
  }

  /**
   * One configured window: "start" and "end" are required and parsed in
   * that order; "name" defaults to "session".
   */
  function WindowOf(entry: map<string, string>): (r: Result<SessionWindow, TimeError>)
    ensures "start" !in entry ==> r == Err(MissingKey("start"))
    ensures r.Ok? ==> r.value.name == (if "name" in entry then entry["name"] else "session")
    ensures r.Ok? ==> "start" in entry && "end" in entry
                      && ParseTime(entry["start"]) == Ok(r.value.start)
                      && ParseTime(entry["end"]) == Ok(r.value.end)
  {
    if "start" !in entry then Err(MissingKey("start"))
    else match ParseTime(entry["start"])
      case Err(e) => Err(e)
      case Ok(start) =>
        if "end" !in entry then Err(MissingKey("end"))
        else match ParseTime(entry["end"])
          case Err(e) => Err(e)
          case Ok(end) =>
            Ok(SessionWindow(if "name" in entry then entry["name"] else "session", start, end))
  }

  /**
   * parse_sessions without the time-zone lookup: one window per entry, in
   * order, or the error of the first entry that fails.
   */
  function ParseSessions(entries: seq<map<string, string>>): (r: Result<seq<SessionWindow>, TimeError>)
    ensures r.Ok? <==> forall i :: 0 <= i < |entries| ==> WindowOf(entries[i]).Ok?
    ensures r.Ok? ==> |r.value| == |entries|
                      && forall i :: 0 <= i < |entries| ==> WindowOf(entries[i]) == Ok(r.value[i])
    ensures r.Err? ==> exists i :: 0 <= i < |entries| && WindowOf(entries[i]) == Err(r.error)
                                   && forall j :: 0 <= j < i ==> WindowOf(entries[j]).Ok?
  {
    var parsed := seq(|entries|, i requires 0 <= i < |entries| => WindowOf(entries[i]));
    assert forall i :: 0 <= i < |entries| ==> parsed[i] == WindowOf(entries[i]);
    CollectOk(parsed);
    CollectFirstError(parsed);
    Collect(parsed)
  }

  /** The values of a sequence of results in order, or the first error among them. */
  function Collect<T, E>(rs: seq<Result<T, E>>): (r: Result<seq<T>, E>)
    ensures r.Ok? ==> |r.value| == |rs|
    decreases |rs|
  {
    if |rs| == 0 then Ok([])
    else
      match Collect(rs[..|rs| - 1])
      case Err(e) => Err(e)
      case Ok(vs) =>
        match rs[|rs| - 1]
        case Err(e) => Err(e)
        case Ok(v) => Ok(vs + [v])
  }

  /** Collecting succeeds exactly when every result is a value, and then keeps each value in place. */
  lemma {:induction false} CollectOk<T, E>(rs: seq<Result<T, E>>)
    ensures Collect(rs).Ok? <==> forall i :: 0 <= i < |rs| ==> rs[i].Ok?
    ensures Collect(rs).Ok? ==> forall i :: 0 <= i < |rs| ==> rs[i] == Ok(Collect(rs).value[i])
    decreases |rs|
  {
    if |rs| > 0 {
      var init := rs[..|rs| - 1];
      CollectOk(init);
      assert forall i :: 0 <= i < |init| ==> init[i] == rs[i];
    }
  }

  /** A failed collection reports the first error. */
  lemma {:induction false} CollectFirstError<T, E>(rs: seq<Result<T, E>>)
    ensures Collect(rs).Err? ==>
      exists i :: 0 <= i < |rs| && rs[i] == Err(Collect(rs).error) && forall j :: 0 <= j < i ==> rs[j].Ok?
    decreases |rs|
  {
    if Collect(rs).Ok? {
      return;
    }
    var last := |rs| - 1;
    var init := rs[..last];
    assert forall i :: 0 <= i < |init| ==> init[i] == rs[i];
    if Collect(init).Err? {
      CollectFirstError(init);
      var i :| 0 <= i < |init| && init[i] == Err(Collect(init).error) && forall j :: 0 <= j < i ==> init[j].Ok?;
      assert rs[i] == Err(Collect(rs).error);
    } else {
      CollectOk(init);
      assert rs[last] == Err(Collect(rs).error);
    }
  }
}
