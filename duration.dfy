/** `format_duration` (utils.py): a whole number of seconds as text such as
    "2m 5s" or "1h 1m". */
module Duration {
  import opened Wrappers
  import opened Text

  /** One shown component: an amount and its unit letter. */
  datatype Part = Part(amount: int, unit: char)

  predicate IsUnit(u: char) { u == 'h' || u == 'm' || u == 's' }

  /** Position of a unit in the fixed display order h, m, s. */
  function UnitRank(u: char): nat { if u == 'h' then 0 else if u == 'm' then 1 else 2 }

  function UnitSeconds(u: char): int { if u == 'h' then 3600 else if u == 'm' then 60 else 1 }

  // `minutes, seconds = divmod(seconds, 60)` and `hours, minutes = divmod(minutes, 60)`.
  // Python's divmod floors; for the positive divisor 60 that is Dafny's
  // Euclidean `/` and `%`, negative inputs included.
  // Together they decompose the input exactly.
  function Hours(n: int): (h: int)
    ensures n == h * 3600 + Minutes(n) * 60 + Secs(n)
    ensures n >= 0 ==> h == n / 3600
  {
    n / 60 / 60
  }

  function Minutes(n: int): (m: int)
    ensures 0 <= m < 60
  {
    n / 60 % 60
  }

  function Secs(n: int): (s: int)
    ensures 0 <= s < 60
  {
    n % 60
  }

  /** The components shown for a non-zero input: each non-zero one in the
      order h, m, s, where the seconds are shown only when there are no hours. */
  function Parts(n: int): (ps: seq<Part>)
    ensures forall k :: 0 <= k < |ps| ==> ps[k].amount != 0 && IsUnit(ps[k].unit)
    ensures forall j, k :: 0 <= j < k < |ps| ==> UnitRank(ps[j].unit) < UnitRank(ps[k].unit)
    ensures forall k :: 0 <= k < |ps| && ps[k].unit == 's' ==> Hours(n) == 0
    ensures n != 0 <==> |ps| > 0
  {
    (if Hours(n) != 0 then [Part(Hours(n), 'h')] else [])
    + (if Minutes(n) != 0 then [Part(Minutes(n), 'm')] else [])
    + (if Secs(n) != 0 && Hours(n) == 0 then [Part(Secs(n), 's')] else [])
  }

  /** `f"{amount}{unit}"`: at least one digit (after a possible minus sign)
      and the unit letter last, never a space. */
  function Show(p: Part): (text: string)
    ensures |text| >= 2 && text[|text| - 1] == p.unit
    ensures IsDigit(text[|text| - 2])
    ensures forall k :: 0 <= k < |text| - 1 ==> text[k] == '-' || IsDigit(text[k])
    ensures IsUnit(p.unit) ==> ' ' !in text
  {
    IntToString(p.amount) + [p.unit]
  }

  function Shows(ps: seq<Part>): (texts: seq<string>)
    ensures |texts| == |ps|
    ensures forall k :: 0 <= k < |ps| ==> texts[k] == Show(ps[k])
  {
    if ps == [] then [] else [Show(ps[0])] + Shows(ps[1..])
  }

  /** The components joined by single spaces: empty exactly when there are
      none, starting with the first component and ending with the last unit. */
  function Render(ps: seq<Part>): (text: string)
    ensures text == "" <==> ps == []
    ensures ps != [] ==> |text| >= |Show(ps[0])| && text[..|Show(ps[0])|] == Show(ps[0])
  {
    Join(Shows(ps), " ")
  }

  /** The number of seconds a list of components stands for. */
  function Value(ps: seq<Part>): int
  {
    if ps == [] then 0 else ps[0].amount * UnitSeconds(ps[0].unit) + Value(ps[1..])
  }

  method FormatDuration(seconds: Option<int>) returns (text: string)
    ensures seconds == None || seconds == Some(0) ==> text == "0s"
    ensures seconds.Some? && seconds.value != 0 ==> text == Render(Parts(seconds.value))
    ensures text != ""
  {
    if seconds == None || seconds == Some(0) {
      return "0s";
    }
    var n := seconds.value;
    var minutes, secs := n / 60, n % 60;
    var hours;
    hours, minutes := minutes / 60, minutes % 60;
    var result: seq<string> := [];
    if hours != 0 {
      result := result + [IntToString(hours) + "h"];
    }
    if minutes != 0 {
      result := result + [IntToString(minutes) + "m"];
    }
    if secs != 0 && hours == 0 {
      result := result + [IntToString(secs) + "s"];
    }
    assert result == Shows(Parts(n));
    text := Join(result, " ");
  }

  // ---- Reading a rendered duration back ----

  /** One token "<int><unit>". */
  function ParsePart(token: string): Option<Part>
  {
    if |token| >= 2 && IsUnit(token[|token| - 1]) then
      match ParseInt(token[..|token| - 1])
      case Some(a) => Some(Part(a, token[|token| - 1]))
      case None => None
    else None
  }

  function ParseParts(tokens: seq<string>): Option<seq<Part>>
  {
    if tokens == [] then Some([])
    else
      match (ParsePart(tokens[0]), ParseParts(tokens[1..]))
      case (Some(p), Some(ps)) => Some([p] + ps)
      case _ => None
  }

  /** The components a duration text spells out, if it is well formed. */
  function ParseDuration(text: string): Option<seq<Part>>
  {
    ParseParts(Split(text, ' '))
  }

  lemma ParseShow(p: Part)
    requires IsUnit(p.unit)
    ensures ParsePart(Show(p)) == Some(p)
  {
    var t := Show(p);
    assert t[..|t| - 1] == IntToString(p.amount);
    ParseIntToString(p.amount);
  }

  lemma {:induction false} ParseShows(ps: seq<Part>)
    requires forall k :: 0 <= k < |ps| ==> IsUnit(ps[k].unit)
    ensures ParseParts(Shows(ps)) == Some(ps)
  {
    if ps != [] {
      ParseShow(ps[0]);
      ParseShows(ps[1..]);
      assert Shows(ps)[1..] == Shows(ps[1..]);
      assert [ps[0]] + ps[1..] == ps;
    }
  }

  /** A rendering is unambiguous: reading it back gives the same components. */
  lemma RenderRoundTrip(ps: seq<Part>)
    requires |ps| > 0
    requires forall k :: 0 <= k < |ps| ==> IsUnit(ps[k].unit)
    ensures ParseDuration(Render(ps)) == Some(ps)
  {
    var texts := Shows(ps);
    forall k | 0 <= k < |texts| ensures ' ' !in texts[k] {
      var t := IntToString(ps[k].amount);
      assert texts[k] == t + [ps[k].unit];
      assert forall i :: 0 <= i < |t| ==> t[i] == '-' || IsDigit(t[i]);
    }
    SplitJoin(texts, ' ');
    ParseShows(ps);
  }

  /** What the components are worth: the input exactly, except that the
      seconds are lost when there are hours. */
  lemma PartsValue(n: int)
    ensures Value(Parts(n)) == if Hours(n) != 0 then n - Secs(n) else n
  {
    var h, m, s := Hours(n), Minutes(n), Secs(n);
    assert n == h * 3600 + m * 60 + s;
    var H: seq<Part> := if h != 0 then [Part(h, 'h')] else [];
    var M: seq<Part> := if m != 0 then [Part(m, 'm')] else [];
    var S: seq<Part> := if s != 0 && h == 0 then [Part(s, 's')] else [];
    ValueAppend(H, M + S);
    ValueAppend(M, S);
    assert H + M + S == H + (M + S);
  }

  lemma {:induction false} ValueAppend(a: seq<Part>, b: seq<Part>)
    ensures Value(a + b) == Value(a) + Value(b)
  {
    if a == [] {
      assert a + b == b;
    } else {
      assert (a + b)[0] == a[0] && (a + b)[1..] == a[1..] + b;
      ValueAppend(a[1..], b);
    }
  }

  /** Reading the formatted text of any non-zero input gives back the input
      when it is under an hour (in magnitude), and the input rounded down to
      a whole minute otherwise. */
  lemma FormatReadsBack(n: int)
    requires n != 0
    ensures ParseDuration(Render(Parts(n))) == Some(Parts(n))
    ensures Value(Parts(n)) == if 0 < n < 3600 then n else n - n % 60
    ensures n >= 0 ==> n - 60 < Value(Parts(n)) <= n
  {
    RenderRoundTrip(Parts(n));
    PartsValue(n);
  }

  /** Under an hour: no hours component, and the minutes and seconds shown
      are exactly `n / 60` and `n % 60`. */
  lemma BelowAnHour(n: int)
    requires 0 < n < 3600
    ensures Parts(n) == (if n / 60 != 0 then [Part(n / 60, 'm')] else [])
                        + (if n % 60 != 0 then [Part(n % 60, 's')] else [])
  {
  }

  /** From an hour up: "<n/3600>h", then " <(n%3600)/60>m" when that is not
      zero, and never any seconds. */
  lemma FromAnHour(n: int)
    requires n >= 3600
    ensures Parts(n) == [Part(n / 3600, 'h')]
                        + (if n % 3600 / 60 != 0 then [Part(n % 3600 / 60, 'm')] else [])
  {
  }

  /** The text written for zero reads back as a single zero component worth
      0 seconds. */
  lemma ZeroReadsBack()
    ensures ParseDuration("0s") == Some([Part(0, 's')])
    ensures Value([Part(0, 's')]) == 0
  {
    assert IntToString(0) == "0" && Show(Part(0, 's')) == "0s";
    assert Shows([Part(0, 's')]) == ["0s"];
    assert Render([Part(0, 's')]) == "0s";
    RenderRoundTrip([Part(0, 's')]);
  }

  /** 45 seconds: "45s". */
  lemma ExampleSeconds()
    ensures Render(Parts(45)) == "45s"
  {
    assert NatToString(45) == "45";
    assert Parts(45) == [Part(45, 's')];
    assert Show(Part(45, 's')) == "45s";
    assert Shows([Part(45, 's')]) == ["45s"];
  }

  /** 125 seconds: "2m 5s". */
  lemma ExampleMinutes()
    ensures Render(Parts(125)) == "2m 5s"
  {
    assert Parts(125) == [Part(2, 'm'), Part(5, 's')];
    assert Show(Part(2, 'm')) == "2m" && Show(Part(5, 's')) == "5s";
    assert Shows([Part(2, 'm'), Part(5, 's')]) == ["2m", "5s"];
    var texts := ["2m", "5s"];
    assert texts[1..] == ["5s"];
    assert Join(texts, " ") == "2m 5s";
  }

  /** 3600 seconds: "1h". */
  lemma ExampleHour()
    ensures Render(Parts(3600)) == "1h"
  {
    assert Parts(3600) == [Part(1, 'h')];
    assert Show(Part(1, 'h')) == "1h";
    assert Shows([Part(1, 'h')]) == ["1h"];
  }

  /** 3661 seconds: "1h 1m", the second dropped. */
  lemma ExampleHourMinute()
    ensures Render(Parts(3661)) == "1h 1m"
  {
    assert Parts(3661) == [Part(1, 'h'), Part(1, 'm')];
    assert Show(Part(1, 'h')) == "1h" && Show(Part(1, 'm')) == "1m";
    assert Shows([Part(1, 'h'), Part(1, 'm')]) == ["1h", "1m"];
    var texts := ["1h", "1m"];
    assert texts[1..] == ["1m"];
    assert Join(texts, " ") == "1h 1m";
  }

}
