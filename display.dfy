/**
 * What the dashboard derives for display from the session's solve times and
 * from the stats summary: the recent-times list, the two-decimal seconds
 * text, and the stat cards that show "--" for a missing or zero value.
 * Times are integer centiseconds.
 */
module Display {
  import opened Options

  /** How many recent times the list shows. */
  const RecentLimit: nat := 10

  /** One line of the recent-times list: its "#N" number and the time. */
  datatype Row = Row(number: nat, time: int)

  /** The list shows a placeholder when there are no times, rows otherwise. */
  datatype RecentView = NoTimesYet | Listed(rows: seq<Row>)

  function Min(a: nat, b: nat): nat
  {
    if a <= b then a else b
  }

  /** The last n elements of s, or all of s when it is shorter. */
  function LastN<T>(s: seq<T>, n: nat): (r: seq<T>)
    ensures |r| == Min(n, |s|)
    ensures forall k :: 0 <= k < |r| ==> r[k] == s[|s| - |r| + k]
  {
    s[|s| - Min(n, |s|)..]
  }

  function Reverse<T>(s: seq<T>): (r: seq<T>)
    ensures |r| == |s|
    ensures forall k :: 0 <= k < |s| ==> r[k] == s[|s| - 1 - k]
  {
    if |s| == 0 then [] else Reverse(s[1..]) + [s[0]]
  }

  /**
   * The recent-times list: the last ten times, most recent first, each
   * numbered by its position counted from the oldest time of the session.
   */
  function RecentTimes(times: seq<int>): (v: RecentView)
    ensures v.NoTimesYet? <==> |times| == 0
    ensures v.Listed? ==> |v.rows| == Min(RecentLimit, |times|)
    ensures v.Listed? ==> forall i :: 0 <= i < |v.rows| ==>
      v.rows[i] == Row(|times| - i, times[|times| - 1 - i])
  {
    if |times| == 0 then NoTimesYet
    else
      var recent := Reverse(LastN(times, RecentLimit));
      Listed(seq(|recent|, i requires 0 <= i < |recent| => Row(|times| - i, recent[i])))
  }

  /** Rows are numbered downwards from the number of times, one apart. */
  lemma RecentLabels(times: seq<int>)
    requires |times| > 0
    ensures var rows := RecentTimes(times).rows;
      && rows[0] == Row(|times|, times[|times| - 1])
      && forall i :: 0 < i < |rows| ==> rows[i].number + 1 == rows[i - 1].number && rows[i].number >= 1
  {
  }

  function DigitChar(d: nat): char
    requires d < 10
  {
    "0123456789"[d]
  }

  function CharDigit(c: char): Option<nat>
  {
    if '0' <= c <= '9' then Some((c - '0') as nat) else None
  }

  lemma DigitRoundTrip(d: nat)
    requires d < 10
    ensures CharDigit(DigitChar(d)) == Some(d)
  {
  }

  /** Decimal digits of a natural number, without leading zeros. */
  function NatText(n: nat): string
    decreases n
  {
    if n < 10 then [DigitChar(n)] else NatText(n / 10) + [DigitChar(n % 10)]
  }

  function ParseNat(s: string): Option<nat>
    decreases |s|
  {
    if |s| == 0 then None
    else match CharDigit(s[|s| - 1])
      case None => None
      case Some(d) =>
        if |s| == 1 then Some(d)
        else match ParseNat(s[..|s| - 1])
          case None => None
          case Some(n) => Some(10 * n + d)
  }

  lemma {:induction false} NatTextRoundTrip(n: nat)
    ensures |NatText(n)| >= 1
    ensures ParseNat(NatText(n)) == Some(n)
    decreases n
  {
    if n < 10 {
      DigitRoundTrip(n);
    } else {
      NatTextRoundTrip(n / 10);
      var s := NatText(n);
      assert s[..|s| - 1] == NatText(n / 10);
      DigitRoundTrip(n % 10);
    }
  }

  /** A time shown to two decimal places of a second, as the timer and the lists show it. */
  function SecondsText(c: nat): string
  {
    NatText(c / 100) + "." + [DigitChar(c / 10 % 10), DigitChar(c % 10)]
  }

  function ParseSeconds(s: string): Option<nat>
  {
    if |s| < 4 || s[|s| - 3] != '.' then None
    else match (ParseNat(s[..|s| - 3]), CharDigit(s[|s| - 2]), CharDigit(s[|s| - 1]))
      case (Some(w), Some(a), Some(b)) => Some(100 * w + 10 * a + b)
      case _ => None
  }

  /** The seconds text loses nothing: reading it back gives the centiseconds. */
  lemma SecondsTextRoundTrip(c: nat)
    ensures ParseSeconds(SecondsText(c)) == Some(c)
  {
    var s := SecondsText(c);
    NatTextRoundTrip(c / 100);
    assert s[..|s| - 3] == NatText(c / 100);
    DigitRoundTrip(c / 10 % 10);
    DigitRoundTrip(c % 10);
  }

  /** A stat card's value text: the time with an "s" when positive, "--" otherwise. */
  function StatText(value: int): string
  {
    if value > 0 then SecondsText(value) + "s" else "--"
  }

  lemma StatTextRule(value: int)
    ensures StatText(value) == "--" <==> !(value > 0)
    ensures value > 0 ==> var t := StatText(value);
      t[|t| - 1] == 's' && ParseSeconds(t[..|t| - 1]) == Some(value)
  {
    if value > 0 {
      var t := StatText(value);
      assert t[|t| - 1] == 's';
      assert t[..|t| - 1] == SecondsText(value);
      SecondsTextRoundTrip(value);
    }
  }

  /** The summary fetched from the backend; a missing field reads as zero. */
  datatype StatsSummary = StatsSummary(best: Option<int>, worst: Option<int>, avg5: Option<int>, avg12: Option<int>)

  datatype Card = Card(title: string, text: string)

  function OrZero(v: Option<int>): int
  {
    match v
    case None => 0
    case Some(x) => x
  }

  /** The four stat cards, in their display order. */
  function Statistics(stats: Option<StatsSummary>): seq<Card>
  {
    var best := if stats.Some? then OrZero(stats.value.best) else 0;
    var worst := if stats.Some? then OrZero(stats.value.worst) else 0;
    var avg5 := if stats.Some? then OrZero(stats.value.avg5) else 0;
    var avg12 := if stats.Some? then OrZero(stats.value.avg12) else 0;
    [ Card("Best", StatText(best)), Card("Worst", StatText(worst)),
      Card("Avg of 5", StatText(avg5)), Card("Avg of 12", StatText(avg12)) ]
  }

  /** Without a summary, or with a field missing or not positive, the card shows "--". */
  lemma StatisticsDashes(stats: Option<StatsSummary>)
    ensures var cards := Statistics(stats);
      && |cards| == 4
      && (stats.None? ==> forall k :: 0 <= k < 4 ==> cards[k].text == "--")
      && (stats.Some? ==>
        && (cards[0].text == "--" <==> !(stats.value.best.Some? && stats.value.best.value > 0))
        && (cards[1].text == "--" <==> !(stats.value.worst.Some? && stats.value.worst.value > 0))
        && (cards[2].text == "--" <==> !(stats.value.avg5.Some? && stats.value.avg5.value > 0))
        && (cards[3].text == "--" <==> !(stats.value.avg12.Some? && stats.value.avg12.value > 0)))
  {
    if stats.Some? {
      StatTextRule(OrZero(stats.value.best));
      StatTextRule(OrZero(stats.value.worst));
      StatTextRule(OrZero(stats.value.avg5));
      StatTextRule(OrZero(stats.value.avg12));
    }
  }
}
