/**
  The time-of-day greeting (src/hooks/useGreeting.ts). The hour is passed in;
  the source reads it from `new Date().getHours()`, which gives 0 to 23.
 */
module Greeting {

  /** Morning, midday, afternoon and evening, as the greeting names them. */
  datatype Period = Pagi | Siang | Sore | Malam

  /** `updateGreeting`'s chain of half-open hour ranges; everything else is evening. */
  function PeriodOf(hour: int): (p: Period)
    ensures p == Pagi <==> 5 <= hour < 12
    ensures p == Siang <==> 12 <= hour < 16
    ensures p == Sore <==> 16 <= hour < 19
    ensures p == Malam <==> hour < 5 || hour >= 19
  {
    if hour >= 5 && hour < 12 then Pagi
    else if hour >= 12 && hour < 16 then Siang
    else if hour >= 16 && hour < 19 then Sore
    else Malam
  }

  /** The greeting text shown for a period. */
  function Text(p: Period): string
  {
    "Selamat " + Word(p) + ", selamat datang di portofolio saya!"
  }

  function Word(p: Period): string
  {
    match p
    case Pagi => "pagi"
    case Siang => "siang"
    case Sore => "sore"
    case Malam => "malam"
  }

  /** The greeting shown at a given hour. */
  function GreetingAt(hour: int): string
  {
    Text(PeriodOf(hour))
  }

  /** The day's hours in order, each with its period: an independent table of the 24 clock hours. */
  const DayTable: seq<Period> :=
    [Malam, Malam, Malam, Malam, Malam,
     Pagi, Pagi, Pagi, Pagi, Pagi, Pagi, Pagi,
     Siang, Siang, Siang, Siang,
     Sore, Sore, Sore,
     Malam, Malam, Malam, Malam, Malam]

  /** Every clock hour gets the period the table lists, so the four periods cover the day. */
  lemma PeriodMatchesTable(hour: int)
    requires 0 <= hour < 24
    ensures |DayTable| == 24 && PeriodOf(hour) == DayTable[hour]
  {
  }

  /** Two hours get the same greeting exactly when they fall in the same period. */
  lemma GreetingDistinguishesPeriods(h1: int, h2: int)
    ensures GreetingAt(h1) == GreetingAt(h2) <==> PeriodOf(h1) == PeriodOf(h2)
  {
    if PeriodOf(h1) != PeriodOf(h2) {
      TextsDistinct(PeriodOf(h1), PeriodOf(h2));
    }
  }

  /** Distinct periods give distinct greetings. */
  lemma TextsDistinct(p: Period, q: Period)
    requires p != q
    ensures Text(p) != Text(q)
  {
    assert Text(p)[8] != Text(q)[8] || Text(p)[9] != Text(q)[9];
  }
}
