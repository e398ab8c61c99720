/** `getRelativeTime` of `src/components/taskItem/TaskItem.tsx`: how long
    ago a task was created, in the coarsest unit that fits. The clock
    readings are the integer milliseconds `now - created`; every division
    in the source is `Math.floor` of a quotient by a positive constant,
    which is what Dafny's `/` computes, for negative differences too. */
module RelativeTime {
  import opened Decimal

  const MS_PER_MINUTE: int := 1000 * 60
  const MS_PER_HOUR: int := 60 * MS_PER_MINUTE
  const MS_PER_DAY: int := 24 * MS_PER_HOUR

  /** The bucket a difference falls in; `Absolute` is the fall-through to
      the formatted creation date. */
  datatype Relative =
    | JustNow
    | Minutes(n: nat)
    | Hours(n: nat)
    | Yesterday
    | Days(n: nat)
    | Absolute

  /** The bucketing steps of `getRelativeTime` for `diffMs = now - created`.
      The buckets are the consecutive ranges below one minute, one hour,
      one day, two days and thirty days, and the count each carries is the
      difference in its unit, rounded down. */
  function RelativeTimeOf(diffMs: int): (r: Relative)
    ensures r == JustNow <==> diffMs < MS_PER_MINUTE
    ensures r.Minutes? <==> MS_PER_MINUTE <= diffMs < MS_PER_HOUR
    ensures r.Minutes? ==> r.n == diffMs / MS_PER_MINUTE && 1 <= r.n < 60
    ensures r.Hours? <==> MS_PER_HOUR <= diffMs < MS_PER_DAY
    ensures r.Hours? ==> r.n == diffMs / MS_PER_HOUR && 1 <= r.n < 24
    ensures r == Yesterday <==> MS_PER_DAY <= diffMs < 2 * MS_PER_DAY
    ensures r.Days? <==> 2 * MS_PER_DAY <= diffMs < 30 * MS_PER_DAY
    ensures r.Days? ==> r.n == diffMs / MS_PER_DAY && 2 <= r.n < 30
    ensures r == Absolute <==> 30 * MS_PER_DAY <= diffMs
  {
    var diffInMinutes := diffMs / MS_PER_MINUTE;
    if diffInMinutes < 1 then JustNow
    else if diffInMinutes < 60 then Minutes(diffInMinutes)
    else
      var diffInHours := diffInMinutes / 60;
      if diffInHours < 24 then Hours(diffInHours)
      else
        var diffInDays := diffInHours / 24;
        if diffInDays == 1 then Yesterday
        else if diffInDays < 30 then Days(diffInDays)
        else Absolute
  }

  /** Buckets in the order of the time they stand for. */
  function Rank(r: Relative): nat {
    match r
    case JustNow => 0
    case Minutes(_) => 1
    case Hours(_) => 2
    case Yesterday => 3
    case Days(_) => 4
    case Absolute => 5
  }

  /** An older task never shows a more recent label: the bucket and the
      count inside it grow with the difference. */
  lemma RelativeTimeMonotone(d1: int, d2: int)
    requires d1 <= d2
    ensures Rank(RelativeTimeOf(d1)) <= Rank(RelativeTimeOf(d2))
    ensures Rank(RelativeTimeOf(d1)) == Rank(RelativeTimeOf(d2)) && RelativeTimeOf(d1).Minutes?
      ==> RelativeTimeOf(d1).n <= RelativeTimeOf(d2).n
    ensures Rank(RelativeTimeOf(d1)) == Rank(RelativeTimeOf(d2)) && RelativeTimeOf(d1).Hours?
      ==> RelativeTimeOf(d1).n <= RelativeTimeOf(d2).n
    ensures Rank(RelativeTimeOf(d1)) == Rank(RelativeTimeOf(d2)) && RelativeTimeOf(d1).Days?
      ==> RelativeTimeOf(d1).n <= RelativeTimeOf(d2).n
  {
  }

  /** The text `getRelativeTime` returns; `absolute` is what the locale
      formatting of the creation date yields. */
  function Label(r: Relative, absolute: string): string {
    match r
    case JustNow => "agora mesmo"
    case Minutes(n) => "há " + FromNat(n) + " min"
    case Hours(n) => "há " + FromNat(n) + "h"
    case Yesterday => "ontem"
    case Days(n) => "há " + FromNat(n) + " dias"
    case Absolute => absolute
  }

  /** The last character of each relative label tells the buckets apart. */
  function LastChar(r: Relative): char {
    match r
    case JustNow => 'o'
    case Minutes(_) => 'n'
    case Hours(_) => 'h'
    case Yesterday => 'm'
    case Days(_) => 's'
    case Absolute => ' '
  }

  lemma LabelEnds(r: Relative, absolute: string)
    requires r != Absolute
    ensures var l := Label(r, absolute); |l| > 0 && l[|l| - 1] == LastChar(r)
  {
  }

  /** Equal texts around the same prefix and suffix have equal middles. */
  lemma SameMiddle(pre: string, m1: string, m2: string, suf: string)
    requires pre + m1 + suf == pre + m2 + suf
    ensures m1 == m2
  {
    var l1, l2 := pre + m1 + suf, pre + m2 + suf;
    assert |m1| == |m2|;
    assert m1 == l1[|pre|..|pre| + |m1|];
    assert m2 == l2[|pre|..|pre| + |m2|];
  }

  /** Two different relative buckets never read the same: the text names
      the unit and the count. */
  lemma LabelInjective(r1: Relative, r2: Relative, absolute: string)
    requires r1 != Absolute && r2 != Absolute
    requires Label(r1, absolute) == Label(r2, absolute)
    ensures r1 == r2
  {
    LabelEnds(r1, absolute);
    LabelEnds(r2, absolute);
    assert LastChar(r1) == LastChar(r2);
    match r1
    case Minutes(n1) =>
      SameMiddle("há ", FromNat(n1), FromNat(r2.n), " min");
      ToNatFromNat(n1);
      ToNatFromNat(r2.n);
    case Hours(n1) =>
      SameMiddle("há ", FromNat(n1), FromNat(r2.n), "h");
      ToNatFromNat(n1);
      ToNatFromNat(r2.n);
    case Days(n1) =>
      SameMiddle("há ", FromNat(n1), FromNat(r2.n), " dias");
      ToNatFromNat(n1);
      ToNatFromNat(r2.n);
    case _ =>
  }

  /** `getRelativeTime` with the clock readings in milliseconds. */
  function GetRelativeTime(nowMs: int, createdMs: int, absolute: string): string {
    Label(RelativeTimeOf(nowMs - createdMs), absolute)
  }

  /** A creation time in the future reads as "just now". */
  lemma FutureIsJustNow(nowMs: int, createdMs: int, absolute: string)
    requires createdMs > nowMs
    ensures GetRelativeTime(nowMs, createdMs, absolute) == "agora mesmo"
  {
  }
}
