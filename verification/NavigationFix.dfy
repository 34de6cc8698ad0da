// navigation_fix.hpp, gnssEpochUs: date of the PPS epoch, time of day of the receiver.
module NavigationFix {
  import opened Words

  const DAY: nat := 86_400_000_000
  const HALF_DAY: nat := 43_200_000_000

  datatype TimingStatus = TimingStatus(timeSynced: bool, lastPpsEpochUs: uint64, utcMsOfDay: uint32)

  predicate Usable(s: TimingStatus) {
    s.timeSynced && s.lastPpsEpochUs != 0 && s.utcMsOfDay < 86_400_000
  }

  function TimeOfDay(s: TimingStatus): nat {
    s.utcMsOfDay * 1000
  }

  function GnssEpochUs(s: TimingStatus): uint64 {
    if !Usable(s) then 0
    else
      var epoch := Wrap64(s.lastPpsEpochUs / DAY * DAY + TimeOfDay(s));
      if Wrap64(epoch + HALF_DAY) < s.lastPpsEpochUs then Wrap64(epoch + DAY)
      else if epoch > Wrap64(s.lastPpsEpochUs + HALF_DAY) && epoch >= DAY then Wrap64(epoch - DAY)
      else epoch
  }

  predicate WithinHalfDay(a: int, b: int) {
    -(HALF_DAY as int) <= a - b <= HALF_DAY
  }

  /** The time of day on the PPS date, before any day is added or taken. */
  function OnPpsDate(s: TimingStatus): nat {
    s.lastPpsEpochUs / DAY * DAY + TimeOfDay(s)
  }

  /** The computation without the wrap-around. */
  function Nearest(s: TimingStatus): nat {
    var epoch := OnPpsDate(s);
    if epoch + HALF_DAY < s.lastPpsEpochUs then epoch + DAY
    else if epoch > s.lastPpsEpochUs + HALF_DAY && epoch >= DAY then epoch - DAY
    else epoch
  }

  /** The first comparison's sum fits 64 bits, and so does the day added after it. */
  predicate DateFits(s: TimingStatus) {
    var epoch := OnPpsDate(s);
    epoch + HALF_DAY <= U64_MAX && (epoch + HALF_DAY < s.lastPpsEpochUs ==> epoch + DAY <= U64_MAX)
  }

  /** And the second comparison's sum, where it is made. */
  predicate Fits(s: TimingStatus) {
    DateFits(s) && (OnPpsDate(s) + HALF_DAY >= s.lastPpsEpochUs ==> s.lastPpsEpochUs + HALF_DAY <= U64_MAX)
  }

  lemma DayStart(x: nat)
    ensures x / DAY * DAY <= x < x / DAY * DAY + DAY
  {
  }

  lemma Wrapped(x: nat)
    requires x < 2 * (U64_MAX + 1)
    ensures Wrap64(x) == if x <= U64_MAX then x else x - (U64_MAX + 1)
  {
  }

  /** What the 64-bit sums come to, in every case. */
  lemma NearestExactlyWhenItFits(s: TimingStatus)
    requires Usable(s)
    ensures Fits(s) ==> GnssEpochUs(s) == Nearest(s)
    ensures !DateFits(s) ==> GnssEpochUs(s) == Wrap64(OnPpsDate(s) + DAY) == OnPpsDate(s) + DAY - (U64_MAX + 1)
    ensures DateFits(s) && !Fits(s) ==> GnssEpochUs(s) == OnPpsDate(s) - DAY && OnPpsDate(s) >= DAY
    ensures !Fits(s) ==> !WithinHalfDay(GnssEpochUs(s), s.lastPpsEpochUs)
  {
    var epoch := OnPpsDate(s);
    DayStart(s.lastPpsEpochUs);
    Wrapped(epoch);
    Wrapped(Wrap64(epoch) + HALF_DAY);
    Wrapped(Wrap64(epoch) + DAY);
    Wrapped(epoch + DAY);
    Wrapped(s.lastPpsEpochUs + HALF_DAY);
  }

  lemma RemainderOf(d: int, t: nat)
    requires t < DAY
    ensures (d * DAY + t) % DAY == t
  {
    SameDay((d * DAY + t) % DAY, t);
  }

  lemma SameDay(a: int, b: int)
    requires a % DAY == b % DAY && -(DAY as int) < a - b < DAY
    ensures a == b
  {
    var q := a / DAY - b / DAY;
    assert a - b == q * DAY;
  }

  /** The result has the receiver's time of day exactly when the date's sums fit 64 bits. */
  lemma SameTimeOfDay(s: TimingStatus)
    requires Usable(s)
    ensures GnssEpochUs(s) % DAY == TimeOfDay(s) <==> DateFits(s)
  {
    NearestExactlyWhenItFits(s);
    var d, t := s.lastPpsEpochUs / DAY, TimeOfDay(s);
    RemainderOf(d, t);
    RemainderOf(d + 1, t);
    RemainderOf(d - 1, t);
    assert (d + 1) * DAY + t == OnPpsDate(s) + DAY && (d - 1) * DAY + t == OnPpsDate(s) - DAY;
    if !DateFits(s) {
      WordIsNoDay(OnPpsDate(s) + DAY, GnssEpochUs(s));
    }
  }

  /** 2^64 microseconds are not a whole number of days, so wrapping around changes the time of day. */
  lemma WordIsNoDay(a: int, b: int)
    requires b == a - (U64_MAX + 1)
    ensures a % DAY != b % DAY
  {
    var d := a / DAY - b / DAY;
    assert a % DAY - b % DAY == (U64_MAX + 1) - d * DAY;
  }

  /**
   * It lies within half a day of the PPS epoch exactly when every sum fits 64 bits and the day before
   * could be chosen: on the first day after the Unix epoch a time of day more than half a day ahead
   * cannot be moved back.
   */
  lemma NearestExactly(s: TimingStatus)
    requires Usable(s)
    ensures WithinHalfDay(GnssEpochUs(s), s.lastPpsEpochUs)
            <==> Fits(s) && !(s.lastPpsEpochUs < DAY && TimeOfDay(s) > s.lastPpsEpochUs + HALF_DAY)
  {
    NearestExactlyWhenItFits(s);
    DayStart(s.lastPpsEpochUs);
  }

  /** A second after the epoch, read as a minute before midnight: the answer is almost a day off. */
  lemma FirstDayExample()
    ensures var s := TimingStatus(true, 1_000_000, 86_340_000);
            Usable(s) && Fits(s) && !WithinHalfDay(GnssEpochUs(s), s.lastPpsEpochUs)
  {
    assert 1_000_000 / DAY == 0;
  }

  /** The last microsecond of the 64-bit clock at midnight: the sums wrap and the answer is in 1970. */
  lemma LastDayExample()
    ensures var s := TimingStatus(true, U64_MAX, 0);
            Usable(s) && !Fits(s) && !WithinHalfDay(GnssEpochUs(s), s.lastPpsEpochUs)
  {
    var s := TimingStatus(true, U64_MAX, 0);
    assert OnPpsDate(s) == 213_503_982 * DAY;
    NearestExactly(s);
  }

  /** After the first day, 0 means exactly that there is no usable time. */
  lemma ZeroExactly(s: TimingStatus)
    requires s.lastPpsEpochUs >= DAY
    ensures GnssEpochUs(s) == 0 <==> !Usable(s)
  {
    if Usable(s) {
      NearestExactlyWhenItFits(s);
      DayStart(s.lastPpsEpochUs);
      WholeMilliseconds(s);
    }
  }

  lemma WholeMilliseconds(s: TimingStatus)
    ensures (OnPpsDate(s) + DAY) % 1000 == 0
  {
    var x := s.lastPpsEpochUs / DAY * 86_400_000 + s.utcMsOfDay + 86_400_000;
    assert OnPpsDate(s) + DAY == x * 1000;
  }

  /** A true epoch less than half a day from PPS is recovered from its time of day, exactly when the sums fit. */
  lemma RecoversTrueEpoch(s: TimingStatus, truth: nat)
    requires Usable(s) && s.lastPpsEpochUs >= DAY
    requires truth % DAY == TimeOfDay(s)
    requires -(HALF_DAY as int) < truth as int - s.lastPpsEpochUs < HALF_DAY
    ensures GnssEpochUs(s) == truth <==> Fits(s)
  {
    SameTimeOfDay(s);
    NearestExactly(s);
    if Fits(s) {
      SameDay(GnssEpochUs(s), truth);
    }
  }

  /** Two candidates within half a day of PPS with one time of day differ only at the exact tie. */
  lemma UniqueExceptTies(a: nat, b: nat, pps: nat)
    requires a % DAY == b % DAY && WithinHalfDay(a, pps) && WithinHalfDay(b, pps) && a < b
    ensures a + HALF_DAY == pps && b == pps + HALF_DAY
  {
    if b as int - a < DAY {
      SameDay(a, b);
    }
  }

  /** Without a synchronized status, a PPS epoch, or a time within the day, there is no epoch. */
  lemma UnusableExactly(s: TimingStatus)
    ensures !s.timeSynced || s.lastPpsEpochUs == 0 || s.utcMsOfDay >= 86_400_000 ==> GnssEpochUs(s) == 0
    ensures s.timeSynced && s.lastPpsEpochUs >= DAY && s.utcMsOfDay < 86_400_000 ==> GnssEpochUs(s) != 0
  {
    if s.lastPpsEpochUs >= DAY {
      ZeroExactly(s);
    }
  }

  /** The date of the PPS epoch is kept wherever that is within half a day, so also at both exact ties. */
  lemma PpsDateKept(s: TimingStatus)
    requires Usable(s) && Fits(s) && WithinHalfDay(OnPpsDate(s), s.lastPpsEpochUs)
    ensures GnssEpochUs(s) == OnPpsDate(s)
  {
    NearestExactlyWhenItFits(s);
  }
}
