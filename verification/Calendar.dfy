/** Minute-level date arithmetic of the vehicle recorder (software/bsp/vtdr/RS232.c:89-268, 1205-1225;
    software/bsp/vtdr/DataManager.c:146-158, 464-557) against a count of minutes. */
module Calendar {

  const DAY: int := 24 * 60

  datatype Date = Date(year: int, month: int, day: int)
  datatype DateTime = DateTime(date: Date, time: int)

  // ---- The count of days ---------------------------------------------------------------------

  predicate Leap(y: int) {
    y % 4 == 0
  }

  function Length(y: int, m: int): int {
    if m == 2 then (if Leap(y) then 29 else 28)
    else if m == 4 || m == 6 || m == 9 || m == 11 then 30
    else 31
  }

  predicate ValidDate(d: Date) {
    1 <= d.month <= 12 && 1 <= d.day <= Length(d.year, d.month)
  }

  predicate Valid(dt: DateTime) {
    ValidDate(dt.date) && 0 <= dt.time < DAY
  }

  /** Days of the year in front of month m. */
  function MonthStart(y: int, m: int): int {
    var feb := if Leap(y) then 29 else 28;
    if m <= 1 then 0 else if m == 2 then 31 else if m == 3 then 31 + feb else if m == 4 then 62 + feb
    else if m == 5 then 92 + feb else if m == 6 then 123 + feb else if m == 7 then 153 + feb
    else if m == 8 then 184 + feb else if m == 9 then 215 + feb else if m == 10 then 245 + feb
    else if m == 11 then 276 + feb else if m == 12 then 306 + feb else 337 + feb
  }

  /** Days in front of year y, counted from year 0. */
  function YearStart(y: int): int {
    365 * y + (y + 3) / 4
  }

  function DayNumber(d: Date): int {
    YearStart(d.year) + MonthStart(d.year, d.month) + d.day - 1
  }

  function MinuteNumber(dt: DateTime): int {
    DayNumber(dt.date) * DAY + dt.time
  }

  lemma YearStep(y: int)
    ensures YearStart(y + 1) == YearStart(y) + MonthStart(y, 13)
  {}

  /** Later year, larger number. */
  lemma {:induction false} YearOrder(y: int, z: int)
    requires y < z
    ensures YearStart(y) + MonthStart(y, 13) <= YearStart(z)
  {
    YearStep(y);
    assert (y + 4) / 4 <= (z + 3) / 4;
  }

  lemma MonthOrder(y: int, m: int, n: int)
    requires 1 <= m < n <= 13
    ensures MonthStart(y, m) + Length(y, m) <= MonthStart(y, n) <= MonthStart(y, 13)
  {}

  predicate Before(a: Date, b: Date) {
    a.year < b.year || (a.year == b.year && (a.month < b.month || (a.month == b.month && a.day < b.day)))
  }

  /** The day number orders valid dates as year, month and day do. */
  lemma DayOrder(a: Date, b: Date)
    requires ValidDate(a) && ValidDate(b) && Before(a, b)
    ensures DayNumber(a) < DayNumber(b)
  {
    MonthOrder(a.year, a.month, 13);
    hide Length, MonthStart, YearStart;
    if a.year < b.year {
      YearOrder(a.year, b.year);
      MonthPositive(b.year, b.month);
    } else if a.month < b.month {
      MonthOrder(a.year, a.month, b.month);
    }
  }

  lemma MonthPositive(y: int, m: int)
    requires 1 <= m <= 12
    ensures 0 <= MonthStart(y, m)
  {}

  /** Different dates have different numbers. */
  lemma DayUnique(a: Date, b: Date)
    requires ValidDate(a) && ValidDate(b) && DayNumber(a) == DayNumber(b)
    ensures a == b
  {
    if Before(a, b) { DayOrder(a, b); }
    if Before(b, a) { DayOrder(b, a); }
    hide ValidDate, DayNumber;
  }

  lemma MinuteUnique(a: DateTime, b: DateTime)
    requires Valid(a) && Valid(b) && MinuteNumber(a) == MinuteNumber(b)
    ensures a == b
  {
    hide ValidDate, DayNumber;
    DayUnique(a.date, b.date);
  }

  // ---- IncreaseTime --------------------------------------------------------------------------

  /** d++ and what the loop of IncreaseTime does to month and year. */
  function NextDay(d: Date): Date {
    var n := d.day + 1;
    var (m, e) :=
      if d.month == 1 || d.month == 3 || d.month == 5 || d.month == 7 || d.month == 8 || d.month == 10 || d.month == 12 then
        (if n > 31 then (d.month + 1, n - 31) else (d.month, n))
      else if d.month == 2 then
        (if n > 29 && d.year % 4 == 0 then (d.month + 1, n - 29)
         else if n > 28 && d.year % 4 != 0 then (d.month + 1, n - 28) else (d.month, n))
      else if d.month == 4 || d.month == 6 || d.month == 9 || d.month == 11 then
        (if n > 30 then (d.month + 1, n - 30) else (d.month, n))
      else (d.month, n);
    if m > 12 then Date(d.year + 1, m - 12, e) else Date(d.year, m, e)
  }

  /** d-- and what the loop of IncreaseTime does to month and year. */
  function PrevDay(d: Date): Date {
    var n := d.day - 1;
    var (m, e) :=
      if d.month == 2 || d.month == 4 || d.month == 6 || d.month == 8 || d.month == 9 || d.month == 11 || d.month == 1 then
        (if n < 1 then (d.month - 1, n + 31) else (d.month, n))
      else if d.month == 3 then
        (if n < 1 && d.year % 4 == 0 then (d.month - 1, n + 29)
         else if n < 1 && d.year % 4 != 0 then (d.month - 1, n + 28) else (d.month, n))
      else if d.month == 5 || d.month == 7 || d.month == 10 || d.month == 12 then
        (if n < 1 then (d.month - 1, n + 30) else (d.month, n))
      else (d.month, n);
    if m < 1 then Date(d.year - 1, m + 12, e) else Date(d.year, m, e)
  }

  lemma NextDayNumber(d: Date)
    requires ValidDate(d)
    ensures ValidDate(NextDay(d)) && DayNumber(NextDay(d)) == DayNumber(d) + 1
  {
    YearStep(d.year);
    hide YearStart;
  }

  lemma PrevDayNumber(d: Date)
    requires ValidDate(d)
    ensures ValidDate(PrevDay(d)) && DayNumber(PrevDay(d)) == DayNumber(d) - 1
  {
    YearStep(d.year - 1);
    hide YearStart;
  }

  /** How far the minutes are from a time of day. */
  function Far(t: int): nat {
    if t < 0 then -t else if t >= DAY then t - DAY + 1 else 0
  }

  /** The date and time that is t minutes after the start of date d. */
  function Settle(d: Date, t: int): DateTime
    decreases Far(t)
  {
    if t >= DAY then Settle(NextDay(d), t - DAY)
    else if t < 0 then Settle(PrevDay(d), t + DAY)
    else DateTime(d, t)
  }

  function Shift(dt: DateTime, inc: int): DateTime {
    Settle(dt.date, dt.time + inc)
  }

  lemma {:induction false} SettleNumber(d: Date, t: int)
    requires ValidDate(d)
    ensures Valid(Settle(d, t)) && MinuteNumber(Settle(d, t)) == DayNumber(d) * DAY + t
    decreases Far(t)
  {
    hide ValidDate, DayNumber, NextDay, PrevDay;
    if t >= DAY {
      NextDayNumber(d);
      SettleNumber(NextDay(d), t - DAY);
    } else if t < 0 {
      PrevDayNumber(d);
      SettleNumber(PrevDay(d), t + DAY);
    }
  }

  /** Stepping is addition of minutes, forwards and backwards, for every valid date. */
  lemma ShiftNumber(dt: DateTime, inc: int)
    requires Valid(dt)
    ensures Valid(Shift(dt, inc)) && MinuteNumber(Shift(dt, inc)) == MinuteNumber(dt) + inc
  {
    SettleNumber(dt.date, dt.time + inc);
  }

  /** Two steps are one step by the sum; so a step by k and one by -k undo each other. */
  lemma ShiftTwice(dt: DateTime, j: int, k: int)
    requires Valid(dt)
    ensures Shift(Shift(dt, j), k) == Shift(dt, j + k)
    ensures Shift(Shift(dt, j), -j) == dt
  {
    hide Shift, Valid, MinuteNumber;
    ShiftNumber(dt, j);
    ShiftNumber(Shift(dt, j), k);
    ShiftNumber(dt, j + k);
    MinuteUnique(Shift(Shift(dt, j), k), Shift(dt, j + k));
    ShiftNumber(Shift(dt, j), -j);
    MinuteUnique(Shift(Shift(dt, j), -j), dt);
  }

  /** One round of the loop of IncreaseTime. */
  method Round(d0: Date, t0: int) returns (d: Date, t: int)
    ensures t0 >= DAY ==> d == NextDay(d0) && t == t0 - DAY
    ensures t0 < 0 ==> d == PrevDay(d0) && t == t0 + DAY
    ensures 0 <= t0 < DAY ==> d == d0 && t == t0
  {
    d, t := d0, t0;
    if t >= DAY {
      t := t - DAY;
      d := NextDay(d);
    } else if t < 0 {
      t := t + DAY;
      d := PrevDay(d);
    }
  }

  /** IncreaseTime: the loop runs its body once before the first test. */
  method IncreaseTime(dt: DateTime, inc: int) returns (r: DateTime)
    ensures r == Shift(dt, inc)
    ensures Valid(dt) ==> Valid(r) && MinuteNumber(r) == MinuteNumber(dt) + inc
  {
    hide NextDay, PrevDay, Valid, MinuteNumber;
    if Valid(dt) { ShiftNumber(dt, inc); }
    var d, t := Round(dt.date, dt.time + inc);
    while t >= DAY || t < 0
      invariant Settle(d, t) == Settle(dt.date, dt.time + inc)
      decreases Far(t)
    {
      d, t := Round(d, t);
    }
    r := DateTime(d, t);
  }

  // ---- HaveTime ------------------------------------------------------------------------------

  /** The difference in minutes, or -1 if `big` is not the later one. */
  function Gap(big: DateTime, small: DateTime): int {
    if MinuteNumber(big) < MinuteNumber(small) then -1 else MinuteNumber(big) - MinuteNumber(small)
  }

  predicate BeforeTime(a: DateTime, b: DateTime) {
    Before(a.date, b.date) || (a.date == b.date && a.time < b.time)
  }

  lemma TimeOrder(a: DateTime, b: DateTime)
    requires Valid(a) && Valid(b)
    ensures BeforeTime(a, b) <==> MinuteNumber(a) < MinuteNumber(b)
  {
    if Before(a.date, b.date) { DayOrder(a.date, b.date); }
    if Before(b.date, a.date) { DayOrder(b.date, a.date); }
    hide DayNumber, ValidDate;
  }

  /** The comparisons at the start of HaveTime. */
  method Earlier(big: DateTime, small: DateTime) returns (earlier: bool)
    ensures earlier <==> BeforeTime(big, small)
  {
    if big.date.year < small.date.year {
      return true;
    } else if big.date.year == small.date.year {
      if big.date.month < small.date.month {
        return true;
      } else if big.date.month == small.date.month {
        if big.date.day < small.date.day {
          return true;
        } else if big.date.day == small.date.day {
          if big.time < small.time {
            return true;
          }
        }
      }
    }
    return false;
  }

  /** HaveTime: `small` walks day by day to the date of `big`. */
  method HaveTime(big: DateTime, small: DateTime) returns (result: int)
    requires Valid(big) && Valid(small)
    ensures result == Gap(big, small)
  {
    TimeOrder(big, small);
    hide Shift, DayNumber, ValidDate, BeforeTime, MinuteNumber, Gap;
    GapIs(big, small);
    var earlier := Earlier(big, small);
    if earlier {
      return -1;
    }
    var timeSmall := small.time;
    var walk, time := DateTime(small.date, 0), big.time;
    while walk.date != big.date
      invariant Valid(walk) && walk.time == 0 && DayNumber(walk.date) <= DayNumber(big.date)
      invariant time - big.time == (DayNumber(walk.date) - DayNumber(small.date)) * DAY
      decreases DayNumber(big.date) - DayNumber(walk.date)
    {
      NotThere(walk.date, big.date);
      ghost var before := walk;
      walk := IncreaseTime(walk, DAY);
      WholeDay(walk, before);
      time := time + DAY;
    }
    result := time - timeSmall;
  }

  lemma WholeDay(r: DateTime, w: DateTime)
    requires Valid(r) && w.time == 0 && MinuteNumber(r) == MinuteNumber(w) + DAY
    ensures r.time == 0 && DayNumber(r.date) == DayNumber(w.date) + 1
  {
    hide DayNumber, ValidDate;
  }

  lemma GapIs(big: DateTime, small: DateTime)
    requires Valid(big) && Valid(small)
    ensures MinuteNumber(big) < MinuteNumber(small) ==> Gap(big, small) == -1
    ensures MinuteNumber(big) >= MinuteNumber(small) ==> DayNumber(big.date) >= DayNumber(small.date)
    ensures MinuteNumber(big) >= MinuteNumber(small) ==>
      Gap(big, small) == (DayNumber(big.date) - DayNumber(small.date)) * DAY + big.time - small.time
  {
    hide DayNumber, ValidDate;
  }

  lemma NotThere(a: Date, b: Date)
    requires ValidDate(a) && ValidDate(b) && a != b
    ensures DayNumber(a) != DayNumber(b)
  {
    hide DayNumber, ValidDate;
    if DayNumber(a) == DayNumber(b) { DayUnique(a, b); }
  }

  /** What a step of k minutes adds is what HaveTime measures. */
  lemma GapOfShift(dt: DateTime, k: nat)
    requires Valid(dt)
    ensures Valid(Shift(dt, k)) && Gap(Shift(dt, k), dt) == k
  {
    hide Shift, MinuteNumber;
    ShiftNumber(dt, k);
  }

  // ---- BCD -----------------------------------------------------------------------------------

  type Byte = x: int | 0 <= x < 256

  /** BCD2Char */
  function FromBcd(b: Byte): Byte {
    var d1 := b / 16;
    var d0 := b % 16;
    if d1 > 9 || d0 > 9 then 0xFF else d1 * 10 + d0
  }

  /** Char2BCD on an unsigned char */
  function ToBcd(ch: Byte): Byte {
    (((ch / 10) * 16) % 256 + ch % 10) % 256
  }

  predicate IsBcd(b: Byte) {
    b / 16 <= 9 && b % 16 <= 9
  }

  /** Decoding undoes encoding exactly for numbers of two digits. */
  lemma BcdRoundTrip(ch: Byte)
    ensures FromBcd(ToBcd(ch)) == ch <==> ch < 100
    ensures ch < 100 ==> IsBcd(ToBcd(ch))
  {
    var q, r := ch / 10, ch % 10;
    var b := if q < 16 then q * 16 + r else (q - 16) * 16 + r;
    assert ToBcd(ch) == b;
    assert b / 16 == (if q < 16 then q else q - 16) && b % 16 == r;
    hide ToBcd;
  }

  /** Encoding undoes decoding exactly for BCD bytes. */
  lemma BcdRoundTripBack(b: Byte)
    ensures ToBcd(FromBcd(b)) == b <==> IsBcd(b)
    ensures IsBcd(b) ==> FromBcd(b) < 100
  {
    var d1, d0 := b / 16, b % 16;
    if IsBcd(b) {
      var ch := d1 * 10 + d0;
      assert ch / 10 == d1 && ch % 10 == d0 && (d1 * 16) % 256 == d1 * 16;
    } else {
      assert FromBcd(b) == 255 && ToBcd(255) == 0x95;
    }
  }

  /** CLOCK */
  datatype BcdTime = BcdTime(year: Byte, month: Byte, day: Byte, hour: Byte, minute: Byte)

  /** PrepareTime, and the first lines of ComputeTimeBeforeX */
  function Decode(c: BcdTime): DateTime {
    DateTime(Date(FromBcd(c.year), FromBcd(c.month), FromBcd(c.day)), FromBcd(c.hour) * 60 + FromBcd(c.minute))
  }

  predicate ValidClock(c: BcdTime) {
    && IsBcd(c.year) && IsBcd(c.month) && IsBcd(c.day) && IsBcd(c.hour) && IsBcd(c.minute)
    && ValidDate(Decode(c).date) && FromBcd(c.hour) < 24 && FromBcd(c.minute) < 60
  }

  lemma ClockValid(c: BcdTime)
    requires ValidClock(c)
    ensures Valid(Decode(c)) && 0 <= Decode(c).date.year < 100 && MinuteNumber(Decode(c)) >= 0
  {
    BcdRoundTripBack(c.year);
    hide MonthStart, FromBcd, IsBcd, ValidDate;
    NotNegative(Decode(c));
  }

  lemma NotNegative(dt: DateTime)
    requires dt.date.year >= 0 && ValidDate(dt.date) && dt.time >= 0
    ensures MinuteNumber(dt) >= 0
  {
    MonthPositive(dt.date.year, dt.date.month);
    hide MonthStart;
  }

  function ToChar(x: int): Byte {
    x % 256
  }

  /** The last lines of ComputeTimeBeforeX */
  function Encode(dt: DateTime): BcdTime {
    var hour := dt.time / 60;
    BcdTime(ToBcd(ToChar(dt.date.year)), ToBcd(ToChar(dt.date.month)), ToBcd(ToChar(dt.date.day)),
          ToBcd(ToChar(hour)), ToBcd(ToChar(dt.time - hour * 60)))
  }

  /** A date of the years 0 to 99 survives encoding. */
  lemma EncodeDecode(dt: DateTime)
    requires Valid(dt) && 0 <= dt.date.year < 100
    ensures ValidClock(Encode(dt)) && Decode(Encode(dt)) == dt
  {
    var c, hour := Encode(dt), dt.time / 60;
    ToCharSame(dt.date.year);
    ToCharSame(dt.date.month);
    ToCharSame(dt.date.day);
    ToCharSame(hour);
    ToCharSame(dt.time - hour * 60);
    BcdRoundTrip(dt.date.year);
    BcdRoundTrip(dt.date.month);
    BcdRoundTrip(dt.date.day);
    BcdRoundTrip(hour);
    BcdRoundTrip(dt.time - hour * 60);
    hide FromBcd, ToBcd, IsBcd, ToChar;
  }

  lemma ToCharSame(x: int)
    requires 0 <= x < 256
    ensures ToChar(x) == x
  {}

  lemma DecodeEncode(c: BcdTime)
    requires ValidClock(c)
    ensures Encode(Decode(c)) == c
  {
    var dt := Decode(c);
    BcdRoundTripBack(c.year);
    BcdRoundTripBack(c.month);
    BcdRoundTripBack(c.day);
    BcdRoundTripBack(c.hour);
    BcdRoundTripBack(c.minute);
    hide FromBcd, ToBcd, IsBcd, ToChar;
    assert dt.time / 60 == FromBcd(c.hour);
    ToCharSame(FromBcd(c.year));
    ToCharSame(FromBcd(c.month));
    ToCharSame(FromBcd(c.day));
    ToCharSame(FromBcd(c.hour));
    ToCharSame(FromBcd(c.minute));
  }

  const WORD: int := 0x1_0000_0000

  /** 0 - timeinterval computed unsigned and stored in a signed int */
  function Negated(interval: int): int {
    var x := (0 - interval) % WORD;
    if x >= WORD / 2 then x - WORD else x
  }

  /** An interval of more than 2^31 minutes comes out positive and steps forward. */
  lemma NegatedIs(interval: int)
    requires 0 <= interval < WORD
    ensures Negated(interval) == if interval <= WORD / 2 then -interval else WORD - interval
  {}

  /** ComputeTimeBeforeX */
  method ComputeTimeBeforeX(ct: BcdTime, interval: int) returns (r: BcdTime)
    requires ValidClock(ct) && 0 <= interval < WORD
    ensures r == Encode(Shift(Decode(ct), Negated(interval)))
    ensures ValidClock(r) && MinuteNumber(Decode(r)) == MinuteNumber(Decode(ct)) - interval
            <==> interval <= MinuteNumber(Decode(ct))
  {
    hide Decode, Encode, Shift, ValidClock, MinuteNumber, Valid, Negated;
    var buf := IncreaseTime(Decode(ct), Negated(interval));
    r := Encode(buf);
    if interval <= WORD / 2 {
      NegatedIs(interval);
      BeforeExactly(ct, interval);
    } else {
      ClockBelow(ct);
      if ValidClock(r) { ClockValid(r); }
    }
  }

  /** A clock has two digits for the year: less than 36525 days since the year 0. */
  lemma ClockBelow(c: BcdTime)
    requires ValidClock(c)
    ensures MinuteNumber(Decode(c)) < 36525 * DAY < WORD / 2
  {
    ClockValid(c);
    hide Decode, ValidClock, MonthStart, Length;
    DayOrder(Decode(c).date, Date(100, 1, 1)) by { Century(); }
    Century();
  }

  lemma Century()
    ensures ValidDate(Date(100, 1, 1)) && DayNumber(Date(100, 1, 1)) == 36525
  {}

  lemma YearNotNegative(dt: DateTime)
    requires Valid(dt)
    ensures dt.date.year >= 0 <==> MinuteNumber(dt) >= 0
  {
    hide MonthStart, Length;
    MonthPositive(dt.date.year, dt.date.month);
    if dt.date.year < 0 {
      DayOrder(dt.date, Date(0, 1, 1)) by { FirstDay(); }
      FirstDay();
    }
  }

  lemma FirstDay()
    ensures ValidDate(Date(0, 1, 1)) && DayNumber(Date(0, 1, 1)) == 0
  {}

  /** The clock reading `interval` minutes earlier is right exactly if year 0 is not left. */
  lemma BeforeExactly(ct: BcdTime, interval: int)
    requires ValidClock(ct) && interval >= 0
    ensures var r := Encode(Shift(Decode(ct), -interval));
      ValidClock(r) && MinuteNumber(Decode(r)) == MinuteNumber(Decode(ct)) - interval
      <==> interval <= MinuteNumber(Decode(ct))
  {
    hide Decode, Encode, Shift, Settle, MinuteNumber, ValidClock, Valid;
    ClockValid(ct);
    var dt := Shift(Decode(ct), -interval);
    ShiftNumber(Decode(ct), -interval);
    YearNotNegative(dt);
    if interval <= MinuteNumber(Decode(ct)) {
      YearBelow(dt, Decode(ct));
      EncodeDecode(dt);
    } else if ValidClock(Encode(dt)) {
      ClockValid(Encode(dt));
    }
  }

  lemma YearBelow(a: DateTime, b: DateTime)
    requires Valid(a) && Valid(b) && MinuteNumber(a) <= MinuteNumber(b)
    ensures a.date.year <= b.date.year
  {
    if b.date.year < a.date.year { DayOrder(b.date, a.date); }
    hide DayNumber, ValidDate;
  }

  // ---- The quick comparison ------------------------------------------------------------------

  /** IfOneAfterAotherDay */
  function OneAfter(time: BcdTime, end: BcdTime): bool {
    var day := FromBcd(time.day);
    if day > 1 then
      day - 1 == FromBcd(end.day) && time.month == end.month && time.year == end.year
    else
      var year0 := FromBcd(time.year);
      var month0 := FromBcd(time.month);
      var month := if month0 > 1 then month0 - 1 else 12;
      var year := if month0 > 1 then year0 else if year0 > 1 then year0 - 1 else 99;
      var last :=
        if month == 1 || month == 3 || month == 5 || month == 7 || month == 8 || month == 10 || month == 12 then 31
        else if month == 4 || month == 6 || month == 9 || month == 11 then 30
        else if month == 2 then (if year % 4 == 0 then 29 else 28)
        else 0;
      last != 0 && last == FromBcd(end.day) && month == FromBcd(end.month) && year == FromBcd(end.year)
  }

  /** The first of January of the years 0 and 1: the code goes back to the year 99 from both. */
  predicate YearSlip(time: Date, end: Date) {
    time.month == 1 && time.day == 1 && time.year <= 1 && end.month == 12 && end.day == 31
    && (end.year == 99 || end.year == time.year - 1)
  }

  /** The day in front, computed as in PrevDay. */
  lemma OneAfterIsPrev(time: BcdTime, end: BcdTime)
    requires ValidClock(time) && ValidClock(end)
    ensures var (t, e) := (Decode(time).date, Decode(end).date);
      !YearSlip(t, e) ==> (OneAfter(time, end) <==> e == PrevDay(t))
    ensures var (t, e) := (Decode(time).date, Decode(end).date);
      YearSlip(t, e) ==> (OneAfter(time, end) <==> e != PrevDay(t))
  {
    SameByte(time.month, end.month);
    SameByte(time.year, end.year);
    hide FromBcd, IsBcd;
  }

  lemma SameByte(a: Byte, b: Byte)
    requires IsBcd(a) && IsBcd(b)
    ensures a == b <==> FromBcd(a) == FromBcd(b)
    ensures 0 <= FromBcd(a) < 100 && 0 <= FromBcd(b) < 100
  {}

  /** IfOneAfterAotherDay says whether the day numbers differ by one, except across the turn of the
      year at the years 0 and 1, where it says the opposite. */
  lemma OneAfterExactly(time: BcdTime, end: BcdTime)
    requires ValidClock(time) && ValidClock(end)
    ensures var (t, e) := (Decode(time).date, Decode(end).date);
      (OneAfter(time, end) <==> DayNumber(t) == DayNumber(e) + 1) <==> !YearSlip(t, e)
  {
    var t, e := Decode(time).date, Decode(end).date;
    OneAfterIsPrev(time, end);
    PrevDayNumber(t);
    hide OneAfter, DayNumber, PrevDay, YearSlip;
    if DayNumber(t) == DayNumber(e) + 1 { DayUnique(PrevDay(t), e); }
  }

  /** JudgeTimeSpace */
  function Judge(time: BcdTime, end: BcdTime): Byte {
    var space := FromBcd(time.hour) * 60 + FromBcd(time.minute) - FromBcd(end.hour) * 60 - FromBcd(end.minute);
    if time.year == end.year && time.month == end.month && time.day == end.day then
      (if space < 0 || space > 20 then 0xFF else space)
    else if OneAfter(time, end) then
      (if DAY + space < 0 || DAY + space > 20 then 0xFF else DAY + space)
    else 0xFF
  }

  /** What the gap in minutes means for the caller of JudgeTimeSpace. */
  function Verdict(gap: int): Byte {
    if 0 <= gap <= 20 then gap else 0xFF
  }

  lemma SameDate(a: BcdTime, b: BcdTime)
    requires ValidClock(a) && ValidClock(b)
    ensures a.year == b.year && a.month == b.month && a.day == b.day <==> Decode(a).date == Decode(b).date
  {
    SameByte(a.year, b.year);
    SameByte(a.month, b.month);
    SameByte(a.day, b.day);
    hide FromBcd, IsBcd;
  }

  /** JudgeTimeSpace gives HaveTime's difference if it is 0 to 20 minutes and 0xFF otherwise, for all
      valid clocks but those of the turn of the year at the years 0 and 1 that are close together. */
  lemma JudgeExactly(time: BcdTime, end: BcdTime)
    requires ValidClock(time) && ValidClock(end)
    ensures var (t, e) := (Decode(time), Decode(end));
      Judge(time, end) == Verdict(Gap(t, e))
      <==> !(YearSlip(t.date, e.date) && 0 <= DAY + t.time - e.time <= 20)
  {
    hide Decode, OneAfter, ValidClock, Judge, DayNumber, YearSlip, ValidDate, Verdict, Gap;
    var t, e := Decode(time), Decode(end);
    ClockValid(time);
    ClockValid(end);
    OneAfterExactly(time, end);
    JudgeDecoded(time, end);
    GapVerdict(t, e);
    if t.date != e.date { NotThere(t.date, e.date); }
    if YearSlip(t.date, e.date) {
      SlipDays(t.date, e.date);
      VerdictIs(DAY + t.time - e.time);
    }
  }

  lemma VerdictIs(gap: int)
    ensures Verdict(gap) == 0xFF <==> !(0 <= gap <= 20)
  {}

  /** The verdict on the gap depends on the time of day for the same and the next day only. */
  lemma GapVerdict(t: DateTime, e: DateTime)
    requires Valid(t) && Valid(e)
    ensures var days := DayNumber(t.date) - DayNumber(e.date);
      Verdict(Gap(t, e)) == (if days == 0 then Verdict(t.time - e.time)
                             else if days == 1 then Verdict(DAY + t.time - e.time) else 0xFF)
  {
    hide DayNumber, ValidDate;
  }

  lemma JudgeDecoded(time: BcdTime, end: BcdTime)
    requires ValidClock(time) && ValidClock(end)
    ensures var (t, e) := (Decode(time), Decode(end));
      Judge(time, end) == (if t.date == e.date then Verdict(t.time - e.time)
                           else if OneAfter(time, end) then Verdict(DAY + t.time - e.time) else 0xFF)
  {
    SameDate(time, end);
    hide OneAfter, FromBcd, ValidClock;
  }

  lemma SlipDays(t: Date, e: Date)
    requires ValidDate(t) && ValidDate(e) && YearSlip(t, e)
    ensures t != e
    ensures DayNumber(t) < DayNumber(e) - 300 || DayNumber(t) == DayNumber(e) + 1
  {}

  /** Five past midnight on the first of January of year 1 against five to midnight the day before: ten
      minutes and one day number apart, which neither function sees. */
  lemma SlipHappens()
    ensures var time, end := BcdTime(0x01, 0x01, 0x01, 0x00, 0x05), BcdTime(0x00, 0x12, 0x31, 0x23, 0x55);
      && ValidClock(time) && ValidClock(end) && YearSlip(Decode(time).date, Decode(end).date)
      && DayNumber(Decode(time).date) == DayNumber(Decode(end).date) + 1 && !OneAfter(time, end)
      && Gap(Decode(time), Decode(end)) == 10 && Judge(time, end) == 0xFF
  {
    hide Decode, ValidClock, OneAfter, Judge, YearSlip, DayNumber, Gap, Verdict, IsBcd, FromBcd;
    var time, end := BcdTime(0x01, 0x01, 0x01, 0x00, 0x05), BcdTime(0x00, 0x12, 0x31, 0x23, 0x55);
    SlipClocks(time, end);
    SlipDates();
    OneAfterExactly(time, end);
    JudgeDecoded(time, end);
  }

  lemma SlipDates()
    ensures YearSlip(Date(1, 1, 1), Date(0, 12, 31))
    ensures DayNumber(Date(1, 1, 1)) == DayNumber(Date(0, 12, 31)) + 1
    ensures Gap(DateTime(Date(1, 1, 1), 5), DateTime(Date(0, 12, 31), DAY - 5)) == 10
  {
    assert DayNumber(Date(1, 1, 1)) == 366 && DayNumber(Date(0, 12, 31)) == 365;
    hide DayNumber, MonthStart, YearStart;
  }

  lemma SlipClocks(time: BcdTime, end: BcdTime)
    requires time == BcdTime(0x01, 0x01, 0x01, 0x00, 0x05) && end == BcdTime(0x00, 0x12, 0x31, 0x23, 0x55)
    ensures Decode(time) == DateTime(Date(1, 1, 1), 5) && Decode(end) == DateTime(Date(0, 12, 31), DAY - 5)
    ensures ValidClock(time) && ValidClock(end)
  {}

  /** From year 2 on there is no exception. */
  lemma JudgeAgrees(time: BcdTime, end: BcdTime)
    requires ValidClock(time) && ValidClock(end) && FromBcd(time.year) >= 2
    ensures Judge(time, end) == Verdict(Gap(Decode(time), Decode(end)))
  {
    JudgeExactly(time, end);
    hide Judge, Gap, ValidClock;
  }
}
