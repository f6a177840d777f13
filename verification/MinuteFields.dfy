/** What the name of a group says: year, month, day, hour and minute of its records. */
module MinuteFields {
  import opened Decimal
  import opened Decoder
  import opened Minutes
  import opened Sql
  import opened Batch
  import opened Pipeline

  predicate SameMinute(a: Time, b: Time) {
    a.year == b.year && a.month == b.month && a.day == b.day && a.hour == b.hour && a.min == b.min
  }

  predicate Natural(t: Time) {
    0 <= t.year && 0 <= t.month && 0 <= t.day && 0 <= t.hour && 0 <= t.min && 0 <= t.sec
  }

  /** "t", four digits for the year, two each for month, day, hour and minute. */
  function MinuteName(t: Time): string
    requires Natural(t)
  {
    "t" + (Padded(t.year, 4) + Padded(t.month, 2) + Padded(t.day, 2) + Padded(t.hour, 2) + Padded(t.min, 2))
  }

  lemma TwelveDigits(ts: string)
    requires |ts| == 14
    ensures ts[0..4] + ts[4..6] + ts[6..8] + ts[8..10] + ts[10..12] == ts[..12]
  {
    assert ts[0..4] + ts[4..6] == ts[0..6];
    assert ts[0..6] + ts[6..8] == ts[0..8];
    assert ts[0..8] + ts[8..10] == ts[0..10];
    assert ts[0..10] + ts[10..12] == ts[..12];
  }

  /** Table, file and group of a record are named after these five numbers. */
  lemma MinuteIsName(ts: string)
    requires IsTimestamp(ts)
    ensures Natural(TimeOf(ts)) && Minute(ts) == MinuteName(TimeOf(ts))
  {
    hide Atoi, Padded, Sub;
    TimestampRecovered(ts);
    DigitField(ts, 0, 4);
    DigitField(ts, 4, 2);
    DigitField(ts, 6, 2);
    DigitField(ts, 8, 2);
    DigitField(ts, 10, 2);
    TwelveDigits(ts);
  }

  lemma FieldsOfPrefix(a: string, b: string)
    requires |a| == 14 && |b| == 14 && a[..12] == b[..12]
    ensures SameMinute(TimeOf(a), TimeOf(b))
  {
    hide Atoi;
    assert Sub(a, 0, 4) == a[..12][0..4] && Sub(b, 0, 4) == b[..12][0..4];
    assert Sub(a, 4, 2) == a[..12][4..6] && Sub(b, 4, 2) == b[..12][4..6];
    assert Sub(a, 6, 2) == a[..12][6..8] && Sub(b, 6, 2) == b[..12][6..8];
    assert Sub(a, 8, 2) == a[..12][8..10] && Sub(b, 8, 2) == b[..12][8..10];
    assert Sub(a, 10, 2) == a[..12][10..12] && Sub(b, 10, 2) == b[..12][10..12];
  }

  /** Two timestamps have the same minute exactly when they agree in these five numbers. */
  lemma SameMinuteExactly(a: string, b: string)
    requires IsTimestamp(a) && IsTimestamp(b)
    ensures Minute(a) == Minute(b) <==> SameMinute(TimeOf(a), TimeOf(b))
  {
    MinuteIsName(a);
    MinuteIsName(b);
    if Minute(a) == Minute(b) {
      assert Minute(a)[1..] == a[..12] && Minute(b)[1..] == b[..12];
      FieldsOfPrefix(a, b);
    }
  }

  /** Two records end in one group. */
  ghost predicate Together(groups: map<string, Records>, j: int, k: int) {
    exists t :: t in groups && j in groups[t] && k in groups[t]
  }

  /**
   * The groups of a batch: two of its records are in one group exactly when their
   * timestamps agree in year, month, day, hour and minute.
   */
  lemma GroupedByMinute(data: Records, j: int, k: int)
    requires AllTimestamps(data) && j in data && k in data
    ensures Together(Groups(data), j, k) <==> SameMinute(TimeOf(data[j].timestamp), TimeOf(data[k].timestamp))
  {
    hide Minute, TimeOf, IsTimestamp, Groups, SameMinute;
    var groups := Groups(data);
    GroupsAreSplit(data);
    assert IsTimestamp(data[j].timestamp) && IsTimestamp(data[k].timestamp);
    SameMinuteExactly(data[j].timestamp, data[k].timestamp);
    var t := Minute(data[j].timestamp);
    assert j in Group(groups, t) && k in Group(groups, Minute(data[k].timestamp));
    if Minute(data[k].timestamp) == t {
      assert t in groups && j in groups[t] && k in groups[t];
    }
  }

  /** And the group is named after these numbers. */
  lemma GroupName(data: Records, t: string, key: int)
    requires AllTimestamps(data) && t in Groups(data) && key in Groups(data)[t]
    ensures key in data && Natural(TimeOf(data[key].timestamp)) && t == MinuteName(TimeOf(data[key].timestamp))
  {
    hide Minute, TimeOf, IsTimestamp, Groups, MinuteName;
    GroupsAreSplit(data);
    assert IsTimestamp(data[key].timestamp);
    MinuteIsName(data[key].timestamp);
  }

  /** With one table per minute the table is named like the group; otherwise after the year alone. */
  lemma TableName(c: Config, ts: string)
    requires IsTimestamp(ts)
    ensures Natural(TimeOf(ts))
    ensures Table(c, Minute(ts)) == if c.oneTable then "t" + Padded(TimeOf(ts).year, 4) else MinuteName(TimeOf(ts))
  {
    hide Padded, TimeOf;
    MinuteIsName(ts);
    var year := Padded(TimeOf(ts).year, 4);
    PaddedLength(TimeOf(ts).year, 4);
    assert MinuteName(TimeOf(ts))[..5] == "t" + year;
  }

  lemma {:induction false} PaddedLength(n: nat, width: nat)
    ensures |Padded(n, width)| == width
  {
    if width > 0 {
      PaddedLength(n / 10, width - 1);
    }
  }
}
