/**
  The analytics dashboard: delivery counts and rates over the stored
  message history, the week, month and selectable time windows, the
  per-day tallies behind the top day and the daily volume chart, and the
  per-month contact growth. The clock (`now`), the parsing of `sentAt` into
  milliseconds (`timeOf`) and the locale date keys (`dayOf`, `monthOf`) are
  parameters. Rates and averages are `real`.
 */
module AnalyticsDashboard {
  import opened Seqs
  import opened Page
  import opened MessageComposer

  const DayMillis: int := 24 * 60 * 60 * 1000

  function StatusIs(status: string): HistoryEntry -> bool
  {
    (e: HistoryEntry) => e.status == status
  }

  function DeliveredOrFailed(e: HistoryEntry): bool
  {
    e.status == "delivered" || e.status == "failed"
  }

  /** The entries with this status. */
  function CountStatus(history: seq<HistoryEntry>, status: string): (r: nat)
    ensures r <= |history|
    ensures r == 0 <==> forall e :: e in history ==> e.status != status
  {
    var kept := Filter(StatusIs(status), history);
    assert kept != [] ==> kept[0] in kept;
    |kept|
  }

  /** Delivered and failed entries together never outnumber the entries. */
  lemma CountsWithinTotal(history: seq<HistoryEntry>)
    ensures CountStatus(history, "delivered") + CountStatus(history, "failed") <= |history|
  {
    FilterSplit(StatusIs("delivered"), StatusIs("failed"), DeliveredOrFailed, history);
  }

  function SentSince(start: int, timeOf: string -> int): HistoryEntry -> bool
  {
    (e: HistoryEntry) => timeOf(e.sentAt) >= start
  }

  /** The entries sent at or after `start`, in stored order. */
  function Since(history: seq<HistoryEntry>, start: int, timeOf: string -> int): (r: seq<HistoryEntry>)
    ensures forall e :: e in r <==> e in history && timeOf(e.sentAt) >= start
    ensures forall e :: multiset(r)[e] == if timeOf(e.sentAt) >= start then multiset(history)[e] else 0
    ensures IsSubsequence(r, history)
  {
    FilterIsSubsequence(SentSince(start, timeOf), history);
    FilterMultiplicity(SentSince(start, timeOf), history);
    Filter(SentSince(start, timeOf), history)
  }

  /** A later start keeps no more entries. */
  lemma SinceShrinks(history: seq<HistoryEntry>, earlier: int, later: int, timeOf: string -> int)
    requires earlier <= later
    ensures |Since(history, later, timeOf)| <= |Since(history, earlier, timeOf)|
  {
    FilterMonotone(SentSince(later, timeOf), SentSince(earlier, timeOf), history);
  }

  /** The number of days `getTimeRangeData` looks back for a range; anything unknown is a week. */
  function RangeDays(timeRange: string): nat
  {
    if timeRange == "7d" then 7
    else if timeRange == "30d" then 30
    else if timeRange == "90d" then 90
    else 7
  }

  /** `getTimeRangeData`: the entries of the selected window. */
  function TimeRangeData(history: seq<HistoryEntry>, now: int, timeRange: string, timeOf: string -> int): seq<HistoryEntry>
  {
    Since(history, now - RangeDays(timeRange) * DayMillis, timeOf)
  }

  /** The three windows nest, and an unknown range is the seven-day window. */
  lemma TimeRangesNest(history: seq<HistoryEntry>, now: int, timeRange: string, timeOf: string -> int)
    ensures |TimeRangeData(history, now, "7d", timeOf)| <= |TimeRangeData(history, now, "30d", timeOf)|
    ensures |TimeRangeData(history, now, "30d", timeOf)| <= |TimeRangeData(history, now, "90d", timeOf)|
    ensures |TimeRangeData(history, now, "90d", timeOf)| <= |history|
    ensures timeRange != "30d" && timeRange != "90d" ==>
              TimeRangeData(history, now, timeRange, timeOf) == TimeRangeData(history, now, "7d", timeOf)
  {
    assert RangeDays("7d") == 7 && RangeDays("30d") == 30 && RangeDays("90d") == 90;
    SinceShrinks(history, now - 30 * DayMillis, now - 7 * DayMillis, timeOf);
    SinceShrinks(history, now - 90 * DayMillis, now - 30 * DayMillis, timeOf);
    if timeRange != "30d" && timeRange != "90d" {
      assert RangeDays(timeRange) == 7;
    }
  }

  /** `deliveryRate` and the time range's rate: a percentage, 0 when there is nothing to divide by. */
  function DeliveryRate(delivered: nat, total: nat): (r: real)
    ensures total == 0 ==> r == 0.0
    ensures delivered <= total ==> 0.0 <= r <= 100.0
    ensures total > 0 ==> r * (total as real) == (delivered as real) * 100.0
  {
    if total > 0 then
      var q := delivered as real / total as real;
      assert q * (total as real) == delivered as real;
      assert delivered <= total ==> q <= 1.0;
      q * 100.0
    else 0.0
  }

  /**
    `timeRangeDeliveryRate`: the delivery rate of the selected window's
    entries, so a percentage of those entries and 0 for an empty window.
   */
  function TimeRangeDeliveryRate(history: seq<HistoryEntry>, now: int, timeRange: string, timeOf: string -> int): (r: real)
    ensures 0.0 <= r <= 100.0
    ensures TimeRangeData(history, now, timeRange, timeOf) == [] ==> r == 0.0
    ensures var window := TimeRangeData(history, now, timeRange, timeOf);
      r == DeliveryRate(CountStatus(window, "delivered"), |window|)
  {
    var window := TimeRangeData(history, now, timeRange, timeOf);
    DeliveryRate(CountStatus(window, "delivered"), |window|)
  }

  /** `averageMessagesPerDay`: the month's count spread over 30 days, 0 for an empty month. */
  function AveragePerDay(monthCount: nat): (r: real)
    ensures r >= 0.0
    ensures r == 0.0 <==> monthCount == 0
    ensures r * 30.0 == monthCount as real
  {
    if monthCount > 0 then monthCount as real / 30.0 else 0.0
  }

  /** The date key of every entry, in stored order. */
  function Days(history: seq<HistoryEntry>, dayOf: string -> string): (r: seq<string>)
    ensures |r| == |history|
    ensures forall i :: 0 <= i < |history| ==> r[i] == dayOf(history[i].sentAt)
  {
    seq(|history|, i requires 0 <= i < |history| => dayOf(history[i].sentAt))
  }

  /** Every key among the first occurrences occurs in `keys`. */
  lemma KeysSeenOccur(keys: seq<string>)
    ensures forall k :: k in FirstOccurrences(keys) ==> k in keys && multiset(keys)[k] >= 1
  {
    forall k | k in FirstOccurrences(keys)
      ensures k in keys && multiset(keys)[k] >= 1
    {
      assert k in multiset(keys);
    }
  }

  /**
    `Object.entries` of a key-count object filled by one pass over `keys`:
    each distinct key once, in first-seen order, with its number of
    occurrences.
   */
  function TallyEntries(keys: seq<string>): (r: seq<(string, nat)>)
    ensures |r| == |FirstOccurrences(keys)|
    ensures forall i :: 0 <= i < |r| ==> r[i].0 == FirstOccurrences(keys)[i]
    ensures forall i :: 0 <= i < |r| ==> r[i].0 in keys && r[i].1 == multiset(keys)[r[i].0] && r[i].1 >= 1
  {
    var keysSeen := FirstOccurrences(keys);
    KeysSeenOccur(keys);
    seq(|keysSeen|, i requires 0 <= i < |keysSeen| => (keysSeen[i], multiset(keys)[keysSeen[i]]))
  }

  /**
    The key-count object a `forEach` fills from `keys` (`dailyMessages`,
    `growth`): each key's count is raised by one, a new key starting from 0.
   */
  function CountMap(keys: seq<string>): map<string, nat>
  {
    if keys == [] then map[]
    else
      var counts := CountMap(keys[..|keys| - 1]);
      var k := keys[|keys| - 1];
      counts[k := (if k in counts then counts[k] else 0) + 1]
  }

  /** The object has exactly the keys seen, each with its number of occurrences. */
  lemma {:induction false} CountMapCounts(keys: seq<string>)
    ensures forall k :: k in CountMap(keys) <==> k in keys
    ensures forall k :: k in CountMap(keys) ==> CountMap(keys)[k] == multiset(keys)[k]
    decreases |keys|
  {
    if keys != [] {
      var n := |keys| - 1;
      CountMapCounts(keys[..n]);
      assert keys == keys[..n] + [keys[n]];
    }
  }

  /**
    The `forEach` that fills a key-count object, with `order` the order in
    which keys were first inserted.
   */
  method CountKeys(keys: seq<string>) returns (order: seq<string>, counts: map<string, nat>)
    ensures order == FirstOccurrences(keys)
    ensures counts == CountMap(keys)
  {
    counts := map[];
    order := [];
    for i := 0 to |keys|
      invariant order == FirstOccurrences(keys[..i])
      invariant counts == CountMap(keys[..i])
    {
      assert keys[..i + 1][..i] == keys[..i];
      CountMapCounts(keys[..i]);
      var k := keys[i];
      if k !in counts {
        order := order + [k];
      }
      counts := counts[k := (if k in counts then counts[k] else 0) + 1];
    }
    assert keys[..|keys|] == keys;
  }

  /** The filled object's entries, in insertion order. */
  method Tally(keys: seq<string>) returns (entries: seq<(string, nat)>)
    ensures entries == TallyEntries(keys)
  {
    var order, counts := CountKeys(keys);
    CountMapCounts(keys);
    entries := seq(|order|, i requires 0 <= i < |order| => (order[i], counts[order[i]]));
  }

  /**
    The `topDay` reduction over the entries: a strictly larger count
    replaces the best so far, starting from ("N/A", 0).
   */
  function TopOf(entries: seq<(string, nat)>): (r: (string, nat))
    ensures r == ("N/A", 0) || r in entries
    ensures forall e :: e in entries ==> e.1 <= r.1
    ensures (forall e :: e in entries ==> e.1 == 0) ==> r == ("N/A", 0)
  {
    if entries == [] then ("N/A", 0)
    else
      var best := TopOf(entries[..|entries| - 1]);
      var last := entries[|entries| - 1];
      assert forall e :: e in entries ==> e in entries[..|entries| - 1] || e == last;
      if last.1 > best.1 then last else best
  }

  /** On a tie the earliest entry wins: every entry before the chosen one has a smaller count. */
  lemma {:induction false} TopIsFirstMaximum(entries: seq<(string, nat)>)
    ensures var r := TopOf(entries);
      r.1 > 0 ==> exists i :: 0 <= i < |entries| && entries[i] == r && forall j :: 0 <= j < i ==> entries[j].1 < r.1
    decreases |entries|
  {
    if entries != [] {
      var n := |entries| - 1;
      var prefix := entries[..n];
      TopIsFirstMaximum(prefix);
      var best := TopOf(prefix);
      if entries[n].1 > best.1 {
        forall j | 0 <= j < n
          ensures entries[j].1 < entries[n].1
        {
          assert entries[j] == prefix[j];
        }
      } else if best.1 > 0 {
        var i :| 0 <= i < |prefix| && prefix[i] == best && forall j :: 0 <= j < i ==> prefix[j].1 < best.1;
        assert entries[i] == best;
        forall j | 0 <= j < i
          ensures entries[j].1 < best.1
        {
          assert entries[j] == prefix[j];
        }
      }
    }
  }

  /** `topPerformingDay` is "N/A" exactly when there is no history (no entry's day is literally "N/A"). */
  lemma TopDayIsNAIffEmpty(history: seq<HistoryEntry>, dayOf: string -> string)
    requires forall e :: e in history ==> dayOf(e.sentAt) != "N/A"
    ensures TopOf(TallyEntries(Days(history, dayOf))).0 == "N/A" <==> history == []
  {
    var keys := Days(history, dayOf);
    var entries := TallyEntries(keys);
    var r := TopOf(entries);
    if history != [] {
      assert keys[0] in FirstOccurrences(keys);
      var i :| 0 <= i < |entries| && FirstOccurrences(keys)[i] == keys[0];
      assert entries[i] in entries;
      assert r.1 >= 1;
      assert r in entries;
      var k :| 0 <= k < |entries| && entries[k] == r;
      assert r.0 in keys;
      var m :| 0 <= m < |keys| && keys[m] == r.0;
      assert history[m] in history;
    } else {
      assert keys == [];
    }
  }

  datatype Analytics = Analytics(
    totalMessages: nat,
    deliveredMessages: nat,
    failedMessages: nat,
    deliveryRate: real,
    totalContacts: nat,
    messagesThisWeek: nat,
    messagesThisMonth: nat,
    topPerformingDay: string,
    averageMessagesPerDay: real)

  /** `analyticsData`. */
  method ComputeAnalytics(history: seq<HistoryEntry>, contacts: seq<Contact>, now: int,
                          timeOf: string -> int, dayOf: string -> string) returns (a: Analytics)
    ensures a.totalMessages == |history| && a.totalContacts == |contacts|
    ensures a.deliveredMessages == CountStatus(history, "delivered")
    ensures a.failedMessages == CountStatus(history, "failed")
    ensures a.deliveredMessages + a.failedMessages <= a.totalMessages
    ensures a.deliveryRate == DeliveryRate(a.deliveredMessages, a.totalMessages)
    ensures 0.0 <= a.deliveryRate <= 100.0 && (history == [] ==> a.deliveryRate == 0.0)
    ensures a.messagesThisWeek == |Since(history, now - 7 * DayMillis, timeOf)|
    ensures a.messagesThisMonth == |Since(history, now - 30 * DayMillis, timeOf)|
    ensures a.messagesThisWeek <= a.messagesThisMonth <= a.totalMessages
    ensures a.topPerformingDay == TopOf(TallyEntries(Days(history, dayOf))).0
    ensures history == [] ==> a.topPerformingDay == "N/A"
    ensures (forall e :: e in history ==> dayOf(e.sentAt) != "N/A") ==> (a.topPerformingDay == "N/A" <==> history == [])
    ensures a.averageMessagesPerDay == AveragePerDay(a.messagesThisMonth)
  {
    var delivered := CountStatus(history, "delivered");
    var failed := CountStatus(history, "failed");
    CountsWithinTotal(history);
    var total := |history|;
    var week := |Since(history, now - 7 * DayMillis, timeOf)|;
    var month := |Since(history, now - 30 * DayMillis, timeOf)|;
    SinceShrinks(history, now - 30 * DayMillis, now - 7 * DayMillis, timeOf);
    var daily := Tally(Days(history, dayOf));
    var top := TopOf(daily);
    if forall e :: e in history ==> dayOf(e.sentAt) != "N/A" {
      TopDayIsNAIffEmpty(history, dayOf);
    }
    a := Analytics(total, delivered, failed, DeliveryRate(delivered, total), |contacts|,
                   week, month, top.0, AveragePerDay(month));
  }

  /** The delivered and failed counts of one day of the chart. */
  datatype Bucket = Bucket(delivered: nat, failed: nat)

  function OnDay(day: string, dayOf: string -> string): HistoryEntry -> bool
  {
    (e: HistoryEntry) => dayOf(e.sentAt) == day
  }

  function OnDayDelivered(day: string, dayOf: string -> string): HistoryEntry -> bool
  {
    (e: HistoryEntry) => dayOf(e.sentAt) == day && e.status == "delivered"
  }

  /** Any status other than "delivered" counts as failed in the chart. */
  function OnDayNotDelivered(day: string, dayOf: string -> string): HistoryEntry -> bool
  {
    (e: HistoryEntry) => dayOf(e.sentAt) == day && e.status != "delivered"
  }

  /** The bucket of one day. */
  function BucketOf(samples: seq<HistoryEntry>, day: string, dayOf: string -> string): Bucket
  {
    Bucket(|Filter(OnDayDelivered(day, dayOf), samples)|, |Filter(OnDayNotDelivered(day, dayOf), samples)|)
  }

  /** A day's two counts add up to the entries of that day. */
  lemma BucketCountsDay(samples: seq<HistoryEntry>, day: string, dayOf: string -> string)
    ensures BucketOf(samples, day, dayOf).delivered + BucketOf(samples, day, dayOf).failed
            == |Filter(OnDay(day, dayOf), samples)|
  {
    FilterSplit(OnDayDelivered(day, dayOf), OnDayNotDelivered(day, dayOf), OnDay(day, dayOf), samples);
  }

  /** The chart's entries before slicing: each day once, first-seen order, with its bucket. */
  function DailyEntries(samples: seq<HistoryEntry>, dayOf: string -> string): (r: seq<(string, Bucket)>)
    ensures |r| == |FirstOccurrences(Days(samples, dayOf))|
    ensures forall i :: 0 <= i < |r| ==> r[i].0 == FirstOccurrences(Days(samples, dayOf))[i]
    ensures forall i, j :: 0 <= i < j < |r| ==> r[i].0 != r[j].0
    ensures forall i :: 0 <= i < |r| ==> r[i].1 == BucketOf(samples, r[i].0, dayOf)
    ensures forall d :: d in Days(samples, dayOf) <==> exists i :: 0 <= i < |r| && r[i].0 == d
  {
    var days := FirstOccurrences(Days(samples, dayOf));
    seq(|days|, i requires 0 <= i < |days| => (days[i], BucketOf(samples, days[i], dayOf)))
  }

  /** One more entry raises exactly one count of its own day's bucket. */
  lemma BucketStep(samples: seq<HistoryEntry>, i: nat, day: string, dayOf: string -> string)
    requires i < |samples|
    ensures var before, after := BucketOf(samples[..i], day, dayOf), BucketOf(samples[..i + 1], day, dayOf);
      var e := samples[i];
      after == if dayOf(e.sentAt) != day then before
               else if e.status == "delivered" then before.(delivered := before.delivered + 1)
               else before.(failed := before.failed + 1)
  {
    assert samples[..i + 1] == samples[..i] + [samples[i]];
    FilterAppend(OnDayDelivered(day, dayOf), samples[..i], [samples[i]]);
    FilterAppend(OnDayNotDelivered(day, dayOf), samples[..i], [samples[i]]);
  }

  /** A day not seen yet has an empty bucket. */
  lemma UnseenDayIsEmpty(samples: seq<HistoryEntry>, day: string, dayOf: string -> string)
    requires day !in Days(samples, dayOf)
    ensures BucketOf(samples, day, dayOf) == Bucket(0, 0)
  {
    var days := Days(samples, dayOf);
    assert forall e :: e in samples ==> dayOf(e.sentAt) in days;
    FilterKeepsNone(OnDayDelivered(day, dayOf), samples);
    FilterKeepsNone(OnDayNotDelivered(day, dayOf), samples);
  }

  /** The day keys of a longer prefix extend those of the shorter one. */
  lemma DaysStep(samples: seq<HistoryEntry>, i: nat, dayOf: string -> string)
    requires i < |samples|
    ensures Days(samples[..i + 1], dayOf) == Days(samples[..i], dayOf) + [dayOf(samples[i].sentAt)]
  {
  }

  /** One entry counted into a bucket: delivered, or failed for any other status. */
  function Counted(b: Bucket, e: HistoryEntry): Bucket
  {
    if e.status == "delivered" then b.(delivered := b.delivered + 1) else b.(failed := b.failed + 1)
  }

  /** The `daily` object the `forEach` of `dailyVolumeData` fills from `samples`. */
  function DailyMap(samples: seq<HistoryEntry>, dayOf: string -> string): map<string, Bucket>
  {
    if samples == [] then map[]
    else
      var daily := DailyMap(samples[..|samples| - 1], dayOf);
      var e := samples[|samples| - 1];
      var day := dayOf(e.sentAt);
      daily[day := Counted(if day in daily then daily[day] else Bucket(0, 0), e)]
  }

  /** One more entry is counted into its own day's bucket, a new day starting empty. */
  lemma DailyMapStep(samples: seq<HistoryEntry>, i: nat, dayOf: string -> string)
    requires i < |samples|
    ensures var daily := DailyMap(samples[..i], dayOf);
      var day := dayOf(samples[i].sentAt);
      DailyMap(samples[..i + 1], dayOf) == daily[day := Counted(if day in daily then daily[day] else Bucket(0, 0), samples[i])]
  {
    assert samples[..i + 1][..i] == samples[..i];
  }

  /** The object has a bucket for exactly the days seen. */
  lemma {:induction false} DailyMapDays(samples: seq<HistoryEntry>, dayOf: string -> string)
    ensures forall d :: d in DailyMap(samples, dayOf) <==> d in Days(samples, dayOf)
    decreases |samples|
  {
    if samples != [] {
      var n := |samples| - 1;
      assert samples[..n + 1] == samples;
      DailyMapDays(samples[..n], dayOf);
      DaysStep(samples, n, dayOf);
    }
  }

  /** Each day's bucket holds exactly that day's counts. */
  lemma {:induction false} DailyMapBuckets(samples: seq<HistoryEntry>, dayOf: string -> string)
    ensures forall d :: d in DailyMap(samples, dayOf) <==> d in Days(samples, dayOf)
    ensures forall d :: d in DailyMap(samples, dayOf) ==> DailyMap(samples, dayOf)[d] == BucketOf(samples, d, dayOf)
    decreases |samples|
  {
    DailyMapDays(samples, dayOf);
    if samples != [] {
      var n := |samples| - 1;
      var prefix := samples[..n];
      assert samples[..n + 1] == samples;
      DailyMapBuckets(prefix, dayOf);
      var day := dayOf(samples[n].sentAt);
      if day !in DailyMap(prefix, dayOf) {
        UnseenDayIsEmpty(prefix, day, dayOf);
      }
      forall d | d in DailyMap(samples, dayOf)
        ensures DailyMap(samples, dayOf)[d] == BucketOf(samples, d, dayOf)
      {
        BucketStep(samples, n, d, dayOf);
      }
    }
  }

  /** One more entry: its day joins the key order exactly when `daily` has no bucket for it yet. */
  lemma DayOrderStep(samples: seq<HistoryEntry>, i: nat, dayOf: string -> string)
    requires i < |samples|
    ensures var day := dayOf(samples[i].sentAt);
      var order := FirstOccurrences(Days(samples[..i], dayOf));
      FirstOccurrences(Days(samples[..i + 1], dayOf))
      == if day in DailyMap(samples[..i], dayOf) then order else order + [day]
  {
    DaysStep(samples, i, dayOf);
    FirstOccurrencesAppend(Days(samples[..i], dayOf), dayOf(samples[i].sentAt));
    DailyMapDays(samples[..i], dayOf);
  }

  /** The `forEach` of `dailyVolumeData`, with `order` the order in which days were first inserted. */
  method FillDaily(samples: seq<HistoryEntry>, dayOf: string -> string) returns (order: seq<string>, daily: map<string, Bucket>)
    ensures order == FirstOccurrences(Days(samples, dayOf))
    ensures daily == DailyMap(samples, dayOf)
  {
    daily := map[];
    order := [];
    for i := 0 to |samples|
      invariant order == FirstOccurrences(Days(samples[..i], dayOf))
      invariant daily == DailyMap(samples[..i], dayOf)
    {
      var e := samples[i];
      var day := dayOf(e.sentAt);
      DayOrderStep(samples, i, dayOf);
      DailyMapStep(samples, i, dayOf);
      var b := Bucket(0, 0);
      if day in daily {
        b := daily[day];
      } else {
        order := order + [day];
      }
      daily := daily[day := Counted(b, e)];
    }
    assert samples[..|samples|] == samples;
  }

  /**
    The body of `dailyVolumeData` over the entries it is given: the last
    seven days of the filled object's entries, each bucket counting the
    given entries that fall on its day.
   */
  method DailyVolumeOf(samples: seq<HistoryEntry>, dayOf: string -> string) returns (entries: seq<(string, Bucket)>)
    ensures entries == TakeLast(DailyEntries(samples, dayOf), 7)
    ensures |entries| <= 7
    ensures forall i :: 0 <= i < |entries| ==>
              entries[i].1.delivered + entries[i].1.failed == |Filter(OnDay(entries[i].0, dayOf), samples)|
  {
    var order, daily := FillDaily(samples, dayOf);
    DailyMapBuckets(samples, dayOf);
    var all := seq(|order|, i requires 0 <= i < |order| => (order[i], daily[order[i]]));
    assert all == DailyEntries(samples, dayOf);
    entries := TakeLast(all, 7);
    forall i | 0 <= i < |entries|
      ensures entries[i].1.delivered + entries[i].1.failed == |Filter(OnDay(entries[i].0, dayOf), samples)|
    {
      BucketCountsDay(samples, entries[i].0, dayOf);
    }
  }

  /**
    `dailyVolumeData`: the selected window's entries bucketed by day, the
    last seven days of the filled object's entries. Each bucket counts only
    entries of the window.
   */
  method DailyVolume(history: seq<HistoryEntry>, now: int, timeRange: string, timeOf: string -> int,
                     dayOf: string -> string) returns (entries: seq<(string, Bucket)>)
    ensures entries == TakeLast(DailyEntries(TimeRangeData(history, now, timeRange, timeOf), dayOf), 7)
    ensures |entries| <= 7
    ensures forall i :: 0 <= i < |entries| ==>
              entries[i].1.delivered + entries[i].1.failed
              == |Filter(OnDay(entries[i].0, dayOf), TimeRangeData(history, now, timeRange, timeOf))|
  {
    entries := DailyVolumeOf(TimeRangeData(history, now, timeRange, timeOf), dayOf);
  }

  /** The month key of every contact's `addedDate`, in roster order. */
  function Months(contacts: seq<Contact>, monthOf: string -> string): seq<string>
  {
    seq(|contacts|, i requires 0 <= i < |contacts| => monthOf(contacts[i].addedDate))
  }

  /** `contactGrowthData`: contacts per month, the last six months of the object's entries. */
  method ContactGrowth(contacts: seq<Contact>, monthOf: string -> string) returns (growth: seq<(string, nat)>)
    ensures growth == TakeLast(TallyEntries(Months(contacts, monthOf)), 6)
    ensures |growth| <= 6
  {
    var all := Tally(Months(contacts, monthOf));
    growth := TakeLast(all, 6);
  }
}
