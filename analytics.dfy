/** The chart transforms of src/pages/analytics/useData.tsx. The analytics service
    returns, per day, an object from expiry date to a value; each day becomes one row
    holding the formatted date, one field per formatted expiry and the day's total
    volume. Objects are modelled as key/value sequences in key order, and the date
    formatter (`format(new Date(k), "dMMMyy")`) is a parameter. */
module Analytics {
  import opened Wrappers

  /** What the daily-volume endpoint returns per expiry (only the field that is read). */
  datatype OpenInterest = OpenInterest(totalInNum: real)

  /** A TradeDetail row: `date`, `volume`, and the per-expiry fields. */
  datatype TradeDetail = TradeDetail(date: string, volume: real, byExpiry: map<string, real>)

  /** The sum the `forEach` accumulates in `volume`. */
  function SumValues<V>(entries: seq<(string, V)>, value: V -> real): real {
    if entries == [] then 0.0
    else SumValues(entries[..|entries| - 1], value) + value(entries[|entries| - 1].1)
  }

  /** The fields the `forEach` writes, each assignment overwriting an earlier one with the
      same formatted key. */
  function ExpiryFields<V>(entries: seq<(string, V)>, value: V -> real, format: string -> string): map<string, real> {
    if entries == [] then map[]
    else
      var last := entries[|entries| - 1];
      ExpiryFields(entries[..|entries| - 1], value, format)[format(last.0) := value(last.1)]
  }

  /** The row one day becomes. */
  function Row<V>(day: (string, seq<(string, V)>), value: V -> real, format: string -> string): TradeDetail {
    TradeDetail(format(day.0), SumValues(day.1, value), ExpiryFields(day.1, value, format))
  }

  /** The callback of `Object.keys(results).map`: the `forEach` over one day's expiries. */
  method BuildRow<V>(day: string, expiries: seq<(string, V)>, value: V -> real, format: string -> string)
    returns (row: TradeDetail)
    ensures row == Row((day, expiries), value, format)
  {
    var volume := 0.0;
    var fields: map<string, real> := map[];
    var i := 0;
    while i < |expiries|
      invariant 0 <= i <= |expiries|
      invariant volume == SumValues(expiries[..i], value)
      invariant fields == ExpiryFields(expiries[..i], value, format)
    {
      var formattedKey := format(expiries[i].0);
      fields := fields[formattedKey := value(expiries[i].1)];
      volume := volume + value(expiries[i].1);
      assert expiries[..i + 1][..i] == expiries[..i];
      i := i + 1;
    }
    assert expiries[..i] == expiries;
    row := TradeDetail(format(day), volume, fields);
  }

  /** Both transforms: no input gives no rows; otherwise one row per day, in key order. */
  method Transform<V>(results: Option<seq<(string, seq<(string, V)>)>>, value: V -> real, format: string -> string)
    returns (rows: seq<TradeDetail>)
    ensures results.None? ==> rows == []
    ensures results.Some? ==> |rows| == |results.value|
    ensures results.Some? ==> forall k :: 0 <= k < |rows| ==> rows[k] == Row(results.value[k], value, format)
  {
    if results.None? {
      return [];
    }
    var days := results.value;
    rows := [];
    for i := 0 to |days|
      invariant |rows| == i
      invariant forall k :: 0 <= k < i ==> rows[k] == Row(days[k], value, format)
    {
      var row := BuildRow(days[i].0, days[i].1, value, format);
      rows := rows + [row];
    }
  }

  function TradeVolume(v: real): real { v }
  function TotalInNum(v: OpenInterest): real { v.totalInNum }

  /** `transformTrades`: the per-expiry values are numbers. */
  method TransformTrades(results: Option<seq<(string, seq<(string, real)>)>>, format: string -> string)
    returns (rows: seq<TradeDetail>)
    ensures results.None? ==> rows == []
    ensures results.Some? ==> |rows| == |results.value|
    ensures results.Some? ==> forall k :: 0 <= k < |rows| ==> rows[k] == Row(results.value[k], TradeVolume, format)
  {
    rows := Transform(results, TradeVolume, format);
  }

  /** `transformDailyVolume`: the same shape, reading `.totalInNum` for the fields and the sum. */
  method TransformDailyVolume(results: Option<seq<(string, seq<(string, OpenInterest)>)>>, format: string -> string)
    returns (rows: seq<TradeDetail>)
    ensures results.None? ==> rows == []
    ensures results.Some? ==> |rows| == |results.value|
    ensures results.Some? ==> forall k :: 0 <= k < |rows| ==> rows[k] == Row(results.value[k], TotalInNum, format)
  {
    rows := Transform(results, TotalInNum, format);
  }

  // ---------------------------------------------------------------------------
  // Properties of a row

  /** The volume of a concatenation is the sum of the volumes: every expiry counts once. */
  lemma {:induction false} SumValuesAppend<V>(a: seq<(string, V)>, b: seq<(string, V)>, value: V -> real)
    ensures SumValues(a + b, value) == SumValues(a, value) + SumValues(b, value)
  {
    if b == [] {
      assert a + b == a;
    } else {
      assert (a + b)[..|a + b| - 1] == a + b[..|b| - 1];
      SumValuesAppend(a, b[..|b| - 1], value);
    }
  }

  /** A field exists exactly for the formatted keys, and holds the value of the LAST expiry
      that formats to it. */
  lemma {:induction false} ExpiryFieldsLookup<V>(entries: seq<(string, V)>, value: V -> real, format: string -> string, key: string)
    ensures key in ExpiryFields(entries, value, format) <==>
            exists i :: 0 <= i < |entries| && format(entries[i].0) == key
    ensures forall i :: 0 <= i < |entries| && format(entries[i].0) == key &&
                        (forall j :: i < j < |entries| ==> format(entries[j].0) != key) ==>
                        key in ExpiryFields(entries, value, format) &&
                        ExpiryFields(entries, value, format)[key] == value(entries[i].1)
  {
    if entries != [] {
      var prefix := entries[..|entries| - 1];
      ExpiryFieldsLookup(prefix, value, format, key);
      if format(entries[|entries| - 1].0) != key {
        forall i | 0 <= i < |prefix| && format(entries[i].0) == key
          ensures format(prefix[i].0) == key
        {
        }
      }
    }
  }

  /** A day without expiries has volume 0 and no fields. */
  lemma EmptyDay(day: string, value: real -> real, format: string -> string)
    ensures Row((day, []), value, format) == TradeDetail(format(day), 0.0, map[])
  {
  }

  /** Two expiries that format to the same key: the field keeps the later value, while
      the volume still counts both. */
  lemma CollidingExpiries(e1: string, v1: real, e2: string, v2: real, format: string -> string)
    requires format(e1) == format(e2)
    ensures var row := Row(("day", [(e1, v1), (e2, v2)]), TradeVolume, format);
      row.byExpiry == map[format(e2) := v2] && row.volume == v1 + v2
  {
    var entries := [(e1, v1), (e2, v2)];
    assert entries[..1] == [(e1, v1)];
    assert [(e1, v1)][..0] == [];
    assert ExpiryFields([(e1, v1)], TradeVolume, format) == map[format(e1) := v1];
    assert ExpiryFields(entries, TradeVolume, format) == map[format(e1) := v1][format(e2) := v2];
    assert SumValues([(e1, v1)], TradeVolume) == v1;
    assert SumValues(entries, TradeVolume) == v1 + v2;
  }
}
