/** The input sampling rates: the early-exit search for the nearest one, and the buffer sizes
  * that depend on it.
  */
module AudioRates {
  const TWO_31: int := 0x8000_0000
  const TWO_32: int := 0x1_0000_0000
  const PERIOD_SIZE := 1024       // AUDIO_HW_IN_PERIOD_SZ
  const SAMPLE_BYTES := 2         // sizeof(int16_t)
  const PCM_16_BIT := 1

  /** inputConfigTable: a rate, and the ratio of the kernel's buffer size to the HAL's. */
  const RATES: seq<int> := [8000, 11025, 16000, 22050, 32000, 44100]
  const RATIOS: seq<int> := [4, 4, 2, 2, 1, 1]

  function Abs(x: int): int { if x < 0 then -x else x }

  /** abs() of a uint32_t difference: it wraps, is reinterpreted as int, and then negated if
    * negative. At exactly 2^31 C leaves abs() undefined; the usual result is taken here. */
  function Delta(rate: int, entry: int): int {
    var d := (rate - entry) % TWO_32;
    if d < TWO_31 then d else TWO_32 - d
  }

  predicate Ascending(table: seq<int>) {
    forall i, j :: 0 <= i < j < |table| ==> table[i] < table[j]
  }

  /** `r` is the entry closest to `rate`, and of two equally close ones the larger. */
  ghost predicate Nearest(table: seq<int>, rate: int, r: int) {
    && r in table
    && forall k :: 0 <= k < |table| ==>
         && Abs(rate - r) <= Abs(rate - table[k])
         && (Abs(rate - table[k]) == Abs(rate - r) ==> table[k] <= r)
  }

  predicate RateTable(table: seq<int>) {
    0 < |table| && Ascending(table) && forall k :: 0 <= k < |table| ==> 0 < table[k] < TWO_31
  }

  /** The entry before the first one, from `i` on, that is farther away than its predecessor. */
  function Search(table: seq<int>, rate: int, i: nat): (r: int)
    requires 0 < i <= |table|
    ensures r in table
    decreases |table| - i
  {
    if i == |table| || Delta(rate, table[i]) > Delta(rate, table[i - 1]) then table[i - 1]
    else Search(table, rate, i + 1)
  }

  /** Stopping early is right: in an ascending table the distance falls and then rises. */
  lemma {:induction false} SearchFindsNearest(table: seq<int>, rate: int, i: nat)
    requires RateTable(table) && 0 <= rate < TWO_31 && 0 < i <= |table|
    requires forall k :: 0 <= k < i ==> Abs(rate - table[i - 1]) <= Abs(rate - table[k])
    requires forall k :: 0 <= k < i - 1 ==> table[k] < table[i - 1]
    ensures Nearest(table, rate, Search(table, rate, i))
    decreases |table| - i
  {
    if i < |table| {
      assert Delta(rate, table[i]) == Abs(rate - table[i]) && Delta(rate, table[i - 1]) == Abs(rate - table[i - 1]);
      if Delta(rate, table[i]) <= Delta(rate, table[i - 1]) {
        SearchFindsNearest(table, rate, i + 1);
      } else {
        forall k | i <= k < |table| ensures Abs(rate - table[k]) > Abs(rate - table[i - 1]) {
          assert table[i] <= table[k];
        }
      }
    }
  }

  /** The early-exit loop returns the nearest rate, for any table of positive rates in ascending
    * order and any rate below 2^31; and it fixes exactly the table's own rates. */
  method GetInputSampleRate(table: seq<int>, rate: int) returns (r: int)
    requires RateTable(table) && 0 <= rate < TWO_32
    ensures r == Search(table, rate, 1)
    ensures rate < TWO_31 ==> Nearest(table, rate, r)
    ensures r == rate <==> rate in table
  {
    var i := 0;
    var prevDelta := TWO_32 - 1;
    while i < |table|
      invariant 0 <= i <= |table|
      invariant if i == 0 then prevDelta == TWO_32 - 1 else prevDelta == Delta(rate, table[i - 1])
      invariant i > 0 ==> Search(table, rate, i) == Search(table, rate, 1)
    {
      var delta := Delta(rate, table[i]);
      if delta > prevDelta { break; }
      i, prevDelta := i + 1, delta;
    }
    r := table[i - 1];
    if rate < TWO_31 { SearchFindsNearest(table, rate, 1); }
  }

  /** The largest power of two that keeps the multiplied rate at or below the hardware's 44100. */
  predicate Ratio(rate: int, ratio: int) {
    (ratio == 1 || ratio == 2 || ratio == 4) && ratio * rate <= 44100 < 2 * ratio * rate
  }

  /** getInputBufferSize: 0 for a format, channel count or rate that is not supported, otherwise
    * the HAL's buffer in bytes. */
  method GetInputBufferSize(sampleRate: int, format: int, channelCount: int) returns (size: nat)
    requires 0 <= sampleRate < TWO_32
    ensures size > 0 <==> format == PCM_16_BIT && 1 <= channelCount <= 2 && sampleRate in RATES
    ensures size > 0 ==> exists ratio :: Ratio(sampleRate, ratio) && size * ratio == 1024 * channelCount * 2
  {
    if format != PCM_16_BIT { return 0; }
    if channelCount < 1 || channelCount > 2 { return 0; }
    var nearest := GetInputSampleRate(RATES, sampleRate);
    if sampleRate != nearest { return 0; }
    var found;
    size, found := GetBufferSize(sampleRate, channelCount);
    // the "invalid sampling rate" branch of getBufferSize is never taken from here
    assert found;
  }

  method GetBufferSize(sampleRate: int, channelCount: int) returns (size: nat, found: bool)
    requires 1 <= channelCount <= 2
    ensures found <==> sampleRate in RATES
    ensures !found ==> size == 0
    ensures found ==> size > 0 && exists ratio :: Ratio(sampleRate, ratio) && size * ratio == 1024 * channelCount * 2
  {
    var i := 0;
    while i < |RATES|
      invariant 0 <= i <= |RATES| && sampleRate !in RATES[..i]
    {
      if sampleRate == RATES[i] {
        assert Ratio(sampleRate, RATIOS[i]);
        size := PERIOD_SIZE * channelCount * SAMPLE_BYTES / RATIOS[i];
        return size, true;
      }
      i := i + 1;
    }
    return 0, false;
  }

  /** Beyond 2^31 the wrapped difference misleads the search over the actual table: the result is
    * the nearest rate exactly up to 2^31 + 9512. */
  lemma NearestExactly(rate: int)
    requires 0 <= rate < TWO_32
    ensures RateTable(RATES)
    ensures Nearest(RATES, rate, Search(RATES, rate, 1)) <==> rate <= TWO_31 + 9512
  {
    assert RateTable(RATES);
    if rate < TWO_31 {
      SearchFindsNearest(RATES, rate, 1);
    } else {
      assert forall k :: 0 <= k < 6 ==> Abs(rate - RATES[k]) == rate - RATES[k];
      SearchUnrolled(rate);
      var r := Search(RATES, rate, 1);
      assert RATES[5] == 44100;
    }
  }

  lemma SearchUnrolled(rate: int)
    requires TWO_31 <= rate < TWO_32
    ensures rate <= TWO_31 + 9512 ==> Search(RATES, rate, 1) == 44100
    ensures rate > TWO_31 + 9512 ==> Search(RATES, rate, 1) < 44100
  {
    hide Search, Delta;
    DeltaAbove(rate, 8000);
    DeltaAbove(rate, 11025);
    DeltaAbove(rate, 16000);
    DeltaAbove(rate, 22050);
    DeltaAbove(rate, 32000);
    DeltaAbove(rate, 44100);
    OnePass(rate, 8000, 11025, 1);
    OnePass(rate, 11025, 16000, 2);
    OnePass(rate, 16000, 22050, 3);
    OnePass(rate, 22050, 32000, 4);
    OnePass(rate, 32000, 44100, 5);
    assert Search(RATES, rate, 6) == 44100 by { LastPass(rate); }
  }

  /** The difference for a rate above the table, which may be taken for a negative one. */
  lemma DeltaAbove(rate: int, entry: int)
    requires 0 < entry <= TWO_31 <= rate < TWO_32
    ensures Delta(rate, entry) == if rate - entry < TWO_31 then rate - entry else TWO_32 - (rate - entry)
  {}

  /** One pass of the loop, from one entry to the next. */
  lemma OnePass(rate: int, entry: int, next: int, i: nat)
    requires 0 < i < 6 && RATES[i - 1] == entry && RATES[i] == next
    ensures Search(RATES, rate, i) ==
            if Delta(rate, next) > Delta(rate, entry) then entry else Search(RATES, rate, i + 1)
  {
    hide Delta;
  }

  lemma LastPass(rate: int)
    ensures Search(RATES, rate, 6) == 44100
  {}
}
