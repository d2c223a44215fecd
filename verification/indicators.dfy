/** The one indicator the strategy reads: the Donchian channel, the highest
    high and the lowest low over the last `n` bars of the window. */
module Indicators {

  import opened Options
  import opened RollingWindow

  datatype Channel = Channel(up: real, down: real)

  /** The longest period TA-Lib's rolling MAX and MIN accept. */
  const MaxPeriod: int := 100000

  /** `x` is one of the values of `s` and no value of `s` exceeds it. */
  predicate IsHighest(x: real, s: seq<real>)
  {
    x in s && forall i :: 0 <= i < |s| ==> s[i] <= x
  }

  /** `x` is one of the values of `s` and no value of `s` is below it. */
  predicate IsLowest(x: real, s: seq<real>)
  {
    x in s && forall i :: 0 <= i < |s| ==> x <= s[i]
  }

  /** The rolling maximum's latest value (`talib.MAX(...)[-1]`). */
  function SeqMax(s: seq<real>): (m: real)
    requires |s| > 0
    ensures IsHighest(m, s)
  {
    if |s| == 1 then s[0]
    else
      var rest := SeqMax(s[..|s| - 1]);
      assert rest in s[..|s| - 1];
      if s[|s| - 1] > rest then s[|s| - 1] else rest
  }

  /** The rolling minimum's latest value (`talib.MIN(...)[-1]`). */
  function SeqMin(s: seq<real>): (m: real)
    requires |s| > 0
    ensures IsLowest(m, s)
  {
    if |s| == 1 then s[0]
    else
      var rest := SeqMin(s[..|s| - 1]);
      assert rest in s[..|s| - 1];
      if s[|s| - 1] < rest then s[|s| - 1] else rest
  }

  /** `donchian(n)`: upper band is the highest of the last `n` highs, lower
      band the lowest of the last `n` lows. The rolling max/min accept
      periods from 2 to `MaxPeriod` only (any other period raises, whatever
      the data); a period longer than the window leaves no full lookback and
      yields not-a-number, modelled as `None`. */
  function Donchian(w: Window, n: int): (r: Option<Channel>)
    requires w.Valid() && 2 <= n <= MaxPeriod
    ensures r.Some? <==> n <= w.size
    ensures r.Some? ==> IsHighest(r.value.up, w.highArray[w.size - n..])
    ensures r.Some? ==> IsLowest(r.value.down, w.lowArray[w.size - n..])
  {
    if n <= w.size then
      Some(Channel(SeqMax(w.highArray[w.size - n..]), SeqMin(w.lowArray[w.size - n..])))
    else
      None
  }

  /** The channel computed right after a bar arrives always covers that bar:
      its upper band is at least the bar's high and its lower band at most
      the bar's low. */
  lemma ChannelCoversLatestBar(w: Window, bar: Bar, n: int)
    requires w.Valid() && w.size >= 1 && 2 <= n <= w.size && n <= MaxPeriod
    ensures var ch := Donchian(UpdateBar(w, bar), n);
            ch.Some? && bar.high <= ch.value.up && ch.value.down <= bar.low
  {
    var u := UpdateBar(w, bar);
    assert u.Array(High)[w.size - 1] == bar.high;
    assert u.Array(Low)[w.size - 1] == bar.low;
    assert u.highArray[w.size - n..][n - 1] == bar.high;
    assert u.lowArray[w.size - n..][n - 1] == bar.low;
  }

  /** When every bar in the lookback has its low at or below its high, the
      lower band is at or below the upper band. */
  lemma ChannelOrdered(w: Window, n: int)
    requires w.Valid() && 2 <= n <= w.size && n <= MaxPeriod
    requires forall i :: w.size - n <= i < w.size ==> w.lowArray[i] <= w.highArray[i]
    ensures Donchian(w, n).value.down <= Donchian(w, n).value.up
  {
    var ch := Donchian(w, n).value;
    var lows := w.lowArray[w.size - n..];
    var highs := w.highArray[w.size - n..];
    assert lows[0] <= highs[0];
  }

}
