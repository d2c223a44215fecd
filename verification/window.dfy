/** The rolling bar window (`MyArrayManager`): six parallel arrays of fixed
    length, shifted left by one on every bar, plus a bar counter and a
    readiness latch. */
module RollingWindow {

  /** One OHLCV bar; the engine's timestamp is not used by the strategy. */
  datatype Bar = Bar(open: real, high: real, low: real, close: real, volume: real, openInterest: real)

  /** Names the six per-bar fields the window keeps. */
  datatype Field = Open | High | Low | Close | Volume | OpenInterest

  function Get(b: Bar, f: Field): real
  {
    match f
    case Open => b.open
    case High => b.high
    case Low => b.low
    case Close => b.close
    case Volume => b.volume
    case OpenInterest => b.openInterest
  }

  /** The values of field `f` over a sequence of bars, in arrival order. */
  function Column(bars: seq<Bar>, f: Field): (c: seq<real>)
    ensures |c| == |bars|
    ensures forall i :: 0 <= i < |bars| ==> c[i] == Get(bars[i], f)
  {
    seq(|bars|, i requires 0 <= i < |bars| => Get(bars[i], f))
  }

  datatype Window = Window(
    count: nat,
    size: nat,
    inited: bool,
    openArray: seq<real>,
    highArray: seq<real>,
    lowArray: seq<real>,
    closeArray: seq<real>,
    volumeArray: seq<real>,
    openInterestArray: seq<real>)
  {
    /** The time series of one field, oldest first, most recent last. */
    function Array(f: Field): seq<real>
    {
      match f
      case Open => openArray
      case High => highArray
      case Low => lowArray
      case Close => closeArray
      case Volume => volumeArray
      case OpenInterest => openInterestArray
    }

    /** Every array has the window's length, and the window is ready exactly
        when at least `size` bars (and at least one) have been absorbed. */
    predicate Valid()
    {
      && |openArray| == size
      && |highArray| == size
      && |lowArray| == size
      && |closeArray| == size
      && |volumeArray| == size
      && |openInterestArray| == size
      && (inited <==> 0 < count && size <= count)
    }
  }

  /** A window of `size` zeros that has absorbed no bar. */
  function NewWindow(size: nat): (w: Window)
    ensures w.Valid() && w.size == size
    ensures w.count == 0 && !w.inited
    ensures forall f: Field, i :: 0 <= i < size ==> w.Array(f)[i] == 0.0
  {
    var zeros := seq(size, _ => 0.0);
    Window(0, size, false, zeros, zeros, zeros, zeros, zeros, zeros)
  }

  /** `a[:-1] = a[1:]; a[-1] = x`. */
  function Shift(a: seq<real>, x: real): (r: seq<real>)
    requires |a| >= 1
    ensures |r| == |a|
    ensures forall i :: 0 <= i < |a| - 1 ==> r[i] == a[i + 1]
    ensures r[|a| - 1] == x
  {
    a[1..] + [x]
  }

  /** The readiness flag the window has after absorbing one more bar. */
  predicate BecomesReady(w: Window)
  {
    w.inited || w.count + 1 >= w.size
  }

  /** `update_bar`: count the bar, latch readiness, shift every array left by
      one and store the new bar's fields in the last slot. A window of size
      zero has no last slot, so it cannot absorb a bar. */
  function UpdateBar(w: Window, bar: Bar): (r: Window)
    requires w.Valid() && w.size >= 1
    ensures r.Valid() && r.size == w.size
    ensures r.count == w.count + 1
    ensures r.inited == BecomesReady(w)
    ensures w.inited ==> r.inited
    ensures forall f: Field, i :: 0 <= i < w.size - 1 ==> r.Array(f)[i] == w.Array(f)[i + 1]
    ensures forall f: Field :: r.Array(f)[w.size - 1] == Get(bar, f)
  {
    Window(
      w.count + 1,
      w.size,
      w.inited || w.count + 1 >= w.size,
      Shift(w.openArray, bar.open),
      Shift(w.highArray, bar.high),
      Shift(w.lowArray, bar.low),
      Shift(w.closeArray, bar.close),
      Shift(w.volumeArray, bar.volume),
      Shift(w.openInterestArray, bar.openInterest))
  }

  /** Absorbs a sequence of bars, first one first. */
  function Feed(w: Window, bars: seq<Bar>): (r: Window)
    requires w.Valid() && w.size >= 1
    ensures r.Valid() && r.size == w.size
    ensures r.count == w.count + |bars|
    decreases |bars|
  {
    if |bars| == 0 then w else Feed(UpdateBar(w, bars[0]), bars[1..])
  }

  /** Every array of an updated window is the shifted old array. */
  lemma UpdateBarShifts(w: Window, bar: Bar, f: Field)
    requires w.Valid() && w.size >= 1
    ensures UpdateBar(w, bar).Array(f) == Shift(w.Array(f), Get(bar, f))
  {
    match f
    case Open =>
    case High =>
    case Low =>
    case Close =>
    case Volume =>
    case OpenInterest =>
  }

  lemma ShiftSuffix(a: seq<real>, x: real, rest: seq<real>)
    requires |a| >= 1
    ensures (Shift(a, x) + rest)[|rest|..] == (a + ([x] + rest))[|rest| + 1..]
  {
    assert Shift(a, x) + rest == (a + ([x] + rest))[1..];
  }

  lemma ColumnCons(bars: seq<Bar>, f: Field)
    requires |bars| >= 1
    ensures Column(bars, f) == [Get(bars[0], f)] + Column(bars[1..], f)
  {
  }

  /** After any number of updates the window holds the old contents followed
      by the new bars, cut down to its last `size` entries. */
  lemma {:induction false} FeedKeepsLatest(w: Window, bars: seq<Bar>, f: Field)
    requires w.Valid() && w.size >= 1
    ensures Feed(w, bars).Array(f) == (w.Array(f) + Column(bars, f))[|bars|..]
    decreases |bars|
  {
    if |bars| == 0 {
      assert w.Array(f) + Column(bars, f) == w.Array(f);
    } else {
      var w1 := UpdateBar(w, bars[0]);
      FeedKeepsLatest(w1, bars[1..], f);
      UpdateBarShifts(w, bars[0], f);
      ColumnCons(bars, f);
      ShiftSuffix(w.Array(f), Get(bars[0], f), Column(bars[1..], f));
    }
  }

  /** Feeding `a` then `b` is feeding `a + b`. */
  lemma {:induction false} FeedAppend(w: Window, a: seq<Bar>, b: seq<Bar>)
    requires w.Valid() && w.size >= 1
    ensures Feed(w, a + b) == Feed(Feed(w, a), b)
    decreases |a|
  {
    if |a| == 0 {
      assert a + b == b;
    } else {
      assert (a + b)[1..] == a[1..] + b;
      FeedAppend(UpdateBar(w, a[0]), a[1..], b);
    }
  }

  /** Once ready, a window stays ready whatever bars follow. */
  lemma ReadyNeverReverts(w: Window, a: seq<Bar>, b: seq<Bar>)
    requires w.Valid() && w.size >= 1
    ensures Feed(w, a).inited ==> Feed(w, a + b).inited
  {
    FeedAppend(w, a, b);
  }

  lemma ArrayLength(w: Window, f: Field)
    requires w.Valid()
    ensures |w.Array(f)| == w.size
  {
    match f
    case Open =>
    case High =>
    case Low =>
    case Close =>
    case Volume =>
    case OpenInterest =>
  }

  lemma DropPrefix(z: seq<real>, c: seq<real>, k: nat)
    requires |z| <= k <= |c|
    ensures (z + c)[k..] == c[k - |z|..]
  {
  }

  /** A fresh window becomes ready exactly on its `size`-th bar, and from then
      on holds exactly the last `size` bars in arrival order. */
  lemma {:induction false} FreshWindowHoldsLastBars(size: nat, bars: seq<Bar>, f: Field)
    requires size >= 1
    ensures Feed(NewWindow(size), bars).inited <==> |bars| >= size
    ensures |bars| >= size ==>
      Feed(NewWindow(size), bars).Array(f) == Column(bars[|bars| - size..], f)
  {
    var w := NewWindow(size);
    if |bars| >= size {
      FeedKeepsLatest(w, bars, f);
      ArrayLength(w, f);
      DropPrefix(w.Array(f), Column(bars, f), |bars|);
      assert Column(bars, f)[|bars| - size..] == Column(bars[|bars| - size..], f);
    }
  }

}
