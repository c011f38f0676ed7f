/**
 * The read-side panner of `pan.hpp`: every input is copied into its own
 * ring buffer, and each output frame sums the inputs read `delay` frames
 * back, each times its attenuation. After a change of the geometry or of
 * the window the delays ramp through one triangular smoothing filter per
 * ear and source, read at fractional positions; once the ramp has run out
 * the delays are used as they are.
 */
module PanBase {
  import opened Modular
  import opened Geometry
  import opened ScatterPan
  import opened TriangularAverageFilter

  /** The control values that, when they change, make `update_data` run. */
  datatype Controls = Controls(radius: real, playerDist: real, earDist: real, alpha0: real, relativeDelays: real)

  /**
   * The ramp's bookkeeping: the frames `timer` counted since it started, the
   * count `overrun` past which it ends, and whether it runs (`useAverage`).
   */
  datatype Ramp = Ramp(timer: int, overrun: int, active: bool)

  /**
   * The first half of `runBase`: a new window (`restart` holds its
   * `timerOverrun`) or a new geometry (`moved`) starts the ramp afresh.
   */
  function Started(s: Ramp, restart: Option<int>, moved: bool): Ramp {
    var s1 := if restart.Some? then Ramp(0, restart.value, true) else s;
    if moved then s1.(timer := 0, active := true) else s1
  }

  /** `timer > timerOverrun` ends the ramp and resets the timer. */
  function Overrun(s: Ramp): Ramp {
    if s.timer > s.overrun then s.(timer := 0, active := false) else s
  }

  /** The second half of `runBase`: a running ramp counts `nframes` more and may end. */
  function Ran(s: Ramp, nframes: int): Ramp {
    if s.active then Overrun(s.(timer := s.timer + nframes)) else s
  }

  /** One call of `runBase`. */
  function Tick(s: Ramp, restart: Option<int>, moved: bool, nframes: int): Ramp {
    Ran(Started(s, restart, moved), nframes)
  }

  /** `k` calls of `runBase` of `nframes` frames each with the controls left alone. */
  function Ticks(s: Ramp, k: nat, nframes: int): Ramp
    decreases k
  {
    if k == 0 then s else Ticks(Tick(s, None, false, nframes), k - 1, nframes)
  }

  /** A change of window or geometry restarts the ramp from a zero timer, whatever ran before. */
  lemma RestartForgets(s: Ramp, s': Ramp, restart: Option<int>, nframes: int)
    requires s.overrun == s'.overrun || restart.Some?
    ensures Tick(s, restart, true, nframes) == Tick(s', restart, true, nframes)
    ensures Tick(s, restart, true, nframes).active == (nframes <= Tick(s, restart, true, nframes).overrun)
  {
  }

  /** With the ramp over and the controls left alone, nothing changes any more. */
  lemma {:induction false} IdleStays(s: Ramp, k: nat, nframes: int)
    requires !s.active
    ensures Ticks(s, k, nframes) == s
    decreases k
  {
    if k > 0 {
      IdleStays(s, k - 1, nframes);
    }
  }

  /** A ramp runs on, counting the frames, while the count stays within `overrun`. */
  lemma {:induction false} RampRuns(s: Ramp, k: nat, nframes: int)
    requires s.active && nframes >= 0 && s.timer + k * nframes <= s.overrun
    ensures Ticks(s, k, nframes) == s.(timer := s.timer + k * nframes)
    decreases k
  {
    if k > 0 {
      var s1 := Tick(s, None, false, nframes);
      assert s.timer + nframes <= s.timer + k * nframes by {
        MulMono(1, k, nframes);
      }
      assert s1 == s.(timer := s.timer + nframes);
      assert s1.timer + (k - 1) * nframes == s.timer + k * nframes;
      RampRuns(s1, k - 1, nframes);
    }
  }

  /** Once the frames counted pass `overrun` the ramp is over, its timer back at zero. */
  lemma {:induction false} RampEnds(s: Ramp, k: nat, nframes: int)
    requires s.active && nframes >= 0 && k >= 1 && s.timer + k * nframes > s.overrun
    ensures Ticks(s, k, nframes) == s.(timer := 0, active := false)
    decreases k
  {
    var s1 := Tick(s, None, false, nframes);
    if s.timer + nframes > s.overrun {
      assert s1 == s.(timer := 0, active := false);
      IdleStays(s1, k - 1, nframes);
    } else {
      assert s1 == s.(timer := s.timer + nframes);
      assert k - 1 >= 1 && s1.timer + (k - 1) * nframes == s.timer + k * nframes;
      RampEnds(s1, k - 1, nframes);
    }
  }

  /** The batch size `init` settles on: 8, halved while it does not divide the sample rate. */
  method BatchSize(srate: int) returns (size: int)
    ensures size == 8 || size == 4 || size == 2 || size == 1
    ensures srate % size == 0
    ensures forall d :: d in {8, 4, 2} && d > size ==> srate % d != 0
  {
    size := 8;
    while srate % size != 0
      invariant size == 8 || size == 4 || size == 2 || size == 1
      invariant forall d :: d in {8, 4, 2} && d > size ==> srate % d != 0
      decreases size
    {
      size := size / 2;
    }
  }

  /** The sample `offset` frames from the buffer pointer `ptr` in a ring buffer of `n` slots. */
  function LookBack(row: seq<real>, ptr: int, offset: int): real
    requires |row| > 0
  {
    row[(offset + ptr) % |row|]
  }

  /**
   * The linear interpolation at a fractional `offset` from `ptr`: the two
   * samples around it, weighted by how close the position is to each.
   */
  function Interpolated(row: seq<real>, ptr: int, offset: real): real
    requires |row| > 0
  {
    var position := offset + ptr as real;
    var k := position.Floor;
    var w := position - k as real;
    row[k % |row|] * (1.0 - w) + row[(k + 1) % |row|] * w
  }

  /** The interpolation from its two samples and the fraction. */
  lemma InterpolatedFrom(row: seq<real>, ptr: int, offset: real, a: real, b: real, w: real)
    requires |row| > 0
    requires var k := (offset + ptr as real).Floor;
      a == row[k % |row|] && b == row[(k + 1) % |row|] && w == offset + ptr as real - k as real
    ensures Interpolated(row, ptr, offset) == a * (1.0 - w) + b * w
  {
  }

  /** At a whole offset the interpolation is the plain look-back. */
  lemma InterpolatedWhole(row: seq<real>, ptr: int, x: real, offset: int)
    requires |row| > 0 && x == offset as real
    ensures Interpolated(row, ptr, x) == LookBack(row, ptr, offset)
  {
    var position := x + ptr as real;
    assert position == (offset + ptr) as real;
    assert position.Floor == offset + ptr;
    WeightsAtWhole(row[(offset + ptr) % |row|], row[(offset + ptr + 1) % |row|], position - (offset + ptr) as real);
  }

  /** A whole shift moves the floor by the same amount. */
  lemma FloorShift(x: real, d: int)
    ensures (x + d as real).Floor == x.Floor + d
  {
    var k := x.Floor;
    assert k as real <= x < (k + 1) as real;
    assert (k + d) as real <= x + d as real < (k + d + 1) as real;
  }

  /** Whole buffer lengths added to a position change neither its fraction nor its slots. */
  lemma FloorWrap(start: real, shift: int, n: int)
    requires n > 0 && shift % n == 0
    ensures (start + shift as real).Floor % n == start.Floor % n
    ensures ((start + shift as real).Floor % n + 1) % n == (start.Floor + 1) % n
    ensures (start + shift as real) - (start + shift as real).Floor as real == start - start.Floor as real
  {
    FloorShift(start, shift);
    var k := start.Floor;
    ModOfSum(shift, k, n);
    assert shift % n + k == k;
    ModOfSum(shift + k, 1, n);
    ModOfSum(k, 1, n);
  }

  /** The buffer with `row` copied in from slot `start` on, round the ring. */
  function Copied(buf: seq<real>, start: int, row: seq<real>, nframes: int): (r: seq<real>)
    requires |buf| > 0 && 0 <= nframes <= |row|
    ensures |r| == |buf|
  {
    seq(|buf|, j requires 0 <= j < |buf| => if Offset(start, |buf|, j) < nframes then row[Offset(start, |buf|, j)] else buf[j])
  }

  /** Frame `i` lands in slot `start + i`, round the ring; every other slot is left alone. */
  lemma CopiedExactly(buf: seq<real>, start: int, row: seq<real>, nframes: int, j: int)
    requires |buf| > 0 && 0 <= nframes <= |row| && nframes <= |buf| && 0 <= j < |buf|
    ensures forall i :: 0 <= i < nframes && Slot(start, i, |buf|) == j ==> Copied(buf, start, row, nframes)[j] == row[i]
    ensures (forall i :: 0 <= i < nframes ==> Slot(start, i, |buf|) != j) ==> Copied(buf, start, row, nframes)[j] == buf[j]
  {
    forall i | 0 <= i < nframes && Slot(start, i, |buf|) == j
      ensures Copied(buf, start, row, nframes)[j] == row[i]
    {
      OffsetOfSlot(start, i, |buf|);
    }
    if Offset(start, |buf|, j) < nframes {
      SlotOfOffset(start, |buf|, j);
    }
  }

  /** What a filter holds and where its cursors and window are. */
  datatype View = View(state: Tri, fill: int, read: int, window: int)

  ghost function ViewOf(f: TriangularAverage): View
    reads f, f.vecData, f.vecSum, f.vecSumScaled
  {
    View(f.State(), f.ptrFill, f.ptrRead, f.iWindowSize)
  }

  class Pan {
    /** `CHANNELS`, `BUFFER_SIZE` and the filters' capacity (`batches` in `init`). */
    const channels: nat
    const bufferSize: nat
    const filterSize: int
    const sampleRate: int
    /** Samples per batch: one filter push or pop per batch while ramping. */
    const avgBatchSize: int
    /** One ring buffer per input. */
    const inputBuffer: array2<real>
    /** Per ear and source: the delay in samples and the attenuation. */
    const delay: array2<int>
    const attenuation: array2<real>
    /** The smoothing filter of ear `e` and source `ch` is `avg[e][ch]`. */
    const avg: seq<seq<TriangularAverage>>
    /** Which filter each object the filters own belongs to. */
    ghost const owner: map<object, (int, int)>
    var generalBufferPointer: int
    var timer: int
    var timerOverrun: int
    var useAverage: bool
    var windowTarget: real
    var geometryTarget: Controls

    /** Every object the filters own. */
    ghost function FilterRepr(): set<object> {
      owner.Keys
    }

    /** A filter of `filterSize` slots per ear and source, each owning its objects under its own tag. */
    ghost predicate Owned() {
      |avg| == 2 && |avg[0]| == channels && |avg[1]| == channels &&
      forall e, ch :: 0 <= e < 2 && 0 <= ch < channels ==> avg[e][ch].iSize == filterSize && Tagged(owner, avg[e][ch], (e, ch))
    }

    /** The arrays have their sizes, apart from the filters' objects, and the filters are owned. */
    ghost predicate Shaped() {
      channels >= 1 && bufferSize >= 1 && filterSize >= 1 &&
      inputBuffer.Length0 == channels && inputBuffer.Length1 == bufferSize &&
      delay.Length0 == 2 && delay.Length1 == channels &&
      attenuation.Length0 == 2 && attenuation.Length1 == channels &&
      this !in owner && inputBuffer !in owner && delay !in owner && attenuation !in owner && inputBuffer != attenuation &&
      Owned()
    }

    /** Every filter is consistent. */
    ghost predicate FiltersValid()
      requires Owned()
      reads FilterRepr()
    {
      forall e, ch :: 0 <= e < 2 && 0 <= ch < channels ==> avg[e][ch].Valid()
    }

    /** Besides, each filter's read cursor sits at its fill cursor, round the ring. */
    ghost predicate FiltersSynced()
      requires Owned()
      reads FilterRepr()
    {
      FiltersValid() && forall e, ch :: 0 <= e < 2 && 0 <= ch < channels ==> avg[e][ch].ptrRead % filterSize == avg[e][ch].ptrFill
    }

    /** Each filter's read cursor trails its fill cursor by `b` slots, round the ring. */
    ghost predicate Paced(b: int)
      requires Owned() && filterSize >= 1
      reads FilterRepr()
    {
      forall e, ch :: 0 <= e < 2 && 0 <= ch < channels ==> (avg[e][ch].ptrRead + b) % filterSize == avg[e][ch].ptrFill
    }

    /** Every filter's scaling factor can be divided by. */
    ghost predicate Smoothing()
      requires Owned()
      reads FilterRepr()
    {
      forall e, ch :: 0 <= e < 2 && 0 <= ch < channels ==> avg[e][ch].fScalingFactor != 0.0
    }

    /** The input buffers are in shape and the buffer pointer in range. */
    ghost predicate Buffered()
      reads this`generalBufferPointer
    {
      Shaped() && 0 <= generalBufferPointer < bufferSize
    }

    /** What reading the ring buffers needs: their sizes, the gain rows' sizes and the buffer pointer in range. */
    ghost predicate Readable()
      reads this`generalBufferPointer
    {
      bufferSize >= 1 && inputBuffer.Length0 == channels && inputBuffer.Length1 == bufferSize &&
      attenuation.Length0 == 2 && attenuation.Length1 == channels && delay.Length0 == 2 && delay.Length1 == channels &&
      0 <= generalBufferPointer < bufferSize
    }

    ghost predicate Valid()
      reads this`generalBufferPointer, FilterRepr()
    {
      Buffered() && FiltersSynced() && avgBatchSize >= 1
    }

    /** One input's ring buffer, as a value. */
    function Row(ch: int): (r: seq<real>)
      reads inputBuffer
      requires 0 <= ch < inputBuffer.Length0
      ensures |r| == inputBuffer.Length1
    {
      seq(inputBuffer.Length1, i requires 0 <= i < inputBuffer.Length1 reads inputBuffer => inputBuffer[ch, i])
    }

    /** One ear's delays and attenuations, as values. */
    function DelayRow(e: int): (r: seq<int>)
      reads delay
      requires 0 <= e < delay.Length0
      ensures |r| == delay.Length1
    {
      seq(delay.Length1, ch requires 0 <= ch < delay.Length1 reads delay => delay[e, ch])
    }

    function AttenuationRow(e: int): (r: seq<real>)
      reads attenuation
      requires 0 <= e < attenuation.Length0
      ensures |r| == attenuation.Length1
    {
      seq(attenuation.Length1, ch requires 0 <= ch < attenuation.Length1 reads attenuation => attenuation[e, ch])
    }

    /** Every input's ring buffer. */
    function Rows(): (r: seq<seq<real>>)
      reads inputBuffer
      ensures |r| == inputBuffer.Length0 && forall ch :: 0 <= ch < |r| ==> r[ch] == Row(ch) && |r[ch]| == inputBuffer.Length1
      ensures inputBuffer.Length1 > 0 ==> NonEmptyRows(r)
    {
      seq(inputBuffer.Length0, ch requires 0 <= ch < inputBuffer.Length0 reads inputBuffer => Row(ch))
    }

    /** Every filter, as a value. */
    ghost function Views(): (v: seq<seq<View>>)
      requires Owned()
      reads FilterRepr()
      ensures |v| == 2 && |v[0]| == channels && |v[1]| == channels
      ensures forall e, ch :: 0 <= e < 2 && 0 <= ch < channels ==> v[e][ch] == ViewOf(avg[e][ch])
    {
      seq(2, e requires 0 <= e < 2 reads FilterRepr() =>
        seq(channels, ch requires 0 <= ch < channels reads FilterRepr() => ViewOfOwned(e, ch)))
    }

    /**
     * An operation on filter `k` that touches nothing else leaves every
     * other filter as it was.
     */
    twostate lemma OthersKept(k: (int, int))
      requires Shaped() && 0 <= k.0 < 2 && 0 <= k.1 < channels && old(FiltersValid())
      requires unchanged(FilterRepr() - avg[k.0][k.1].Repr())
      ensures forall e, ch :: 0 <= e < 2 && 0 <= ch < channels && (e != k.0 || ch != k.1) ==>
        avg[e][ch].Valid() && ViewOf(avg[e][ch]) == old(ViewOf(avg[e][ch]))
    {
      forall e, ch | 0 <= e < 2 && 0 <= ch < channels && (e != k.0 || ch != k.1)
        ensures avg[e][ch].Valid() && ViewOf(avg[e][ch]) == old(ViewOf(avg[e][ch]))
      {
        var g := avg[e][ch];
        assert Tagged(owner, g, (e, ch)) && Tagged(owner, avg[k.0][k.1], k);
        assert g.Repr() <= FilterRepr() - avg[k.0][k.1].Repr();
      }
    }

    /** Valid filters can be popped from: rings of `filterSize` slots, read cursors in `[0, filterSize]`. */
    lemma ViewsPoppable()
      requires Shaped() && FiltersValid()
      ensures forall e :: 0 <= e < 2 ==> Poppable(Views()[e], filterSize)
    {
    }

    /** Valid, smoothing filters can be pushed to. */
    lemma ViewsPushable()
      requires Shaped() && FiltersValid() && Smoothing()
      ensures Pushable(Views()[0], filterSize) && Pushable(Views()[1], filterSize)
    {
    }

    /** Filters popped `b` times from where their read cursors trailed their fill cursors by `b` are synced. */
    lemma SyncedAfterPops(w0: seq<seq<View>>, b: nat)
      requires Shaped() && FiltersValid()
      requires |w0| == 2 && |w0[0]| == channels && |w0[1]| == channels
      requires Poppable(w0[0], filterSize) && Poppable(w0[1], filterSize)
      requires forall e, ch :: 0 <= e < 2 && 0 <= ch < channels ==> (w0[e][ch].read + b) % filterSize == w0[e][ch].fill
      requires forall e, ch :: 0 <= e < 2 && 0 <= ch < channels ==>
        ViewOf(avg[e][ch]) == w0[e][ch].(read := Advanced(w0[e][ch].read, b, filterSize))
      ensures FiltersSynced()
    {
      forall e, ch | 0 <= e < 2 && 0 <= ch < channels
        ensures avg[e][ch].ptrRead % filterSize == avg[e][ch].ptrFill
      {
        PopAdvance(w0[e][ch].read, b, filterSize);
      }
    }

    ghost function ViewOfOwned(e: int, ch: int): View
      requires Owned() && 0 <= e < 2 && 0 <= ch < channels
      reads FilterRepr()
    {
      assert Tagged(owner, avg[e][ch], (e, ch));
      ViewOf(avg[e][ch])
    }

    /**
     * `init`: the batch size, `2 * srate / avgBatchSize` batches as each
     * filter's capacity with half of it as the window, unit attenuations,
     * zero delays, zeroed input buffers and a ramp about to start. The
     * buffer size is computed in floating point and passed in.
     */
    constructor(channels: nat, bufferSize: nat, srate: int)
      requires channels >= 1 && bufferSize >= 1 && srate >= 1
      ensures Valid() && this.channels == channels && this.bufferSize == bufferSize && sampleRate == srate
      ensures avgBatchSize in {8, 4, 2, 1} && srate % avgBatchSize == 0 && filterSize == 2 * srate / avgBatchSize
      ensures forall e, ch :: 0 <= e < 2 && 0 <= ch < channels ==>
        ViewOf(avg[e][ch]) == View(Cleaned(filterSize), 0, 0, ClampedWindow(filterSize / 2, filterSize))
      ensures forall e, ch :: 0 <= e < 2 && 0 <= ch < channels ==> delay[e, ch] == 0 && attenuation[e, ch] == 1.0
      ensures forall ch, i :: 0 <= ch < channels && 0 <= i < bufferSize ==> inputBuffer[ch, i] == 0.0
      ensures generalBufferPointer == 0 && timer == 0 && useAverage
      ensures timerOverrun == (filterSize / 2 + 2) * avgBatchSize
      ensures geometryTarget == Controls(5.0, 1.0, 0.149, 0.0, 0.0) && windowTarget == 1.0
    {
      var size := BatchSize(srate);
      var batches := (2 * srate) / size;
      assert batches >= 1 by {
        DivAtLeastOne(2 * srate, size);
      }
      var left, owned := MakeFilters(0, channels, batches, map[]);
      var right, owned' := MakeFilters(1, channels, batches, owned);
      this.channels := channels;
      this.bufferSize := bufferSize;
      sampleRate := srate;
      filterSize := batches;
      avg := [left, right];
      owner := owned';
      delay := new int[2, channels]((e, ch) => 0);
      attenuation := new real[2, channels]((e, ch) => 1.0);
      inputBuffer := new real[channels, bufferSize]((ch, i) => 0.0);
      avgBatchSize := size;
      generalBufferPointer := 0;
      timer := 0;
      timerOverrun := (batches / 2 + 2) * size;
      useAverage := true;
      geometryTarget := Controls(5.0, 1.0, 0.149, 0.0, 0.0);
      windowTarget := 1.0;
      new;
      forall e, ch | 0 <= e < 2 && 0 <= ch < channels
        ensures avg[e][ch].iSize == filterSize && Tagged(owner, avg[e][ch], (e, ch)) && avg[e][ch].Valid()
        ensures ViewOf(avg[e][ch]) == View(Cleaned(filterSize), 0, 0, ClampedWindow(filterSize / 2, filterSize))
        ensures avg[e][ch].ptrRead % filterSize == avg[e][ch].ptrFill
      {
        ModSmall(0, filterSize);
        if e == 0 {
          assert avg[e][ch] == left[ch];
        } else {
          assert avg[e][ch] == right[ch];
        }
      }
    }

    /**
     * The filters of ear `e` that `init` creates, each `init(batches)` and
     * `setWindowSize(batches / 2)`; `owned` records their objects as theirs.
     */
    static method MakeFilters(e: int, count: nat, batches: int, ghost owned: map<object, (int, int)>)
      returns (row: seq<TriangularAverage>, ghost owned': map<object, (int, int)>)
      requires batches >= 1
      ensures |row| == count
      ensures forall o :: o in owned ==> o in owned' && owned'[o] == owned[o]
      ensures forall ch :: 0 <= ch < count ==> Tagged(owned', row[ch], (e, ch))
      ensures forall ch :: 0 <= ch < count ==>
        row[ch].Valid() && row[ch].iSize == batches &&
        ViewOf(row[ch]) == View(Cleaned(batches), 0, 0, ClampedWindow(batches / 2, batches))
    {
      row := [];
      owned' := owned;
      while |row| < count
        invariant |row| <= count
        invariant forall o :: o in owned ==> o in owned' && owned'[o] == owned[o]
        invariant forall ch :: 0 <= ch < |row| ==> Tagged(owned', row[ch], (e, ch))
        invariant forall ch :: 0 <= ch < |row| ==>
          row[ch].Valid() && row[ch].iSize == batches &&
          ViewOf(row[ch]) == View(Cleaned(batches), 0, 0, ClampedWindow(batches / 2, batches))
      {
        row, owned' := AddFilter(e, batches, row, owned');
      }
    }

    /** One iteration of that loop: a new filter appended to `row`, its objects tagged. */
    static method AddFilter(e: int, batches: int, row: seq<TriangularAverage>, ghost owned: map<object, (int, int)>)
      returns (row': seq<TriangularAverage>, ghost owned': map<object, (int, int)>)
      requires batches >= 1
      requires forall ch :: 0 <= ch < |row| ==> Tagged(owned, row[ch], (e, ch))
      ensures |row'| == |row| + 1 && row'[..|row|] == row
      ensures forall o :: o in owned ==> o in owned' && owned'[o] == owned[o]
      ensures forall ch :: 0 <= ch < |row'| ==> Tagged(owned', row'[ch], (e, ch))
      ensures row'[|row|].Valid() && row'[|row|].iSize == batches &&
        ViewOf(row'[|row|]) == View(Cleaned(batches), 0, 0, ClampedWindow(batches / 2, batches))
    {
      var f := NewFilter(batches);
      owned' := Tag(owned, f, (e, |row|));
      forall ch | 0 <= ch < |row|
        ensures Tagged(owned', row[ch], (e, ch))
      {
        TagKept(owned, row[ch], (e, ch), f, (e, |row|));
      }
      row' := row + [f];
      assert row'[..|row|] == row;
    }

    /** One filter as `init` sets it up: `init(batches)`, then `setWindowSize(batches / 2)`. */
    static method NewFilter(batches: int) returns (f: TriangularAverage)
      requires batches >= 1
      ensures fresh(f.Repr()) && f.Valid() && f.iSize == batches
      ensures ViewOf(f) == View(Cleaned(batches), 0, 0, ClampedWindow(batches / 2, batches))
    {
      f := new TriangularAverage(batches, 0);
      f.SetWindowSize(batches / 2);
    }

    /**
     * `activateBase`: every input buffer zeroed, every filter cleaned, the
     * buffer pointer and the timer at 0 and a ramp about to start.
     */
    method ActivateBase()
      requires Valid()
      modifies inputBuffer, this`generalBufferPointer, this`timer, this`useAverage, FilterRepr()
      ensures Valid() && generalBufferPointer == 0 && timer == 0 && useAverage
      ensures forall ch, i :: 0 <= ch < channels && 0 <= i < bufferSize ==> inputBuffer[ch, i] == 0.0
      ensures forall e, ch :: 0 <= e < 2 && 0 <= ch < channels ==>
        ViewOf(avg[e][ch]) == View(Cleaned(filterSize), 0, 0, old(avg[e][ch].iWindowSize))
    {
      ghost var v0: seq<seq<View>> := Views();
      for j := 0 to channels
        invariant FiltersSynced()
        invariant forall ch, i :: 0 <= ch < j && 0 <= i < bufferSize ==> inputBuffer[ch, i] == 0.0
        invariant forall e, ch :: 0 <= e < 2 && 0 <= ch < channels ==>
          ViewOf(avg[e][ch]) == if ch < j then View(Cleaned(filterSize), 0, 0, v0[e][ch].window) else v0[e][ch]
      {
        ActivateSource(j, v0);
      }
      generalBufferPointer := 0;
      timer := 0;
      useAverage := true;
    }

    /** One iteration of that loop: source `j`'s buffer zeroed and both its filters cleaned. */
    method ActivateSource(j: int, ghost v0: seq<seq<View>>)
      requires Shaped() && FiltersSynced() && 0 <= j < channels
      requires |v0| == 2 && |v0[0]| == channels && |v0[1]| == channels
      requires forall ch, i :: 0 <= ch < j && 0 <= i < bufferSize ==> inputBuffer[ch, i] == 0.0
      requires forall e, ch :: 0 <= e < 2 && 0 <= ch < channels ==>
        ViewOf(avg[e][ch]) == if ch < j then View(Cleaned(filterSize), 0, 0, v0[e][ch].window) else v0[e][ch]
      modifies inputBuffer, FilterRepr()
      ensures FiltersSynced()
      ensures forall ch, i :: 0 <= ch <= j && 0 <= i < bufferSize ==> inputBuffer[ch, i] == 0.0
      ensures forall e, ch :: 0 <= e < 2 && 0 <= ch < channels ==>
        ViewOf(avg[e][ch]) == if ch <= j then View(Cleaned(filterSize), 0, 0, v0[e][ch].window) else v0[e][ch]
    {
      ZeroRow(j);
      CleanOne(0, j);
      CleanOne(1, j);
    }

    /** One input's ring buffer zeroed. */
    method ZeroRow(j: int)
      requires Shaped() && 0 <= j < channels
      modifies inputBuffer
      ensures forall ch, i :: 0 <= ch < channels && 0 <= i < bufferSize ==>
        inputBuffer[ch, i] == if ch == j then 0.0 else old(inputBuffer[ch, i])
    {
      for i := 0 to bufferSize
        invariant forall ch, i' :: 0 <= ch < channels && 0 <= i' < bufferSize ==>
          inputBuffer[ch, i'] == if ch == j && i' < i then 0.0 else old(inputBuffer[ch, i'])
      {
        inputBuffer[j, i] := 0.0;
      }
    }

    /** `avg[e][j].clean()`: that filter cleaned, every other one as it was. */
    method CleanOne(e: int, j: int)
      requires Shaped() && FiltersSynced() && 0 <= e < 2 && 0 <= j < channels
      modifies FilterRepr()
      ensures FiltersSynced()
      ensures forall e', ch :: 0 <= e' < 2 && 0 <= ch < channels ==>
        ViewOf(avg[e'][ch]) == if e' == e && ch == j then View(Cleaned(filterSize), 0, 0, old(avg[e][j].iWindowSize)) else old(ViewOf(avg[e'][ch]))
    {
      var f := avg[e][j];
      label start:
      f.Clean();
      OthersKept@start((e, j));
      ModSmall(0, filterSize);
    }

    /**
     * The window step of `runBase` once the window control has changed: the
     * new target, every filter given `window * sample_rate / avgBatchSize`
     * batches as its window (and with it cleaned), the timer restarted with
     * an overrun of the new window plus two batches, and a ramp.
     */
    method ChangeWindow(windowSize: real)
      requires Valid()
      modifies this`windowTarget, this`timer, this`timerOverrun, this`useAverage, FilterRepr()
      ensures Valid() && windowTarget == windowSize && timer == 0 && useAverage
      ensures var w := ClampedWindow(WindowLength(windowSize, sampleRate, avgBatchSize), filterSize);
        timerOverrun == (w + 2) * avgBatchSize &&
        forall e, ch :: 0 <= e < 2 && 0 <= ch < channels ==> ViewOf(avg[e][ch]) == View(Cleaned(filterSize), 0, 0, w)
    {
      windowTarget := windowSize;
      var size := WindowLength(windowTarget, sampleRate, avgBatchSize);
      ResizeAll(size);
      label resized:
      timer := 0;
      var w := avg[0][0].GetWindowSize();
      timerOverrun := (w + 2) * avgBatchSize;
      useAverage := true;
      FiltersKept@resized(this);
    }

    /** `setWindowSize(size)` on every filter. */
    method ResizeAll(size: int)
      requires Shaped() && FiltersSynced()
      modifies FilterRepr()
      ensures FiltersSynced()
      ensures forall e, ch :: 0 <= e < 2 && 0 <= ch < channels ==>
        ViewOf(avg[e][ch]) == View(Cleaned(filterSize), 0, 0, ClampedWindow(size, filterSize))
    {
      for j := 0 to channels
        invariant FiltersSynced()
        invariant forall e, ch :: 0 <= e < 2 && 0 <= ch < j ==>
          ViewOf(avg[e][ch]) == View(Cleaned(filterSize), 0, 0, ClampedWindow(size, filterSize))
      {
        ResizeOne(0, j, size);
        ResizeOne(1, j, size);
      }
    }

    /** `avg[e][j].setWindowSize(size)`: that filter resized and cleaned, every other one as it was. */
    method ResizeOne(e: int, j: int, size: int)
      requires Shaped() && FiltersSynced() && 0 <= e < 2 && 0 <= j < channels
      modifies FilterRepr()
      ensures FiltersSynced()
      ensures forall e', ch :: 0 <= e' < 2 && 0 <= ch < channels ==>
        ViewOf(avg[e'][ch]) == if e' == e && ch == j then View(Cleaned(filterSize), 0, 0, ClampedWindow(size, filterSize)) else old(ViewOf(avg[e'][ch]))
    {
      var f := avg[e][j];
      label start:
      f.SetWindowSize(size);
      OthersKept@start((e, j));
      ModSmall(0, filterSize);
    }

    /**
     * The push step of `runBase`: while ramping, each filter takes its
     * current delay `nframes / avgBatchSize` times and the timer moves on
     * by `nframes`; otherwise nothing changes.
     */
    method PushAll(nframes: int)
      requires Valid() && Smoothing() && nframes >= 0
      modifies this`timer, FilterRepr()
      ensures Shaped() && FiltersValid() && Smoothing()
      ensures timer == if useAverage then old(timer) + nframes else old(timer)
      ensures forall e, ch :: 0 <= e < 2 && 0 <= ch < channels ==>
        ViewOf(avg[e][ch]) == if useAverage then PushedView(old(ViewOf(avg[e][ch])), delay[e, ch], nframes / avgBatchSize, filterSize)
                              else old(ViewOf(avg[e][ch]))
      ensures !useAverage ==> FiltersSynced()
      ensures useAverage ==> Paced(nframes / avgBatchSize)
    {
      if useAverage {
        ghost var v0 := Views();
        ViewsPushable();
        var length := nframes / avgBatchSize;
        for i := 0 to channels
          invariant FiltersValid() && Smoothing() && timer == old(timer)
          invariant forall e, ch :: 0 <= e < 2 && 0 <= ch < channels ==>
            ViewOf(avg[e][ch]) == if ch < i then PushedView(v0[e][ch], delay[e, ch], length, filterSize) else v0[e][ch]
        {
          PushPair(i, length, v0);
        }
        timer := timer + nframes;
        PaceKept(v0, nframes / avgBatchSize);
      }
    }

    /** Both ears' filters of source `i` pushed with their delays, the rest as they were. */
    method PushPair(i: int, length: int, ghost v0: seq<seq<View>>)
      requires Shaped() && FiltersValid() && Smoothing() && 0 <= i < channels
      requires |v0| == 2 && |v0[0]| == channels && |v0[1]| == channels
      requires Pushable(v0[0], filterSize) && Pushable(v0[1], filterSize)
      requires forall e, ch :: 0 <= e < 2 && 0 <= ch < channels ==>
        ViewOf(avg[e][ch]) == if ch < i then PushedView(v0[e][ch], delay[e, ch], length, filterSize) else v0[e][ch]
      modifies FilterRepr()
      ensures FiltersValid() && Smoothing()
      ensures forall e, ch :: 0 <= e < 2 && 0 <= ch < channels ==>
        ViewOf(avg[e][ch]) == if ch <= i then PushedView(v0[e][ch], delay[e, ch], length, filterSize) else v0[e][ch]
    {
      PushOne(0, i, delay[0, i], length);
      PushOne(1, i, delay[1, i], length);
    }

    /**
     * Filters that were synced before each was pushed `length` slots stand
     * `length` slots of reading behind their fill cursors.
     */
    lemma PaceKept(v0: seq<seq<View>>, length: int)
      requires Shaped() && length >= 0
      requires |v0| == 2 && |v0[0]| == channels && |v0[1]| == channels
      requires Pushable(v0[0], filterSize) && Pushable(v0[1], filterSize)
      requires forall e, ch :: 0 <= e < 2 && 0 <= ch < channels ==> v0[e][ch].read % filterSize == v0[e][ch].fill
      requires forall e, ch :: 0 <= e < 2 && 0 <= ch < channels ==>
        ViewOf(avg[e][ch]) == PushedView(v0[e][ch], delay[e, ch], length, filterSize)
      ensures Paced(length)
    {
      forall e, ch | 0 <= e < 2 && 0 <= ch < channels
        ensures (avg[e][ch].ptrRead + length) % filterSize == avg[e][ch].ptrFill
      {
        PushKeepsPace(v0[e][ch], delay[e, ch], length, filterSize);
      }
    }

    /** `avg[e][j].pushData(value, length)`: that filter pushed, every other one as it was. */
    method PushOne(e: int, j: int, value: int, length: int)
      requires Shaped() && FiltersValid() && Smoothing() && 0 <= e < 2 && 0 <= j < channels
      modifies FilterRepr()
      ensures FiltersValid() && Smoothing()
      ensures forall e', ch :: 0 <= e' < 2 && 0 <= ch < channels ==>
        ViewOf(avg[e'][ch]) == if e' == e && ch == j then PushedView(old(ViewOf(avg[e][j])), value, length, filterSize) else old(ViewOf(avg[e'][ch]))
    {
      var f := avg[e][j];
      ghost var v0 := ViewOf(f);
      label start:
      f.PushData(value, length);
      assert ViewOf(f) == PushedView(v0, value, length, filterSize);
      OthersKept@start((e, j));
    }

    /** `avg[e][j].popData()`: that filter's read cursor moved on, every other one as it was. */
    method PopOne(e: int, j: int) returns (r: real)
      requires Shaped() && FiltersValid() && 0 <= e < 2 && 0 <= j < channels
      modifies FilterRepr()
      ensures FiltersValid()
      ensures r == old(ViewOf(avg[e][j])).state.scaled[PopSlot(old(avg[e][j].ptrRead), filterSize)]
      ensures forall e', ch :: 0 <= e' < 2 && 0 <= ch < channels ==>
        ViewOf(avg[e'][ch]) == if e' == e && ch == j then PoppedView(old(ViewOf(avg[e][j])), filterSize) else old(ViewOf(avg[e'][ch]))
    {
      var f := avg[e][j];
      label start:
      r := f.PopData();
      OthersKept@start((e, j));
    }

    /**
     * `getInputValue(ch, offset)`: the sample `offset` frames from the buffer
     * pointer of input `ch`, for any offset, brought into range one
     * buffer length at a time.
     */
    method GetInputValue(ch: int, offset: int) returns (r: real)
      requires Readable() && 0 <= ch < channels
      ensures r == LookBack(Row(ch), generalBufferPointer, offset)
    {
      var position := offset + generalBufferPointer;
      ghost var start := position;
      while position < 0
        invariant position % bufferSize == start % bufferSize && (position < 0 ==> position >= start)
        decreases -position
      {
        ModAddMultiple(position, 1, bufferSize);
        position := position + bufferSize;
      }
      while position >= bufferSize
        invariant position >= 0 && position % bufferSize == start % bufferSize
        decreases position
      {
        ModAddMultiple(position - bufferSize, 1, bufferSize);
        position := position - bufferSize;
      }
      ModSmall(position, bufferSize);
      r := inputBuffer[ch, position];
    }

    /**
     * `getInterpolatedValue(ch, offset)`: the position first brought above
     * 0 one buffer length at a time, then split into the whole index and
     * its fraction; both indices wrap round the ring.
     */
    method GetInterpolatedValue(ch: int, offset: real) returns (r: real)
      requires Readable() && 0 <= ch < channels
      ensures r == Interpolated(Row(ch), generalBufferPointer, offset)
    {
      var position := offset + generalBufferPointer as real;
      ghost var start := position;
      ghost var shift := 0;
      while position < 0.0
        invariant shift >= 0 && shift % bufferSize == 0 && position == start + shift as real
        decreases -position.Floor
      {
        ModAddMultiple(shift, 1, bufferSize);
        position := position + bufferSize as real;
        shift := shift + bufferSize;
      }
      var index1 := position.Floor;
      var weight2 := position - index1 as real;
      FloorWrap(start, shift, bufferSize);
      index1 := index1 % bufferSize;
      var index2 := (index1 + 1) % bufferSize;
      var weight1 := 1.0 - weight2;
      r := inputBuffer[ch, index1] * weight1 + inputBuffer[ch, index2] * weight2;
      ghost var row := Row(ch);
      InterpolatedFrom(row, generalBufferPointer, offset, row[index1], row[index2], weight2);
    }

    /** Step 1 of `runBase`: each input's block copied into its ring buffer from the buffer pointer on. */
    method BufferInput(inputs: seq<seq<real>>, nframes: int)
      requires Buffered() && |inputs| == channels && 0 <= nframes <= bufferSize
      requires forall ch :: 0 <= ch < channels ==> nframes <= |inputs[ch]|
      modifies inputBuffer
      ensures forall ch :: 0 <= ch < channels ==> Row(ch) == Copied(old(Row(ch)), generalBufferPointer, inputs[ch], nframes)
    {
      for ch := 0 to channels
        invariant forall c :: 0 <= c < channels ==>
          Row(c) == if c < ch then Copied(old(Row(c)), generalBufferPointer, inputs[c], nframes) else old(Row(c))
      {
        CopyChannel(ch, inputs[ch], nframes);
      }
    }

    /** One input's block copied, in one pass or, when it crosses the end, two. */
    method CopyChannel(ch: int, row: seq<real>, nframes: int)
      requires Buffered() && 0 <= ch < channels && 0 <= nframes <= |row| && nframes <= bufferSize
      modifies inputBuffer
      ensures Row(ch) == Copied(old(Row(ch)), generalBufferPointer, row, nframes)
      ensures forall c :: 0 <= c < channels && c != ch ==> Row(c) == old(Row(c))
    {
      var ptr := generalBufferPointer;
      var n := bufferSize;
      if ptr + nframes <= n {
        for i := 0 to nframes
          invariant forall c, j :: 0 <= c < channels && 0 <= j < n ==>
            inputBuffer[c, j] == if c == ch && ptr <= j < ptr + i then row[j - ptr] else old(inputBuffer[c, j])
        {
          inputBuffer[ch, ptr + i] := row[i];
        }
      } else {
        var sizeLeft := n - ptr;
        for i := 0 to sizeLeft
          invariant forall c, j :: 0 <= c < channels && 0 <= j < n ==>
            inputBuffer[c, j] == if c == ch && ptr <= j < ptr + i then row[j - ptr] else old(inputBuffer[c, j])
        {
          inputBuffer[ch, ptr + i] := row[i];
        }
        var framesLeft := nframes - sizeLeft;
        for i := 0 to framesLeft
          invariant forall c, j :: 0 <= c < channels && 0 <= j < n ==>
            inputBuffer[c, j] == if c == ch && (ptr <= j || j < i) then row[if ptr <= j then j - ptr else sizeLeft + j] else old(inputBuffer[c, j])
        {
          inputBuffer[ch, i] := row[sizeLeft + i];
        }
      }
      CopiedRow(old(Row(ch)), Row(ch), ptr, row, nframes);
    }

    /**
     * `update_data` without its trigonometry: the clamp, the layout whose odd
     * case stops one short (for an odd count the outer two angles are never
     * assigned), the stored delays and attenuations, with `rel_delay > 0.5`
     * the smallest delay taken off every delay, and the attenuations
     * normalised by the reciprocal of their product; then a ramp restarts.
     * `shift` is `a0` converted to radians; `alpha`, `delays*` and `raw*`
     * are what the trigonometry derives.
     */
    method UpdateData(r: real, pdist: real, relDelay: real, alpha: real, shift: real,
                      delaysL: seq<int>, delaysR: seq<int>, rawL: seq<real>, rawR: seq<real>)
      returns (clamp: Clamped, angles: array<Option<real>>)
      requires Valid() && |delaysL| == channels && |delaysR| == channels && |rawL| == channels && |rawR| == channels
      requires Product(rawL, rawR, channels) != 0.0
      modifies delay, attenuation, this`timer, this`useAverage
      ensures Valid() && timer == 0 && useAverage
      ensures clamp == BaseClamp(r, pdist)
      ensures fresh(angles) && angles[..] == Layouted(channels, channels / 2, alpha, shift)
      ensures var m := if relDelay > 0.5 then Least(delaysL + delaysR) else 0;
        DelayRow(0) == Lowered(delaysL, m) && DelayRow(1) == Lowered(delaysR, m)
      ensures AttenuationRow(0) == Scaled(rawL, 1.0 / Product(rawL, rawR, channels))
      ensures AttenuationRow(1) == Scaled(rawR, 1.0 / Product(rawL, rawR, channels))
    {
      label start:
      clamp := BaseClamp(r, pdist);
      angles := Layout(channels, channels / 2, alpha, shift);
      var att := StoreSources(delaysL, delaysR, rawL, rawR);
      RelativeDelayStep(relDelay);
      att := 1.0 / att;
      NormaliseAttenuations(att);
      timer := 0;
      useAverage := true;
      FiltersKept@start(this);
    }

    /** The per-source loop: delays and attenuations stored, their product built. */
    method StoreSources(delaysL: seq<int>, delaysR: seq<int>, rawL: seq<real>, rawR: seq<real>) returns (att: real)
      requires Shaped() && |delaysL| == channels && |delaysR| == channels && |rawL| == channels && |rawR| == channels
      modifies delay, attenuation
      ensures DelayRow(0) == delaysL && DelayRow(1) == delaysR
      ensures AttenuationRow(0) == rawL && AttenuationRow(1) == rawR
      ensures att == Product(rawL, rawR, channels)
    {
      att := 1.0;
      for i := 0 to channels
        invariant att == Product(rawL, rawR, i)
        invariant forall ch :: 0 <= ch < i ==> delay[0, ch] == delaysL[ch] && delay[1, ch] == delaysR[ch]
        invariant forall ch :: 0 <= ch < i ==> attenuation[0, ch] == rawL[ch] && attenuation[1, ch] == rawR[ch]
      {
        delay[0, i] := delaysL[i];
        delay[1, i] := delaysR[i];
        attenuation[0, i] := rawL[i];
        attenuation[1, i] := rawR[i];
        att := att * attenuation[0, i];
        att := att * attenuation[1, i];
      }
    }

    /** With `rel_delay > 0.5`, the smallest delay taken off every delay. */
    method RelativeDelayStep(relDelay: real)
      requires Shaped()
      modifies delay
      ensures var m := if relDelay > 0.5 then Least(old(DelayRow(0)) + old(DelayRow(1))) else 0;
        DelayRow(0) == Lowered(old(DelayRow(0)), m) && DelayRow(1) == Lowered(old(DelayRow(1)), m)
    {
      if relDelay > 0.5 {
        var min := SmallestDelay();
        LeastUnique(DelayRow(0) + DelayRow(1), min);
        LowerDelays(min);
      } else {
        assert Lowered(DelayRow(0), 0) == DelayRow(0) && Lowered(DelayRow(1), 0) == DelayRow(1);
      }
    }

    /** The first loop of the `rel_delay` step: the smallest of all delays. */
    method SmallestDelay() returns (min: int)
      requires Shaped()
      ensures min in DelayRow(0) + DelayRow(1)
      ensures forall x :: x in DelayRow(0) + DelayRow(1) ==> min <= x
    {
      min := delay[0, 0];
      ghost var at := (0, 0);
      for i := 0 to 2
        invariant 0 <= at.0 < 2 && 0 <= at.1 < channels && min == delay[at.0, at.1]
        invariant forall e, ch :: 0 <= e < i && 0 <= ch < channels ==> min <= delay[e, ch]
      {
        for ch := 0 to channels
          invariant 0 <= at.0 < 2 && 0 <= at.1 < channels && min == delay[at.0, at.1]
          invariant forall e, c :: 0 <= e < 2 && 0 <= c < channels && (e < i || (e == i && c < ch)) ==> min <= delay[e, c]
        {
          if delay[i, ch] < min {
            min := delay[i, ch];
            at := (i, ch);
          }
        }
      }
      ghost var l, r := DelayRow(0), DelayRow(1);
      assert min == (l + r)[at.0 * channels + at.1];
      forall x | x in l + r
        ensures min <= x
      {
        var j :| 0 <= j < |l + r| && (l + r)[j] == x;
        if j < channels {
          assert x == delay[0, j];
        } else {
          assert x == delay[1, j - channels];
        }
      }
    }

    /** The second loop: `min` taken off every delay. */
    method LowerDelays(min: int)
      requires Shaped()
      modifies delay
      ensures DelayRow(0) == Lowered(old(DelayRow(0)), min) && DelayRow(1) == Lowered(old(DelayRow(1)), min)
    {
      for i := 0 to 2
        invariant forall e, ch :: 0 <= e < 2 && 0 <= ch < channels ==>
          delay[e, ch] == if e < i then old(delay[e, ch]) - min else old(delay[e, ch])
      {
        for ch := 0 to channels
          invariant forall e, c :: 0 <= e < 2 && 0 <= c < channels ==>
            delay[e, c] == if e < i || (e == i && c < ch) then old(delay[e, c]) - min else old(delay[e, c])
        {
          delay[i, ch] := delay[i, ch] - min;
        }
      }
    }

    /** The normalisation loop: every attenuation multiplied by `k`. */
    method NormaliseAttenuations(k: real)
      requires Shaped()
      modifies attenuation
      ensures AttenuationRow(0) == Scaled(old(AttenuationRow(0)), k) && AttenuationRow(1) == Scaled(old(AttenuationRow(1)), k)
    {
      for i := 0 to channels
        invariant forall e, ch :: 0 <= e < 2 && 0 <= ch < channels ==>
          attenuation[e, ch] == if ch < i then old(attenuation[e, ch]) * k else old(attenuation[e, ch])
      {
        attenuation[0, i] := attenuation[0, i] * k;
        attenuation[1, i] := attenuation[1, i] * k;
      }
      ghost var sl, sr := Scaled(old(AttenuationRow(0)), k), Scaled(old(AttenuationRow(1)), k);
      ghost var l, r := AttenuationRow(0), AttenuationRow(1);
      forall ch | 0 <= ch < channels
        ensures l[ch] == sl[ch] && r[ch] == sr[ch]
      {
        assert sl[ch] == old(attenuation[0, ch]) * k && sr[ch] == old(attenuation[1, ch]) * k;
      }
      assert l == sl && r == sr;
    }

    /**
     * Step 2 of `runBase` when not ramping: each output frame `f` of ear
     * `e` sums every input read `delay[e][ch]` frames back, times its
     * attenuation. Frames past `nframes` are left alone.
     */
    method SteadyOutput(output: array2<real>, nframes: int)
      requires Valid() && output.Length0 == 2 && 0 <= nframes <= output.Length1
      requires output != inputBuffer && output != attenuation
      modifies output
      ensures forall e, t :: 0 <= e < 2 && 0 <= t < output.Length1 ==>
        output[e, t] == if t < nframes then SteadyMix(Rows(), generalBufferPointer, DelayRow(e), AttenuationRow(e), t, channels)
                        else old(output[e, t])
    {
      for i := 0 to 2
        invariant forall e, t :: 0 <= e < 2 && 0 <= t < output.Length1 ==>
          output[e, t] == if e < i && t < nframes then SteadyMix(Rows(), generalBufferPointer, DelayRow(e), AttenuationRow(e), t, channels)
                          else old(output[e, t])
      {
        for f := 0 to nframes
          invariant forall e, t :: 0 <= e < 2 && 0 <= t < output.Length1 ==>
            output[e, t] == if (e < i && t < nframes) || (e == i && t < f) then SteadyMix(Rows(), generalBufferPointer, DelayRow(e), AttenuationRow(e), t, channels)
                            else old(output[e, t])
        {
          var value := SteadyFrame(i, f);
          output[i, f] := value;
        }
      }
    }

    /** One steady output frame: the sources summed in order. */
    method SteadyFrame(e: int, t: int) returns (value: real)
      requires Readable() && 0 <= e < 2
      ensures value == SteadyMix(Rows(), generalBufferPointer, DelayRow(e), AttenuationRow(e), t, channels)
    {
      ghost var rows, delays, atts := Rows(), DelayRow(e), AttenuationRow(e);
      value := 0.0;
      for ch := 0 to channels
        invariant value == SteadyMix(rows, generalBufferPointer, delays, atts, t, ch)
      {
        value := SteadyAdd(e, ch, t, value, rows, delays, atts);
      }
    }

    /** One iteration of that loop: source `ch` read at its whole delay, attenuated and added. */
    method SteadyAdd(e: int, ch: int, t: int, value: real, ghost rows: seq<seq<real>>, ghost delays: seq<int>, ghost atts: seq<real>)
      returns (next: real)
      requires Readable() && 0 <= e < 2 && 0 <= ch < channels
      requires rows == Rows() && delays == DelayRow(e) && atts == AttenuationRow(e)
      requires value == SteadyMix(rows, generalBufferPointer, delays, atts, t, ch)
      ensures next == SteadyMix(rows, generalBufferPointer, delays, atts, t, ch + 1)
    {
      var v := GetInputValue(ch, t - delay[e, ch]);
      var a := attenuation[e, ch];
      assert rows[ch] == Row(ch) && delays[ch] == delay[e, ch] && atts[ch] == a;
      next := value + v * a;
      SteadyMixNext(rows, generalBufferPointer, delays, atts, t, ch, value, v, a, next);
    }

    /**
     * Step 2 of `runBase` while ramping: for each ear, batch by batch, every
     * filter of that ear is popped once and the batch's frames are mixed at
     * the popped, fractional delays. With `nframes` not a multiple of the
     * batch size the last frames are left alone. Every read cursor ends
     * `nframes / avgBatchSize` slots on, back on its fill cursor when the
     * push made it that far ahead.
     */
    method RampOutput(output: array2<real>, nframes: int)
      requires Buffered() && FiltersValid() && avgBatchSize >= 1
      requires output.Length0 == 2 && 0 <= nframes <= output.Length1
      requires output != inputBuffer && output != attenuation && output !in FilterRepr()
      requires Paced(nframes / avgBatchSize)
      modifies output, FilterRepr()
      ensures Valid()
      ensures forall e, ch :: 0 <= e < 2 && 0 <= ch < channels ==>
        ViewOf(avg[e][ch]) == old(ViewOf(avg[e][ch])).(read := Advanced(old(avg[e][ch].ptrRead), nframes / avgBatchSize, filterSize))
      ensures forall e, t :: 0 <= e < 2 && 0 <= t < output.Length1 ==>
        output[e, t] == if t < nframes / avgBatchSize * avgBatchSize
                        then RampMix(Rows(), generalBufferPointer, PopsAt(old(Views())[e], t / avgBatchSize, filterSize), AttenuationRow(e), t, channels)
                        else old(output[e, t])
    {
      var batches := nframes / avgBatchSize;
      assert batches * avgBatchSize <= nframes by {
        ModUnique(nframes, avgBatchSize, batches, nframes % avgBatchSize);
      }
      ghost var w0 := Views();
      ViewsPoppable();
      RampEar(0, batches, output);
      ghost var w1 := Views();
      assert w1[1] == w0[1];
      RampEar(1, batches, output);
      SyncedAfterPops(w0, batches);
    }

    /** The batches of ear `e`: pop the ear's filters, mix the batch. */
    method RampEar(e: int, batches: int, output: array2<real>)
      requires Buffered() && FiltersValid() && 0 <= e < 2 && avgBatchSize >= 1
      requires output.Length0 == 2 && 0 <= batches && batches * avgBatchSize <= output.Length1
      requires output != inputBuffer && output != attenuation && output !in FilterRepr()
      modifies output, FilterRepr()
      ensures FiltersValid()
      ensures forall e', ch :: 0 <= e' < 2 && 0 <= ch < channels ==>
        ViewOf(avg[e'][ch]) == if e' == e then old(ViewOf(avg[e'][ch])).(read := Advanced(old(avg[e'][ch].ptrRead), batches, filterSize))
                               else old(ViewOf(avg[e'][ch]))
      ensures forall e', t :: 0 <= e' < 2 && 0 <= t < output.Length1 ==>
        output[e', t] == if e' == e && t < batches * avgBatchSize
                         then RampMix(Rows(), generalBufferPointer, PopsAt(old(Views())[e], t / avgBatchSize, filterSize), AttenuationRow(e), t, channels)
                         else old(output[e', t])
    {
      ghost var v0: seq<seq<View>> := Views();
      ghost var rows, atts := Rows(), AttenuationRow(e);
      ViewsPoppable();
      var size := avgBatchSize;
      var done := 0;
      for b := 0 to batches
        invariant done == b * size
        invariant FiltersValid()
        invariant forall e', ch :: 0 <= e' < 2 && 0 <= ch < channels ==>
          ViewOf(avg[e'][ch]) == if e' == e then v0[e'][ch].(read := Advanced(v0[e'][ch].read, b, filterSize)) else v0[e'][ch]
        invariant forall e', t :: 0 <= e' < 2 && 0 <= t < output.Length1 ==>
          output[e', t] == if e' == e && t < done
                           then RampMix(rows, generalBufferPointer, PopsAt(v0[e], t / size, filterSize), atts, t, channels)
                           else old(output[e', t])
      {
        NextBatch(b, size, batches);
        EarBatch(e, b, done, output, v0, rows, atts);
        done := done + size;
      }
    }

    /**
     * Batch `b` of ear `e`, the frames from `start` on: every filter of the
     * ear popped once, from where `b` earlier pops left it, and the frames
     * mixed at the popped delays.
     */
    method EarBatch(e: int, b: nat, start: int, output: array2<real>, ghost v0: seq<seq<View>>, ghost rows: seq<seq<real>>, ghost atts: seq<real>)
      requires Buffered() && FiltersValid() && 0 <= e < 2 && avgBatchSize >= 1
      requires |v0| == 2 && |v0[0]| == channels && |v0[1]| == channels && Poppable(v0[e], filterSize)
      requires forall e', ch :: 0 <= e' < 2 && 0 <= ch < channels ==>
        ViewOf(avg[e'][ch]) == if e' == e then v0[e'][ch].(read := Advanced(v0[e'][ch].read, b, filterSize)) else v0[e'][ch]
      requires rows == Rows() && atts == AttenuationRow(e)
      requires output.Length0 == 2 && start == b * avgBatchSize && 0 <= start && start + avgBatchSize <= output.Length1
      requires output != inputBuffer && output != attenuation && output !in FilterRepr()
      modifies output, FilterRepr()
      ensures FiltersValid()
      ensures forall e', ch :: 0 <= e' < 2 && 0 <= ch < channels ==>
        ViewOf(avg[e'][ch]) == if e' == e then v0[e'][ch].(read := Advanced(v0[e'][ch].read, b + 1, filterSize)) else v0[e'][ch]
      ensures forall e', t :: 0 <= e' < 2 && 0 <= t < output.Length1 ==>
        output[e', t] == if e' == e && start <= t < start + avgBatchSize
                         then RampMix(rows, generalBufferPointer, PopsAt(v0[e], t / avgBatchSize, filterSize), atts, t, channels)
                         else old(output[e', t])
    {
      var pops := PopEar(e);
      ghost var expected := PopsAt(v0[e], b, filterSize);
      forall ch | 0 <= ch < channels
        ensures pops[ch] == expected[ch]
        ensures ViewOf(avg[e][ch]) == v0[e][ch].(read := Advanced(v0[e][ch].read, b + 1, filterSize))
      {
        PopAdvance(v0[e][ch].read, b, filterSize);
      }
      assert pops == expected;
      label popped:
      RampBatch(e, start, pops, output, rows, atts);
      FiltersKept@popped(this);
      forall t | start <= t < start + avgBatchSize
        ensures t / avgBatchSize == b
      {
        ModUnique(t, avgBatchSize, b, t - start);
      }
    }

    /** `delayBuffer[ch] = avg[e][ch].popData()` for every source. */
    method PopEar(e: int) returns (pops: seq<real>)
      requires Shaped() && FiltersValid() && 0 <= e < 2
      modifies FilterRepr()
      ensures FiltersValid() && |pops| == channels
      ensures forall ch :: 0 <= ch < channels ==>
        pops[ch] == old(ViewOf(avg[e][ch])).state.scaled[PopSlot(old(avg[e][ch].ptrRead), filterSize)]
      ensures forall e', ch :: 0 <= e' < 2 && 0 <= ch < channels ==>
        ViewOf(avg[e'][ch]) == if e' == e then PoppedView(old(ViewOf(avg[e'][ch])), filterSize) else old(ViewOf(avg[e'][ch]))
    {
      pops := [];
      for j := 0 to channels
        invariant FiltersValid() && |pops| == j
        invariant forall ch :: 0 <= ch < j ==>
          pops[ch] == old(ViewOf(avg[e][ch])).state.scaled[PopSlot(old(avg[e][ch].ptrRead), filterSize)]
        invariant forall e', ch :: 0 <= e' < 2 && 0 <= ch < channels ==>
          ViewOf(avg[e'][ch]) == if e' == e && ch < j then PoppedView(old(ViewOf(avg[e'][ch])), filterSize) else old(ViewOf(avg[e'][ch]))
      {
        var r := PopOne(e, j);
        pops := pops + [r];
      }
    }

    /** The frames `start .. start + avgBatchSize` of ear `e`, each mixed at the popped delays. */
    method RampBatch(e: int, start: int, pops: seq<real>, output: array2<real>, ghost rows: seq<seq<real>>, ghost atts: seq<real>)
      requires Buffered() && 0 <= e < 2 && avgBatchSize >= 1 && |pops| == channels
      requires rows == Rows() && atts == AttenuationRow(e)
      requires output.Length0 == 2 && 0 <= start && start + avgBatchSize <= output.Length1
      requires output != inputBuffer && output != attenuation
      modifies output
      ensures forall e', t :: 0 <= e' < 2 && 0 <= t < output.Length1 ==>
        output[e', t] == if e' == e && start <= t < start + avgBatchSize
                         then RampMix(rows, generalBufferPointer, pops, atts, t, channels)
                         else old(output[e', t])
    {
      for f := start to start + avgBatchSize
        invariant forall e', t :: 0 <= e' < 2 && 0 <= t < output.Length1 ==>
          output[e', t] == if e' == e && start <= t < f
                           then RampMix(rows, generalBufferPointer, pops, atts, t, channels)
                           else old(output[e', t])
      {
        var value := RampFrame(e, f, pops);
        output[e, f] := value;
      }
    }

    /** One ramping output frame: the sources summed in order, each read at its fractional delay. */
    method RampFrame(e: int, t: int, pops: seq<real>) returns (value: real)
      requires Readable() && 0 <= e < 2 && |pops| == channels
      ensures value == RampMix(Rows(), generalBufferPointer, pops, AttenuationRow(e), t, channels)
    {
      ghost var rows, atts := Rows(), AttenuationRow(e);
      value := 0.0;
      for ch := 0 to channels
        invariant value == RampMix(rows, generalBufferPointer, pops, atts, t, ch)
      {
        value := RampAdd(e, ch, t, pops, value, rows, atts);
      }
    }

    /** One iteration of that loop: source `ch` read at its fractional delay, attenuated and added. */
    method RampAdd(e: int, ch: int, t: int, pops: seq<real>, value: real, ghost rows: seq<seq<real>>, ghost atts: seq<real>)
      returns (next: real)
      requires Readable() && 0 <= e < 2 && 0 <= ch < channels && |pops| == channels
      requires rows == Rows() && atts == AttenuationRow(e)
      requires value == RampMix(rows, generalBufferPointer, pops, atts, t, ch)
      ensures next == RampMix(rows, generalBufferPointer, pops, atts, t, ch + 1)
    {
      var v := GetInterpolatedValue(ch, t as real - pops[ch]);
      var a := attenuation[e, ch];
      assert rows[ch] == Row(ch) && atts[ch] == a;
      next := value + v * a;
      RampMixNext(rows, generalBufferPointer, pops, atts, t, ch, value, v, a, next);
    }

    /**
     * `runBase(nframes)`: take a new window or a new geometry when the
     * controls moved, then render the block. The geometry's angles come in as
     * `alpha` and `shift`, its per-source delays and attenuations as
     * `delaysL` … `rawR`; they are only read when the controls moved.
     */
    method RunBase(inputs: seq<seq<real>>, output: array2<real>, nframes: int, windowSize: real, controls: Controls,
                   alpha: real, shift: real, delaysL: seq<int>, delaysR: seq<int>, rawL: seq<real>, rawR: seq<real>)
      returns (ghost started: seq<seq<View>>, ghost pushed: seq<seq<View>>)
      requires Valid() && Smoothing()
      requires windowSize != windowTarget ==> Scaling(ClampedWindow(WindowLength(windowSize, sampleRate, avgBatchSize), filterSize)) != 0.0
      requires controls != geometryTarget ==>
        |delaysL| == channels && |delaysR| == channels && |rawL| == channels && |rawR| == channels && Product(rawL, rawR, channels) != 0.0
      requires |inputs| == channels && 0 <= nframes <= bufferSize && forall ch :: 0 <= ch < channels ==> nframes <= |inputs[ch]|
      requires output.Length0 == 2 && nframes <= output.Length1
      requires output != inputBuffer && output != attenuation && output !in FilterRepr()
      modifies this`generalBufferPointer, this`timer, this`timerOverrun, this`useAverage, this`windowTarget, this`geometryTarget
      modifies inputBuffer, delay, attenuation, output, FilterRepr()
      ensures Shaped() && windowTarget == windowSize && geometryTarget == controls
      ensures var w := ClampedWindow(WindowLength(windowSize, sampleRate, avgBatchSize), filterSize);
        Ramp(timer, timerOverrun, useAverage) ==
        Tick(old(Ramp(timer, timerOverrun, useAverage)), if windowSize != old(windowTarget) then Some((w + 2) * avgBatchSize) else None,
             controls != old(geometryTarget), nframes)
      ensures controls != old(geometryTarget) ==>
        var m, k := if controls.relativeDelays > 0.5 then Least(delaysL + delaysR) else 0, 1.0 / Product(rawL, rawR, channels);
        DelayRow(0) == Lowered(delaysL, m) && DelayRow(1) == Lowered(delaysR, m) &&
        AttenuationRow(0) == Scaled(rawL, k) && AttenuationRow(1) == Scaled(rawR, k)
      ensures controls == old(geometryTarget) ==>
        DelayRow(0) == old(DelayRow(0)) && DelayRow(1) == old(DelayRow(1)) &&
        AttenuationRow(0) == old(AttenuationRow(0)) && AttenuationRow(1) == old(AttenuationRow(1))
      ensures generalBufferPointer == (old(generalBufferPointer) + nframes) % bufferSize
      ensures forall ch :: 0 <= ch < channels ==> Row(ch) == Copied(old(Row(ch)), old(generalBufferPointer), inputs[ch], nframes)
      // the filters once the window is taken: cleaned to the new window, or as they were
      ensures |started| == 2 && |started[0]| == channels && |started[1]| == channels
      ensures Pushable(started[0], filterSize) && Pushable(started[1], filterSize)
      ensures var w := ClampedWindow(WindowLength(windowSize, sampleRate, avgBatchSize), filterSize);
        forall e, ch :: 0 <= e < 2 && 0 <= ch < channels ==>
          started[e][ch] == if windowSize != old(windowTarget) then View(Cleaned(filterSize), 0, 0, w) else old(ViewOf(avg[e][ch]))
      // the filters after the push, which happens while the ramp runs
      ensures |pushed| == 2 && |pushed[0]| == channels && |pushed[1]| == channels
      ensures forall e :: 0 <= e < 2 ==> Poppable(pushed[e], filterSize)
      ensures var ramping := windowSize != old(windowTarget) || controls != old(geometryTarget) || old(useAverage);
        forall e, ch :: 0 <= e < 2 && 0 <= ch < channels ==>
          pushed[e][ch] == (if ramping then PushedView(started[e][ch], delay[e, ch], nframes / avgBatchSize, filterSize) else started[e][ch]) &&
          ViewOf(avg[e][ch]) == if ramping then pushed[e][ch].(read := Advanced(started[e][ch].read, nframes / avgBatchSize, filterSize)) else started[e][ch]
      ensures var ramping := windowSize != old(windowTarget) || controls != old(geometryTarget) || old(useAverage);
        forall e, t :: 0 <= e < 2 && 0 <= t < output.Length1 ==>
          output[e, t] ==
            if t < nframes && !ramping then SteadyMix(Rows(), old(generalBufferPointer), DelayRow(e), AttenuationRow(e), t, channels)
            else if ramping && t < nframes / avgBatchSize * avgBatchSize
            then RampMix(Rows(), old(generalBufferPointer), PopsAt(pushed[e], t / avgBatchSize, filterSize), AttenuationRow(e), t, channels)
            else old(output[e, t])
      ensures Valid() && Smoothing()
    {
      Retarget(windowSize, controls, alpha, shift, delaysL, delaysR, rawL, rawR);
      started := Views();
      ViewsPushable();
      pushed := Render(inputs, output, nframes);
    }

    /** The first half of `runBase`: a new window cleans every filter, a new geometry recomputes delays and attenuations. */
    method Retarget(windowSize: real, controls: Controls, alpha: real, shift: real,
                    delaysL: seq<int>, delaysR: seq<int>, rawL: seq<real>, rawR: seq<real>)
      requires Valid() && Smoothing()
      requires windowSize != windowTarget ==> Scaling(ClampedWindow(WindowLength(windowSize, sampleRate, avgBatchSize), filterSize)) != 0.0
      requires controls != geometryTarget ==>
        |delaysL| == channels && |delaysR| == channels && |rawL| == channels && |rawR| == channels && Product(rawL, rawR, channels) != 0.0
      modifies this`timer, this`timerOverrun, this`useAverage, this`windowTarget, this`geometryTarget, delay, attenuation, FilterRepr()
      ensures Valid() && Smoothing() && windowTarget == windowSize && geometryTarget == controls
      ensures var w := ClampedWindow(WindowLength(windowSize, sampleRate, avgBatchSize), filterSize);
        Ramp(timer, timerOverrun, useAverage) ==
        Started(old(Ramp(timer, timerOverrun, useAverage)), if windowSize != old(windowTarget) then Some((w + 2) * avgBatchSize) else None,
                controls != old(geometryTarget))
      ensures var w := ClampedWindow(WindowLength(windowSize, sampleRate, avgBatchSize), filterSize);
        forall e, ch :: 0 <= e < 2 && 0 <= ch < channels ==>
          ViewOf(avg[e][ch]) == if windowSize != old(windowTarget) then View(Cleaned(filterSize), 0, 0, w) else old(ViewOf(avg[e][ch]))
      ensures controls != old(geometryTarget) ==>
        var m, k := if controls.relativeDelays > 0.5 then Least(delaysL + delaysR) else 0, 1.0 / Product(rawL, rawR, channels);
        DelayRow(0) == Lowered(delaysL, m) && DelayRow(1) == Lowered(delaysR, m) &&
        AttenuationRow(0) == Scaled(rawL, k) && AttenuationRow(1) == Scaled(rawR, k)
      ensures controls == old(geometryTarget) ==>
        DelayRow(0) == old(DelayRow(0)) && DelayRow(1) == old(DelayRow(1)) &&
        AttenuationRow(0) == old(AttenuationRow(0)) && AttenuationRow(1) == old(AttenuationRow(1))
    {
      if windowSize != windowTarget {
        ChangeWindow(windowSize);
        SmoothingByWindows();
      }
      if controls != geometryTarget {
        label before:
        var clamp, angles := UpdateData(controls.radius, controls.playerDist, controls.relativeDelays, alpha, shift, delaysL, delaysR, rawL, rawR);
        FiltersKept@before(this);
        geometryTarget := controls;
      }
    }

    /**
     * The second half of `runBase`: push the delays while ramping, buffer
     * the input, write the output (steady, or ramping and then checking the
     * timer) and move the buffer pointer on. `pushed` is every filter after
     * the push.
     */
    method Render(inputs: seq<seq<real>>, output: array2<real>, nframes: int) returns (ghost pushed: seq<seq<View>>)
      requires Valid() && Smoothing()
      requires |inputs| == channels && 0 <= nframes <= bufferSize && forall ch :: 0 <= ch < channels ==> nframes <= |inputs[ch]|
      requires output.Length0 == 2 && nframes <= output.Length1
      requires output != inputBuffer && output != attenuation && output !in FilterRepr()
      modifies this`generalBufferPointer, this`timer, this`useAverage, inputBuffer, output, FilterRepr()
      ensures Valid() && Smoothing()
      ensures Ramp(timer, timerOverrun, useAverage) == Ran(old(Ramp(timer, timerOverrun, useAverage)), nframes)
      ensures generalBufferPointer == (old(generalBufferPointer) + nframes) % bufferSize
      ensures forall ch :: 0 <= ch < channels ==> Row(ch) == Copied(old(Row(ch)), old(generalBufferPointer), inputs[ch], nframes)
      ensures |pushed| == 2 && |pushed[0]| == channels && |pushed[1]| == channels
      ensures forall e :: 0 <= e < 2 ==> Poppable(pushed[e], filterSize)
      ensures forall e, ch :: 0 <= e < 2 && 0 <= ch < channels ==>
        pushed[e][ch] == if old(useAverage) then PushedView(old(ViewOf(avg[e][ch])), delay[e, ch], nframes / avgBatchSize, filterSize)
                         else old(ViewOf(avg[e][ch]))
      ensures forall e, ch :: 0 <= e < 2 && 0 <= ch < channels ==>
        ViewOf(avg[e][ch]) == if old(useAverage) then pushed[e][ch].(read := Advanced(old(avg[e][ch].ptrRead), nframes / avgBatchSize, filterSize))
                              else pushed[e][ch]
      ensures forall e, t :: 0 <= e < 2 && 0 <= t < output.Length1 ==>
        output[e, t] ==
          if t < nframes && !old(useAverage) then SteadyMix(Rows(), old(generalBufferPointer), DelayRow(e), AttenuationRow(e), t, channels)
          else if old(useAverage) && t < nframes / avgBatchSize * avgBatchSize
          then RampMix(Rows(), old(generalBufferPointer), PopsAt(pushed[e], t / avgBatchSize, filterSize), AttenuationRow(e), t, channels)
          else old(output[e, t])
    {
      Feed(inputs, nframes);
      pushed := Views();
      ViewsPoppable();
      Emit(output, nframes);
      label emitted:
      AdvancePointer(nframes);
      FiltersKept@emitted(this);
    }

    /** `runBase` up to the output: push the delays while ramping, buffer the input. */
    method Feed(inputs: seq<seq<real>>, nframes: int)
      requires Valid() && Smoothing()
      requires |inputs| == channels && 0 <= nframes <= bufferSize && forall ch :: 0 <= ch < channels ==> nframes <= |inputs[ch]|
      modifies this`timer, inputBuffer, FilterRepr()
      ensures Buffered() && FiltersValid() && Smoothing()
      ensures timer == if useAverage then old(timer) + nframes else old(timer)
      ensures forall ch :: 0 <= ch < channels ==> Row(ch) == Copied(old(Row(ch)), generalBufferPointer, inputs[ch], nframes)
      ensures forall e, ch :: 0 <= e < 2 && 0 <= ch < channels ==>
        ViewOf(avg[e][ch]) == if useAverage then PushedView(old(ViewOf(avg[e][ch])), delay[e, ch], nframes / avgBatchSize, filterSize)
                         else old(ViewOf(avg[e][ch]))
      ensures !useAverage ==> FiltersSynced()
      ensures useAverage ==> Paced(nframes / avgBatchSize)
    {
      PushAll(nframes);
      label pushedState:
      BufferInput(inputs, nframes);
      FiltersKept@pushedState(this);
    }

    /** `runBase`'s output: steady, or ramping and then checking the timer. */
    method Emit(output: array2<real>, nframes: int)
      requires Buffered() && FiltersValid() && Smoothing() && avgBatchSize >= 1
      requires forall e :: 0 <= e < 2 ==> Poppable(Views()[e], filterSize)
      requires !useAverage ==> FiltersSynced()
      requires useAverage ==> Paced(nframes / avgBatchSize)
      requires output.Length0 == 2 && 0 <= nframes <= output.Length1
      requires output != inputBuffer && output != attenuation && output !in FilterRepr()
      modifies this`timer, this`useAverage, output, FilterRepr()
      ensures Valid() && Smoothing()
      ensures Ramp(timer, timerOverrun, useAverage) ==
        if old(useAverage) then Overrun(old(Ramp(timer, timerOverrun, useAverage))) else old(Ramp(timer, timerOverrun, useAverage))
      ensures forall e, ch :: 0 <= e < 2 && 0 <= ch < channels ==>
        ViewOf(avg[e][ch]) == if old(useAverage) then old(ViewOf(avg[e][ch])).(read := Advanced(old(avg[e][ch].ptrRead), nframes / avgBatchSize, filterSize))
                              else old(ViewOf(avg[e][ch]))
      ensures forall e, t :: 0 <= e < 2 && 0 <= t < output.Length1 ==>
        output[e, t] ==
          if t < nframes && !old(useAverage) then SteadyMix(Rows(), generalBufferPointer, DelayRow(e), AttenuationRow(e), t, channels)
          else if old(useAverage) && t < nframes / avgBatchSize * avgBatchSize
          then RampMix(Rows(), generalBufferPointer, PopsAt(old(Views())[e], t / avgBatchSize, filterSize), AttenuationRow(e), t, channels)
          else old(output[e, t])
    {
      SmoothingByWindows();
      if !useAverage {
        label steady:
        SteadyOutput(output, nframes);
        FiltersKept@steady(this);
      } else {
        RampOutput(output, nframes);
        CheckOverrun();
      }
      SmoothingByWindows();
    }

    /** The end of a ramping `runBase`: once the timer passes `timerOverrun` the ramp is over. */
    method CheckOverrun()
      modifies this`timer, this`useAverage
      ensures Ramp(timer, timerOverrun, useAverage) == Overrun(old(Ramp(timer, timerOverrun, useAverage)))
    {
      if timer > timerOverrun {
        useAverage := false;
        timer := 0;
      }
    }

    /** Valid filters divide by their scaling factor exactly when their windows have a non-zero one. */
    lemma SmoothingByWindows()
      requires Shaped() && FiltersValid()
      ensures Smoothing() <==> forall e, ch :: 0 <= e < 2 && 0 <= ch < channels ==> Scaling(ViewOf(avg[e][ch]).window) != 0.0
    {
    }

    /** The end of `runBase`: the buffer pointer moves `nframes` on and wraps once. */
    method AdvancePointer(nframes: int)
      requires Valid() && 0 <= nframes <= bufferSize
      modifies this`generalBufferPointer
      ensures Valid() && generalBufferPointer == (old(generalBufferPointer) + nframes) % bufferSize
    {
      generalBufferPointer := generalBufferPointer + nframes;
      if generalBufferPointer >= bufferSize {
        ModAddMultiple(generalBufferPointer - bufferSize, 1, bufferSize);
        generalBufferPointer := generalBufferPointer - bufferSize;
      }
      ModSmall(generalBufferPointer, bufferSize);
    }
  }

  /** The smallest value of a non-empty sequence. */
  function Least(s: seq<int>): (m: int)
    requires |s| > 0
    ensures m in s && forall x :: x in s ==> m <= x
  {
    if |s| == 1 then s[0]
    else
      var m := Least(s[..|s| - 1]);
      assert s == s[..|s| - 1] + [s[|s| - 1]];
      if s[|s| - 1] < m then s[|s| - 1] else m
  }

  lemma LeastBelow(s: seq<int>, i: int)
    requires 0 <= i < |s|
    ensures Least(s) <= s[i]
  {
    assert s[i] in s;
  }

  /** A value of the sequence that no value undercuts is its least. */
  lemma LeastUnique(s: seq<int>, m: int)
    requires m in s && forall x :: x in s ==> m <= x
    ensures Least(s) == m
  {
  }

  /** Every delay lowered by `m`. */
  function Lowered(delays: seq<int>, m: int): (r: seq<int>)
    ensures |r| == |delays|
  {
    seq(|delays|, ch requires 0 <= ch < |delays| => delays[ch] - m)
  }

  /**
   * Taking the least delay off every delay leaves only the differences
   * between sources: none negative, the least one zero, every difference kept.
   */
  lemma {:induction false} RelativeDelays(l: seq<int>, r: seq<int>)
    requires |l| > 0
    ensures var m := Least(l + r);
      (forall i :: 0 <= i < |l| ==> Lowered(l, m)[i] >= 0) &&
      (forall j :: 0 <= j < |r| ==> Lowered(r, m)[j] >= 0) &&
      (0 in Lowered(l, m) || 0 in Lowered(r, m)) &&
      (forall i, j :: 0 <= i < |l| && 0 <= j < |r| ==> Lowered(l, m)[i] - Lowered(r, m)[j] == l[i] - r[j])
  {
    var m := Least(l + r);
    var ll, lr := Lowered(l, m), Lowered(r, m);
    forall i | 0 <= i < |l|
      ensures ll[i] >= 0
    {
      LeastBelow(l + r, i);
    }
    forall j | 0 <= j < |r|
      ensures lr[j] >= 0
    {
      LeastBelow(l + r, |l| + j);
    }
    var k :| 0 <= k < |l + r| && (l + r)[k] == m;
    if k < |l| {
      assert ll[k] == 0;
    } else {
      assert lr[k - |l|] == 0;
    }
  }

  /** Every ring buffer has at least one slot. */
  predicate NonEmptyRows(rows: seq<seq<real>>) {
    forall ch :: 0 <= ch < |rows| ==> |rows[ch]| > 0
  }

  /** The steady mix of frame `t`: the first `n` sources, each read its delay back and attenuated. */
  function SteadyMix(rows: seq<seq<real>>, ptr: int, delays: seq<int>, atts: seq<real>, t: int, n: nat): real
    requires n <= |rows| && n <= |delays| && n <= |atts| && NonEmptyRows(rows)
  {
    if n == 0 then 0.0
    else SteadyMix(rows, ptr, delays, atts, t, n - 1) + LookBack(rows[n - 1], ptr, t - delays[n - 1]) * atts[n - 1]
  }

  /** One more source added to the steady mix. */
  lemma SteadyMixNext(rows: seq<seq<real>>, ptr: int, delays: seq<int>, atts: seq<real>, t: int, n: nat,
                      value: real, v: real, a: real, next: real)
    requires n < |rows| && n < |delays| && n < |atts| && NonEmptyRows(rows)
    requires value == SteadyMix(rows, ptr, delays, atts, t, n)
    requires v == LookBack(rows[n], ptr, t - delays[n]) && a == atts[n] && next == value + v * a
    ensures next == SteadyMix(rows, ptr, delays, atts, t, n + 1)
  {
  }

  /** The ramping mix of frame `t`: the first `n` sources, each read at its fractional delay and attenuated. */
  function RampMix(rows: seq<seq<real>>, ptr: int, positions: seq<real>, atts: seq<real>, t: int, n: nat): real
    requires n <= |rows| && n <= |positions| && n <= |atts| && NonEmptyRows(rows)
  {
    if n == 0 then 0.0
    else RampMix(rows, ptr, positions, atts, t, n - 1) + Interpolated(rows[n - 1], ptr, t as real - positions[n - 1]) * atts[n - 1]
  }

  /** One more source added to the ramping mix. */
  lemma RampMixNext(rows: seq<seq<real>>, ptr: int, positions: seq<real>, atts: seq<real>, t: int, n: nat,
                    value: real, v: real, a: real, next: real)
    requires n < |rows| && n < |positions| && n < |atts| && NonEmptyRows(rows)
    requires value == RampMix(rows, ptr, positions, atts, t, n)
    requires v == Interpolated(rows[n], ptr, t as real - positions[n]) && a == atts[n] && next == value + v * a
    ensures next == RampMix(rows, ptr, positions, atts, t, n + 1)
  {
  }

  /**
   * Once the smoothed delays have arrived at the whole delays, the ramping
   * mix is the steady mix: the switch from one to the other is seamless.
   */
  lemma {:induction false} RampMatchesSteady(rows: seq<seq<real>>, ptr: int, positions: seq<real>, delays: seq<int>, atts: seq<real>, t: int, n: nat)
    requires n <= |rows| && n <= |positions| && n <= |delays| && n <= |atts| && NonEmptyRows(rows)
    requires forall ch :: 0 <= ch < n ==> positions[ch] == delays[ch] as real
    ensures RampMix(rows, ptr, positions, atts, t, n) == SteadyMix(rows, ptr, delays, atts, t, n)
  {
    if n > 0 {
      RampMatchesSteady(rows, ptr, positions, delays, atts, t, n - 1);
      InterpolatedWhole(rows[n - 1], ptr, t as real - positions[n - 1], t - delays[n - 1]);
      SumsAgree(RampMix(rows, ptr, positions, atts, t, n - 1), SteadyMix(rows, ptr, delays, atts, t, n - 1),
                Interpolated(rows[n - 1], ptr, t as real - positions[n - 1]), LookBack(rows[n - 1], ptr, t - delays[n - 1]), atts[n - 1]);
    }
  }

  /** Equal partial mixes plus equal samples at the same attenuation are equal mixes. */
  lemma SumsAgree(p: real, q: real, x: real, y: real, a: real)
    requires p == q && x == y
    ensures p + x * a == q + y * a
  {
  }

  /** The delays the filters of one ear hand out at pop number `b`. */
  function PopsAt(views: seq<View>, b: int, n: int): (r: seq<real>)
    requires Poppable(views, n)
    ensures |r| == |views|
  {
    seq(|views|, ch requires 0 <= ch < |views| => views[ch].state.scaled[(views[ch].read + b) % n])
  }

  /** Views whose scaled rings have `n` slots and whose read cursors lie in `[0, n]`. */
  ghost predicate Poppable(views: seq<View>, n: int) {
    n > 0 && forall ch :: 0 <= ch < |views| ==> |views[ch].state.scaled| == n && 0 <= views[ch].read <= n
  }

  /** Views that `pushData` can be applied to: sized rings, a non-zero scaling factor, read cursors in `[0, n]`. */
  ghost predicate Pushable(views: seq<View>, n: int) {
    n > 0 && forall ch :: 0 <= ch < |views| ==>
      Sized(views[ch].state, n) && Scaling(views[ch].window) != 0.0 && 0 <= views[ch].read <= n
  }

  /** One batch more still fits in `batches` batches. */
  lemma NextBatch(b: int, size: int, batches: int)
    requires 0 <= b < batches && size >= 1
    ensures b * size + size <= batches * size
  {
    MulMono(b + 1, batches, size);
  }

  lemma MulMono(a: int, b: int, c: int)
    requires a <= b && c >= 0
    ensures a * c <= b * c
  {
  }

  /** The window in batches that a window of `window` seconds stands for. */
  function WindowLength(window: real, srate: int, batchSize: int): int
    requires batchSize != 0
  {
    Truncate(window * srate as real / batchSize as real)
  }

  /** A filter after `pushData(value, length)`, as a value. */
  function PushedView(v: View, value: int, length: int, n: int): (r: View)
    requires n > 0 && Sized(v.state, n) && Scaling(v.window) != 0.0
    ensures Sized(r.state, n) && r.read == v.read && r.window == v.window
    ensures r.fill == if length < 1 then v.fill else (v.fill + length) % n
    ensures length < 1 ==> r == v
  {
    if length < 1 then v
    else View(Pushed(v.state, n, v.fill, value, length, Offsets(v.window), Scaling(v.window)), (v.fill + length) % n, v.read, v.window)
  }

  /** A filter whose read cursor sits on its fill cursor stays `length` slots behind it after a push of `length`. */
  lemma PushKeepsPace(v: View, value: int, length: int, n: int)
    requires n > 0 && Sized(v.state, n) && Scaling(v.window) != 0.0 && v.read % n == v.fill && length >= 0
    ensures (PushedView(v, value, length, n).read + length) % n == PushedView(v, value, length, n).fill
  {
    ModOfSum(v.read, length, n);
  }

  /** The slot `popData` reads: the read cursor, wrapped from `n` to 0. */
  function PopSlot(read: int, n: int): int {
    if read == n then 0 else read
  }

  /** A filter after `popData`, as a value. */
  function PoppedView(v: View, n: int): (r: View)
    ensures r.state == v.state && r.fill == v.fill && r.window == v.window
    ensures r.read == PopSlot(v.read, n) + 1
  {
    View(v.state, v.fill, PopSlot(v.read, n) + 1, v.window)
  }

  /** The read cursor after `b` pops from `p`. */
  function Advanced(p: int, b: int, n: int): int
    requires n > 0
  {
    if b <= 0 then p else (p + b - 1) % n + 1
  }

  /**
   * Pop number `b` from the cursor `p` reads slot `(p + b) % n`, so a run of
   * pops walks the ring from where the cursor was, and afterwards the cursor
   * is `b` slots on, round the ring.
   */
  lemma PopAdvance(p: int, b: nat, n: int)
    requires n > 0 && 0 <= p <= n
    ensures 0 <= Advanced(p, b, n) <= n
    ensures PopSlot(Advanced(p, b, n), n) == (p + b) % n
    ensures Advanced(p, b + 1, n) == PopSlot(Advanced(p, b, n), n) + 1
    ensures Advanced(p, b, n) % n == (p + b) % n
  {
    if b == 0 {
      if p == n {
        ModUnique(p, n, 1, 0);
      } else {
        ModSmall(p, n);
      }
    } else {
      var q := (p + b - 1) % n;
      ModOfSum(p + b - 1, 1, n);
      if q + 1 == n {
        ModUnique(q + 1, n, 1, 0);
      } else {
        ModSmall(q + 1, n);
      }
    }
  }

  /** What the filters hold and whether they are consistent depends on nothing but the filters. */
  twostate lemma FiltersKept(p: Pan)
    requires p.Shaped() && unchanged(p.FilterRepr())
    ensures forall e, ch :: 0 <= e < 2 && 0 <= ch < p.channels ==> ViewOf(p.avg[e][ch]) == old(ViewOf(p.avg[e][ch]))
    ensures old(p.FiltersValid()) ==> p.FiltersValid()
    ensures old(p.FiltersSynced()) ==> p.FiltersSynced()
    ensures old(p.Smoothing()) ==> p.Smoothing()
  {
    forall e, ch | 0 <= e < 2 && 0 <= ch < p.channels
      ensures ViewOf(p.avg[e][ch]) == old(ViewOf(p.avg[e][ch]))
    {
      assert Tagged(p.owner, p.avg[e][ch], (e, ch));
    }
  }


  /** The one- or two-pass copy loops leave the buffer as `Copied` describes it. */
  lemma CopiedRow(before: seq<real>, after: seq<real>, ptr: int, row: seq<real>, nframes: int)
    requires |before| > 0 && |after| == |before| && 0 <= ptr < |before| && 0 <= nframes <= |row| && nframes <= |before|
    requires forall j :: 0 <= j < |before| ==>
      after[j] == if ptr <= j < ptr + nframes then row[j - ptr]
        else if j < ptr && j < ptr + nframes - |before| then row[|before| - ptr + j]
        else before[j]
    ensures after == Copied(before, ptr, row, nframes)
  {
    var n := |before|;
    forall j | 0 <= j < n
      ensures after[j] == Copied(before, ptr, row, nframes)[j]
    {
      if ptr <= j {
        ModUnique(j - ptr, n, 0, j - ptr);
      } else {
        ModUnique(j - ptr, n, -1, j - ptr + n);
      }
    }
  }

  lemma DivAtLeastOne(x: int, d: int)
    requires 1 <= d <= x
    ensures x / d >= 1
  {
    if x / d < 1 {
      ModUnique(x, d, 0, x % d);
    }
  }
}
