/**
 * The matplotlib ground dashboard (flight_visualizer.py): the per-line part
 * of the serial reader (tokenising, time base, latest values, flags and the
 * metric deques), the horizontal bar gauge, and the text cache that keeps
 * unchanged labels from being redrawn.
 *
 * Unlike the Qt dashboard there is no reset event and no backward-timestamp
 * restart: every line, telemetry or not, appends exactly one time value.
 */
module VisualizerMpl {
  import opened Common
  import opened GroundLine
  import opened GroundText

  // ---------------------------------------------------------------------
  // The reader's buffers.

  /** The step assumed between two lines that carry no timestamp. */
  const DT_GUESS: real := 0.05

  datatype Feed = Feed(
    ts: seq<real>,                    // seconds since the first timestamp
    t0: Option<Flt>,                  // the first timestamp, in ms
    last: map<string, Value>,         // latest value per key
    flags: seq<Option<bool>>,         // one per FLAG_NAMES entry
    metrics: seq<seq<Flt>>,           // one deque per METRICS entry
    raw: seq<string>)                 // the raw-line deque

  predicate Shaped(f: Feed)
  {
    |f.flags| == |FLAG_NAMES| && |f.metrics| == |METRICS|
  }

  const FRESH: Feed := Feed([], None, map[], [None, None, None, None, None, None, None, None, None, None, None],
                            [[], [], []], [])

  /** The time a line gets: its timestamp against the time base when it has
      one, otherwise the previous time plus the guessed step (0 for the
      first line). */
  function LineTime(ts: seq<real>, t0: Option<Flt>, tsMs: Option<Flt>): real
    requires tsMs.Some? ==> t0.Some?
  {
    if tsMs.Some? then Elapsed(tsMs.value, t0.value)
    else if ts != [] then ts[|ts| - 1] + DT_GUESS
    else 0.0
  }

  /** What `_reader_loop` does with a line once its pairs are scanned. */
  function Step(f: Feed, p: Parsed, line: string, window: nat, rawCap: nat): (r: Feed)
    requires Shaped(f)
  {
    var t0 := if p.tsMs.Some? && f.t0.None? then p.tsMs else f.t0;
    var last := f.last + p.values;
    Feed(Push(f.ts, LineTime(f.ts, t0, p.tsMs), window), t0, last,
         NewFlags(f.flags, last, p.values), AppendAll(f.metrics, METRICS, p.values, window),
         Push(f.raw, line, rawCap))
  }

  /** One line through `_reader_loop`. */
  function Ingest(f: Feed, line: string, parse: string -> Option<Flt>, window: nat, rawCap: nat): (r: Feed)
    requires Shaped(f)
  {
    Step(f, Scan(Pairs(line), parse), line, window, rawCap)
  }

  /** The buffers stay bounded by their maxlen, the metric deques stay in
      step with the time deque, and times are never negative. */
  ghost predicate Inv(f: Feed, window: nat, rawCap: nat)
  {
    Shaped(f)
    && |f.ts| <= window
    && (forall i :: 0 <= i < |f.metrics| ==> |f.metrics[i]| == |f.ts|)
    && (forall i :: 0 <= i < |f.ts| ==> f.ts[i] >= 0.0)
    && |f.raw| <= rawCap
  }

  lemma FreshInv(window: nat, rawCap: nat)
    ensures Inv(FRESH, window, rawCap)
  {
  }

  /** The time a stored line gets is never negative. */
  lemma LineTimeNonNegative(ts: seq<real>, t0: Option<Flt>, tsMs: Option<Flt>)
    requires tsMs.Some? ==> t0.Some?
    requires forall i :: 0 <= i < |ts| ==> ts[i] >= 0.0
    ensures LineTime(ts, t0, tsMs) >= 0.0
  {
    if tsMs.Some? {
      ElapsedMeaning(tsMs.value, t0.value);
    }
  }

  /** The invariant survives pushing one time, one entry per metric and
      one raw line. */
  lemma PushedInv(f: Feed, r: Feed, t: real, values: map<string, Value>, line: string, window: nat, rawCap: nat)
    requires Inv(f, window, rawCap) && t >= 0.0 && |r.flags| == |FLAG_NAMES|
    requires r.ts == Push(f.ts, t, window) && r.raw == Push(f.raw, line, rawCap)
    requires r.metrics == AppendAll(f.metrics, METRICS, values, window)
    ensures Inv(r, window, rawCap)
  {
    PushNonNegative(f.ts, t, window);
    PushBounded(f.ts, t, window);
    PushBounded(f.raw, line, rawCap);
    forall i | 0 <= i < |r.metrics|
      ensures |r.metrics[i]| == |r.ts|
    {
      assert r.metrics[i] == Push(f.metrics[i], SeriesValue(values, METRICS[i]), window);
    }
  }

  /** Storing a scanned line keeps every invariant. */
  lemma StepInv(f: Feed, p: Parsed, line: string, window: nat, rawCap: nat)
    requires Inv(f, window, rawCap)
    ensures Inv(Step(f, p, line, window, rawCap), window, rawCap)
  {
    var r := Step(f, p, line, window, rawCap);
    var t := LineTime(f.ts, r.t0, p.tsMs);
    LineTimeNonNegative(f.ts, r.t0, p.tsMs);
    PushedInv(f, r, t, p.values, line, window, rawCap);
  }

  /** Reading a line keeps every invariant. */
  lemma IngestInv(f: Feed, line: string, parse: string -> Option<Flt>, window: nat, rawCap: nat)
    requires Inv(f, window, rawCap)
    ensures Inv(Ingest(f, line, parse, window, rawCap), window, rawCap)
  {
    StepInv(f, Scan(Pairs(line), parse), line, window, rawCap);
  }

  /** Every line appends exactly one time value, and every metric deque one
      entry, until the window is full. */
  lemma OneTimePerLine(f: Feed, line: string, parse: string -> Option<Flt>, window: nat, rawCap: nat)
    requires Inv(f, window, rawCap)
    ensures var r := Ingest(f, line, parse, window, rawCap);
            |r.ts| == (if |f.ts| < window then |f.ts| + 1 else window)
            && forall i :: 0 <= i < |r.metrics| ==> |r.metrics[i]| == |r.ts|
  {
    IngestInv(f, line, parse, window, rawCap);
  }

  /** A line without a timestamp lands the guessed step after the previous
      sample, or at 0 on an empty plot; the time base is not touched. */
  lemma UnstampedLineSteps(f: Feed, p: Parsed, line: string, window: nat, rawCap: nat)
    requires Shaped(f) && window > 0 && p.tsMs.None?
    ensures var r := Step(f, p, line, window, rawCap);
            r.t0 == f.t0
            && r.ts[|r.ts| - 1] == (if f.ts == [] then 0.0 else f.ts[|f.ts| - 1] + DT_GUESS)
            && (f.ts != [] ==> r.ts[|r.ts| - 1] > f.ts[|f.ts| - 1])
  {
    var t := LineTime(f.ts, f.t0, p.tsMs);
    var r := Step(f, p, line, window, rawCap);
    assert r.ts == Push(f.ts, t, window);
  }

  /** The first timestamp becomes the time base and sits at time 0; later
      ones never move the base, however far back they jump. */
  lemma TimeBaseIsFirstStamp(f: Feed, line: string, parse: string -> Option<Flt>, window: nat, rawCap: nat)
    requires Shaped(f) && window > 0
    requires Scan(Pairs(line), parse).tsMs.Some?
    ensures var r := Ingest(f, line, parse, window, rawCap);
            var x := Scan(Pairs(line), parse).tsMs.value;
            (f.t0.None? ==> r.t0 == Some(x) && r.ts[|r.ts| - 1] == 0.0)
            && (f.t0.Some? ==> r.t0 == f.t0 && r.ts[|r.ts| - 1] == Elapsed(x, f.t0.value))
  {
    var p := Scan(Pairs(line), parse);
    var t0 := if f.t0.None? then p.tsMs else f.t0;
    var r := Step(f, p, line, window, rawCap);
    assert r.t0 == t0;
    assert r.ts == Push(f.ts, Elapsed(p.tsMs.value, t0.value), window);
    ElapsedMeaning(p.tsMs.value, p.tsMs.value);
  }

  /** Once set, the time base never changes and is never cleared. */
  lemma TimeBaseKept(f: Feed, line: string, parse: string -> Option<Flt>, window: nat, rawCap: nat)
    requires Shaped(f) && f.t0.Some?
    ensures Ingest(f, line, parse, window, rawCap).t0 == f.t0
  {
  }

  /** An `evt` pair is an ordinary value here: the line's last `evt` value is
      what the latest-value table holds for it afterwards. */
  lemma EventIsStored(f: Feed, line: string, parse: string -> Option<Flt>, window: nat, rawCap: nat)
    requires Shaped(f)
    requires LastWhere(Pairs(line), k => k == "evt").Some?
    ensures var r := Ingest(f, line, parse, window, rawCap);
            "evt" in r.last
            && r.last["evt"] == Classify("evt", LastWhere(Pairs(line), k => k == "evt").value, parse)
  {
    var p := Scan(Pairs(line), parse);
    ScanLastWins(Pairs(line), parse, "evt");
    assert "evt" in p.values;
    assert Ingest(f, line, parse, window, rawCap).last == f.last + p.values;
  }

  /** Keys the line does not carry keep their latest value. */
  lemma OtherValuesKept(f: Feed, line: string, parse: string -> Option<Flt>, window: nat, rawCap: nat, k: string)
    requires Shaped(f) && !IsTimestampKey(k) && k in f.last
    requires LastWhere(Pairs(line), x => x == k).None?
    ensures Ingest(f, line, parse, window, rawCap).last[k] == f.last[k]
  {
    var p := Scan(Pairs(line), parse);
    ScanLastWins(Pairs(line), parse, k);
    assert k !in p.values;
    assert Ingest(f, line, parse, window, rawCap).last == f.last + p.values;
  }

  // ---------------------------------------------------------------------
  // HBarGauge.

  const UNKNOWN_GREY: string := "#666666"
  const RED: string := "#d62728"
  const ORANGE: string := "#ff7f0e"
  const AMBER: string := "#ffbf00"
  const GREEN: string := "#2ca02c"

  /** The gauge colours from low to high, and the fractions where each
      next one starts. */
  const BANDS: seq<string> := [RED, ORANGE, AMBER, GREEN]
  const THRESHOLDS: seq<real> := [0.2, 0.4, 0.7]

  /** `_color_for_fraction`. */
  function ColorForFraction(frac: Flt): (c: string)
  {
    var x := Clamp(frac, 0.0, 1.0);
    if x < 0.2 then RED
    else if x < 0.4 then ORANGE
    else if x < 0.7 then AMBER
    else GREEN
  }

  /** How many of the thresholds `x` has reached. */
  function Reached(ths: seq<real>, x: real): (n: nat)
    ensures n <= |ths|
  {
    if ths == [] then 0 else (if ths[0] <= x then 1 else 0) + Reached(ths[1..], x)
  }

  /** Reaching thresholds is monotone. */
  lemma {:induction false} ReachedMonotone(ths: seq<real>, a: real, b: real)
    requires a <= b
    ensures Reached(ths, a) <= Reached(ths, b)
    decreases |ths|
  {
    if ths != [] {
      ReachedMonotone(ths[1..], a, b);
    }
  }

  /** The colour is the band of the clamped fraction: one step up per
      threshold reached. An unknown fraction clamps to 1 and shows green. */
  lemma ColorIsBand(frac: Flt)
    ensures ColorForFraction(frac) == BANDS[Reached(THRESHOLDS, Clamp(frac, 0.0, 1.0))]
    ensures frac.NaN? ==> ColorForFraction(frac) == GREEN
  {
    var x := Clamp(frac, 0.0, 1.0);
    var t3: seq<real> := [0.7];
    var t2: seq<real> := [0.4, 0.7];
    assert t3[1..] == [];
    assert Reached(t3, x) == if 0.7 <= x then 1 else 0;
    assert t2[1..] == t3;
    assert Reached(t2, x) == (if 0.4 <= x then 1 else 0) + Reached(t3, x);
    assert THRESHOLDS[1..] == t2;
    assert Reached(THRESHOLDS, x) == (if 0.2 <= x then 1 else 0) + Reached(t2, x);
  }

  /** A higher fraction never shows a lower band. */
  lemma ColorMonotone(a: real, b: real)
    requires a <= b
    ensures Reached(THRESHOLDS, Clamp(Num(a), 0.0, 1.0)) <= Reached(THRESHOLDS, Clamp(Num(b), 0.0, 1.0))
  {
    ClampMonotone(a, b, 0.0, 1.0);
    ReachedMonotone(THRESHOLDS, Clamp(Num(a), 0.0, 1.0), Clamp(Num(b), 0.0, 1.0));
  }

  /** What the foreground bar and the label show. */
  datatype GaugeView = GaugeView(width: real, color: string, text: string)

  /** The filled share of the gauge (0 for an empty range). */
  function GaugeFraction(v: real, vmin: real, vmax: real): real
  {
    if vmax > vmin then (v - vmin) / (vmax - vmin) else 0.0
  }

  /** `HBarGauge.update`. */
  function GaugeUpdate(value: Option<Flt>, vmin: real, vmax: real, unit: string): (g: GaugeView)
  {
    if value.None? || value.value.NaN? then GaugeView(0.0, UNKNOWN_GREY, "--")
    else
      var v := Clamp(value.value, vmin, vmax);
      GaugeView(v - vmin, ColorForFraction(Num(GaugeFraction(v, vmin, vmax))), Fixed(v, 3, 1) + unit)
  }

  /** A fixed-point text always holds its decimal point. */
  lemma FixedHasPoint(x: real, places: nat, intWidth: nat)
    requires places >= 1
    ensures '.' in Fixed(x, places, intWidth)
  {
    var c := RoundHalfEven(Abs(x) * Pow10(places) as real);
    var n: nat := if c < 0 then 0 else c;
    var d := Pow10(places);
    NatDivMod(n, d);
    var head := (if x < 0.0 then "-" else "") + Pad(Digits(n / d), intWidth);
    assert Fixed(x, places, intWidth) == head + "." + Pad(Digits(n % d), places);
    assert Fixed(x, places, intWidth)[|head|] == '.';
  }

  /** An unknown value, and only it, shows the grey empty bar and "--"; a
      known one fills between none and all of the bar, coloured by a band,
      with a label that ends in the unit. */
  lemma GaugeMeaning(value: Option<Flt>, vmin: real, vmax: real, unit: string)
    requires vmin <= vmax
    ensures var g := GaugeUpdate(value, vmin, vmax, unit);
            (value.None? || value.value.NaN? <==> g.text == "--" && g.color == UNKNOWN_GREY)
            && 0.0 <= g.width <= vmax - vmin
            && (value.Some? && value.value.Num? ==> g.color in BANDS && unit <= g.text[|g.text| - |unit|..])
  {
    if value.Some? && value.value.Num? {
      var v := Clamp(value.value, vmin, vmax);
      var color := ColorForFraction(Num(GaugeFraction(v, vmin, vmax)));
      var text := Fixed(v, 3, 1) + unit;
      assert GaugeUpdate(value, vmin, vmax, unit) == GaugeView(v - vmin, color, text);
      ClampMeaning(value.value, vmin, vmax);
      FixedHasPoint(v, 3, 1);
      LabelShape(Fixed(v, 3, 1), unit);
      ColorIsBand(Num(GaugeFraction(v, vmin, vmax)));
    }
  }

  /** A number's label holds its decimal point, so it is never "--", and ends in the unit. */
  lemma LabelShape(digits: string, unit: string)
    requires '.' in digits
    ensures digits + unit != "--"
    ensures unit <= (digits + unit)[|digits + unit| - |unit|..]
  {
    var text := digits + unit;
    assert '.' in text;
    assert '.' !in "--";
    assert text[|text| - |unit|..] == unit;
  }

  /** Dividing by a positive number keeps the order. */
  lemma DivMonotone(x: real, y: real, d: real)
    requires d > 0.0 && x <= y
    ensures x / d <= y / d
  {
    var qx, qy := x / d, y / d;
    assert qx * d == x && qy * d == y;
  }

  /** A share of a positive whole lies in [0, 1]. */
  lemma ShareInUnit(x: real, d: real)
    requires 0.0 <= x <= d && d > 0.0
    ensures 0.0 <= x / d <= 1.0
  {
    var q := x / d;
    assert q * d == x;
  }

  /** The filled share stays within [0, 1]. */
  lemma GaugeFractionBounded(value: Flt, vmin: real, vmax: real)
    requires vmin <= vmax
    ensures 0.0 <= GaugeFraction(Clamp(value, vmin, vmax), vmin, vmax) <= 1.0
  {
    ClampMeaning(value, vmin, vmax);
    var v := Clamp(value, vmin, vmax);
    if vmax > vmin {
      ShareInUnit(v - vmin, vmax - vmin);
    }
  }

  /** A larger value fills at least as much of the bar and never shows a
      lower colour band. */
  lemma GaugeMonotone(a: real, b: real, vmin: real, vmax: real, unit: string)
    requires a <= b && vmin <= vmax
    ensures GaugeUpdate(Some(Num(a)), vmin, vmax, unit).width <= GaugeUpdate(Some(Num(b)), vmin, vmax, unit).width
    ensures var fa := GaugeFraction(Clamp(Num(a), vmin, vmax), vmin, vmax);
            var fb := GaugeFraction(Clamp(Num(b), vmin, vmax), vmin, vmax);
            Reached(THRESHOLDS, Clamp(Num(fa), 0.0, 1.0)) <= Reached(THRESHOLDS, Clamp(Num(fb), 0.0, 1.0))
  {
    ClampMonotone(a, b, vmin, vmax);
    var va := Clamp(Num(a), vmin, vmax);
    var vb := Clamp(Num(b), vmin, vmax);
    var fa := GaugeFraction(va, vmin, vmax);
    var fb := GaugeFraction(vb, vmin, vmax);
    if vmax > vmin {
      DivMonotone(va - vmin, vb - vmin, vmax - vmin);
    }
    ColorMonotone(fa, fb);
  }

  // ---------------------------------------------------------------------
  // The text cache.

  /** The text each artist was last drawn with, from the log of draws. */
  function LastDrawn(drawn: seq<(nat, string)>, artist: nat): Option<string>
  {
    if drawn == [] then None
    else if drawn[|drawn| - 1].0 == artist then Some(drawn[|drawn| - 1].1)
    else LastDrawn(drawn[..|drawn| - 1], artist)
  }

  /** The cache holds exactly the text each artist shows. */
  ghost predicate CacheAgrees(cache: map<nat, string>, drawn: seq<(nat, string)>)
  {
    forall a: nat :: LastDrawn(drawn, a) == (if a in cache then Some(cache[a]) else None)
  }

  datatype Labels = Labels(cache: map<nat, string>, drawn: seq<(nat, string)>)

  /** `_set_text`: draw and remember the text only when it differs from the
      cached one. */
  function SetTextSpec(l: Labels, artist: nat, s: string): (r: Labels)
  {
    if artist in l.cache && l.cache[artist] == s then l
    else Labels(l.cache[artist := s], l.drawn + [(artist, s)])
  }

  /** Setting a text keeps the cache equal to what is on screen, and the
      artist then shows the text. */
  lemma SetTextAgrees(l: Labels, artist: nat, s: string)
    requires CacheAgrees(l.cache, l.drawn)
    ensures CacheAgrees(SetTextSpec(l, artist, s).cache, SetTextSpec(l, artist, s).drawn)
    ensures LastDrawn(SetTextSpec(l, artist, s).drawn, artist) == Some(s)
  {
    var r := SetTextSpec(l, artist, s);
    if !(artist in l.cache && l.cache[artist] == s) {
      forall a: nat
        ensures LastDrawn(r.drawn, a) == (if a in r.cache then Some(r.cache[a]) else None)
      {
        assert r.drawn[..|r.drawn| - 1] == l.drawn;
      }
    }
  }

  /** Setting the same text twice draws once: the second call changes
      nothing. */
  lemma SetTextIdempotent(l: Labels, artist: nat, s: string)
    ensures SetTextSpec(SetTextSpec(l, artist, s), artist, s) == SetTextSpec(l, artist, s)
    ensures |SetTextSpec(l, artist, s).drawn| <= |l.drawn| + 1
  {
  }

  /** A text that is already shown is not drawn again. */
  lemma UnchangedTextNotDrawn(l: Labels, artist: nat, s: string)
    requires CacheAgrees(l.cache, l.drawn)
    requires LastDrawn(l.drawn, artist) == Some(s)
    ensures SetTextSpec(l, artist, s) == l
  {
  }

  // ---------------------------------------------------------------------
  // The visualizer object.

  class FlightVisualizer {
    const window: nat
    const rawCap: nat
    var ts: seq<real>
    var t0: Option<Flt>
    var last: map<string, Value>
    var flags: seq<Option<bool>>
    var metricData: seq<seq<Flt>>
    var rawLines: seq<string>
    var textCache: map<nat, string>
    ghost var drawn: seq<(nat, string)>

    function Snapshot(): Feed
      reads this
    {
      Feed(ts, t0, last, flags, metricData, rawLines)
    }

    ghost predicate Valid()
      reads this
    {
      Inv(Snapshot(), window, rawCap) && CacheAgrees(textCache, drawn)
    }

    constructor(window: nat, rawCap: nat)
      ensures this.window == window && this.rawCap == rawCap
      ensures Snapshot() == FRESH && textCache == map[] && drawn == []
      ensures Valid()
    {
      this.window := window;
      this.rawCap := rawCap;
      ts := [];
      t0 := None;
      last := map[];
      flags := [None, None, None, None, None, None, None, None, None, None, None];
      metricData := [[], [], []];
      rawLines := [];
      textCache := map[];
      drawn := [];
      FreshInv(window, rawCap);
    }

    /** The tokenising loop of `_reader_loop`. */
    static method ScanPairs(kvs: seq<(string, string)>, parse: string -> Option<Flt>)
      returns (tsMs: Option<Flt>, values: map<string, Value>)
      ensures Scan(kvs, parse) == Parsed(tsMs, values)
    {
      tsMs := None;
      values := map[];
      var i := 0;
      while i < |kvs|
        invariant 0 <= i <= |kvs|
        invariant Scan(kvs[..i], parse) == Parsed(tsMs, values)
      {
        var k := kvs[i].0;
        var v := kvs[i].1;
        if IsTimestampKey(k) {
          tsMs := parse(v);
        } else if k == FC_STATE_STR {
          values := values[k := Text(v)];
        } else {
          match parse(v)
          case Some(x) => values := values[k := Number(x)];
          case None => values := values[k := Text(v)];
        }
        assert kvs[..i + 1][..i] == kvs[..i];
        i := i + 1;
      }
      assert kvs[..i] == kvs;
    }

    /** The per-line body of `_reader_loop`. */
    method ReadLine(line: string, parse: string -> Option<Flt>)
      requires Valid()
      modifies this
      ensures Snapshot() == Ingest(old(Snapshot()), line, parse, window, rawCap)
      ensures textCache == old(textCache) && drawn == old(drawn)
      ensures Valid()
    {
      IngestInv(Snapshot(), line, parse, window, rawCap);
      var tsMs, values := ScanPairs(Pairs(line), parse);
      Store(line, tsMs, values);
    }

    /** The locked part of `_reader_loop`: raw line, time, latest values,
        flags and metrics. */
    method Store(line: string, tsMs: Option<Flt>, values: map<string, Value>)
      requires Shaped(Snapshot())
      modifies this
      ensures Snapshot() == Step(old(Snapshot()), Parsed(tsMs, values), line, window, rawCap)
      ensures textCache == old(textCache) && drawn == old(drawn)
    {
      var r := NextFeed(Snapshot(), tsMs, values, line, window, rawCap);
      rawLines, t0, ts, last, flags, metricData := r.raw, r.t0, r.ts, r.last, r.flags, r.metrics;
    }

    /** The buffers after one line, computed step by step as the loop body does. */
    static method NextFeed(f: Feed, tsMs: Option<Flt>, values: map<string, Value>, line: string, window: nat, rawCap: nat)
      returns (r: Feed)
      requires Shaped(f)
      ensures r == Step(f, Parsed(tsMs, values), line, window, rawCap)
    {
      var base := if tsMs.Some? && f.t0.None? then tsMs else f.t0;
      var t: real;
      if tsMs.Some? {
        t := Elapsed(tsMs.value, base.value);
      } else if f.ts != [] {
        t := f.ts[|f.ts| - 1] + DT_GUESS;
      } else {
        t := 0.0;
      }
      assert t == LineTime(f.ts, base, tsMs);
      var newLast := f.last + values;
      var newFlags := ApplyFlags(f.flags, newLast, values);
      var newMetrics := AppendSeries(f.metrics, METRICS, values, window);
      r := Feed(Push(f.ts, t, window), base, newLast, newFlags, newMetrics, Push(f.raw, line, rawCap));
    }

    /** `_set_text` on the artist numbered `artist`. */
    method SetText(artist: nat, s: string)
      requires Valid()
      modifies this
      ensures Labels(textCache, drawn) == SetTextSpec(Labels(old(textCache), old(drawn)), artist, s)
      ensures Snapshot() == old(Snapshot())
      ensures Valid()
    {
      SetTextAgrees(Labels(textCache, drawn), artist, s);
      if artist !in textCache || textCache[artist] != s {
        drawn := drawn + [(artist, s)];
        textCache := textCache[artist := s];
      }
    }
  }
}
