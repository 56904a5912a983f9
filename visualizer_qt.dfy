/*
 * The Qt flight dashboard's data side: how one serial line updates the
 * sample buffers (time axis, plotted series, component overlays, latest
 * values, flags, raw-line buffer), when the buffers are cleared (a reset
 * event from the device, or a timestamp that jumps back by more than a
 * second), and the event markers drawn on the plots at rising flag edges.
 *
 * Widgets, plot items and the serial port are left out: a plot's marker
 * list holds (event, x) pairs, and every plot is taken to exist.
 */
module VisualizerQt {
  import opened Common
  import opened GroundLine

  // ---------------------------------------------------------------------
  // Line scan with device events.

  const EVT: string := "evt"
  const SOFT_RESET: string := "soft_reset"
  const HARD_RESET: string := "hard_reset"

  /** Component series drawn as overlays. */
  const COMPONENTS: seq<string> := ["agl_bmp1_m", "agl_imu1_m", "vz_mps", "vz_baro_mps", "vz_acc_mps"]

  /** A timestamp this far (ms) behind the previous one means the device restarted. */
  const BACKWARD_MS: real := 1000.0

  predicate IsResetEvent(v: string)
  {
    Lower(v) == SOFT_RESET || Lower(v) == HARD_RESET
  }

  /** The scan of a line plus whether it carried a reset event. */
  datatype QtParsed = QtParsed(p: Parsed, reset: bool)

  /** `evt` pairs never reach the values; the others are scanned as usual. */
  function ScanEvt(kvs: seq<(string, string)>, parse: string -> Option<Flt>): QtParsed
  {
    if kvs == [] then QtParsed(NOTHING_PARSED, false)
    else
      var q := ScanEvt(kvs[..|kvs| - 1], parse);
      var kv := kvs[|kvs| - 1];
      if kv.0 == EVT then q.(reset := q.reset || IsResetEvent(kv.1))
      else q.(p := Absorb(q.p, kv, parse))
  }

  /** The pairs that are not events. */
  function NonEvents(kvs: seq<(string, string)>): (r: seq<(string, string)>)
    ensures forall k :: 0 <= k < |r| ==> r[k].0 != EVT
  {
    if kvs == [] then []
    else
      var rest := NonEvents(kvs[..|kvs| - 1]);
      if kvs[|kvs| - 1].0 == EVT then rest else rest + [kvs[|kvs| - 1]]
  }

  /** The event-aware scan is the plain scan of the non-event pairs, and it
      reports a reset exactly when some `evt` pair names soft_reset or
      hard_reset in any letter case. */
  lemma {:induction false} ScanEvtMeaning(kvs: seq<(string, string)>, parse: string -> Option<Flt>)
    ensures ScanEvt(kvs, parse).p == Scan(NonEvents(kvs), parse)
    ensures ScanEvt(kvs, parse).reset <==>
              exists k :: 0 <= k < |kvs| && kvs[k].0 == EVT && IsResetEvent(kvs[k].1)
    decreases |kvs|
  {
    if kvs != [] {
      var init := kvs[..|kvs| - 1];
      ScanEvtMeaning(init, parse);
      var rest := NonEvents(init);
      if kvs[|kvs| - 1].0 != EVT {
        assert (rest + [kvs[|kvs| - 1]])[..|rest|] == rest;
      }
      if exists k :: 0 <= k < |init| && init[k].0 == EVT && IsResetEvent(init[k].1) {
        var k :| 0 <= k < |init| && init[k].0 == EVT && IsResetEvent(init[k].1);
        assert kvs[k] == init[k];
      }
      if exists k :: 0 <= k < |kvs| && kvs[k].0 == EVT && IsResetEvent(kvs[k].1) {
        var k :| 0 <= k < |kvs| && kvs[k].0 == EVT && IsResetEvent(kvs[k].1);
        if k < |init| { assert init[k] == kvs[k]; }
      }
    }
  }

  /** `evt` is never stored as a value. */
  lemma {:induction false} EvtNeverStored(kvs: seq<(string, string)>, parse: string -> Option<Flt>)
    ensures EVT !in ScanEvt(kvs, parse).p.values
    decreases |kvs|
  {
    if kvs != [] {
      EvtNeverStored(kvs[..|kvs| - 1], parse);
    }
  }

  // ---------------------------------------------------------------------
  // Event markers.

  datatype Marker = Marker(ev: string, x: real)

  /** The flag events that get markers, and each one's index in FLAG_NAMES. */
  const EVENTS: seq<string> := ["liftoff_det", "burnout_det", "tilt_latch", "baro_agree"]
  const EVENT_FLAG: seq<nat> := [7, 8, 6, 3]

  /** Plot indices (into METRICS) an event is drawn on. */
  function Targets(ev: string): (r: seq<nat>)
    ensures 1 <= |r| <= 2 && forall k :: 0 <= k < |r| ==> r[k] < 3
  {
    if ev == "liftoff_det" then [0, 1]
    else if ev == "burnout_det" || ev == "tilt_latch" then [1, 2]
    else [0]
  }

  /** How many markers of one event a plot keeps. */
  function Limit(ev: string): (r: nat)
    ensures r >= 2
  {
    if ev == "liftoff_det" || ev == "burnout_det" || ev == "tilt_latch" then 2
    else if ev == "baro_agree" then 1000
    else 10
  }

  function CountOf(l: seq<Marker>, ev: string): nat
  {
    if l == [] then 0
    else CountOf(l[..|l| - 1], ev) + (if l[|l| - 1].ev == ev then 1 else 0)
  }

  lemma {:induction false} CountOfAppend(l: seq<Marker>, r: seq<Marker>, ev: string)
    ensures CountOf(l + r, ev) == CountOf(l, ev) + CountOf(r, ev)
    decreases |r|
  {
    if r != [] {
      assert (l + r)[..|l + r| - 1] == l + r[..|r| - 1];
      assert (l + r)[|l + r| - 1] == r[|r| - 1];
      CountOfAppend(l, r[..|r| - 1], ev);
    } else {
      assert l + r == l;
    }
  }

  /** Index of the first marker of `ev`. */
  function FirstOf(l: seq<Marker>, ev: string): (i: nat)
    requires CountOf(l, ev) > 0
    ensures i < |l| && l[i].ev == ev
    ensures forall k :: 0 <= k < i ==> l[k].ev != ev
  {
    if l[0].ev == ev then 0
    else
      assert l == [l[0]] + l[1..];
      CountOfAppend([l[0]], l[1..], ev);
      assert CountOf([l[0]], ev) == 0 by { assert [l[0]][..0] == []; }
      1 + FirstOf(l[1..], ev)
  }

  /** Drops the oldest marker of `ev`. */
  function RemoveOldest(l: seq<Marker>, ev: string): (r: seq<Marker>)
    requires CountOf(l, ev) > 0
  {
    var i := FirstOf(l, ev);
    l[..i] + l[i + 1..]
  }

  lemma RemoveOldestCounts(l: seq<Marker>, ev: string, e: string)
    requires CountOf(l, ev) > 0
    ensures CountOf(RemoveOldest(l, ev), e) == CountOf(l, e) - (if e == ev then 1 else 0)
  {
    var i := FirstOf(l, ev);
    assert l == l[..i] + [l[i]] + l[i + 1..];
    CountOfAppend(l[..i] + [l[i]], l[i + 1..], e);
    CountOfAppend(l[..i], [l[i]], e);
    CountOfAppend(l[..i], l[i + 1..], e);
    assert [l[i]][..0] == [];
  }

  /** Appends a marker and, when its event then has more than its limit,
      evicts that event's oldest marker. */
  function Retain(l: seq<Marker>, m: Marker): (r: seq<Marker>)
  {
    var l1 := l + [m];
    CountOfAppend(l, [m], m.ev);
    assert [m][..0] == [];
    if CountOf(l1, m.ev) > Limit(m.ev) then RemoveOldest(l1, m.ev) else l1
  }

  /** Retention: the new marker's event stays within its limit, every other
      event's count is unchanged, the new marker is kept, and markers of
      other events are never evicted. */
  lemma RetainMeaning(l: seq<Marker>, m: Marker, e: string)
    requires CountOf(l, m.ev) <= Limit(m.ev)
    ensures CountOf(Retain(l, m), m.ev) <= Limit(m.ev)
    ensures CountOf(Retain(l, m), m.ev) == CountOf(l, m.ev) + 1 || CountOf(Retain(l, m), m.ev) == Limit(m.ev)
    ensures e != m.ev ==> CountOf(Retain(l, m), e) == CountOf(l, e)
    ensures m in Retain(l, m)
    ensures forall n :: n in l && n.ev != m.ev ==> n in Retain(l, m)
  {
    var l1 := l + [m];
    CountOfAppend(l, [m], m.ev);
    CountOfAppend(l, [m], e);
    assert [m][..0] == [];
    if CountOf(l1, m.ev) > Limit(m.ev) {
      RemoveOldestCounts(l1, m.ev, m.ev);
      RemoveOldestCounts(l1, m.ev, e);
      var i := FirstOf(l1, m.ev);
      assert i < |l1| - 1 by {
        if i == |l1| - 1 {
          CountOfAppend(l, [m], m.ev);
          assert CountOf(l, m.ev) > 0;
          NoneBefore(l, m.ev);
        }
      }
      assert Retain(l, m)[|Retain(l, m)| - 1] == m;
      forall n | n in l && n.ev != m.ev
        ensures n in Retain(l, m)
      {
        var k :| 0 <= k < |l| && l[k] == n;
        if k < i { assert Retain(l, m)[k] == n; }
        else { assert k != i; assert Retain(l, m)[k - 1] == n; }
      }
    }
  }

  /** A list with markers of `ev` has one before its end when that end is not one. */
  lemma NoneBefore(l: seq<Marker>, ev: string)
    requires CountOf(l, ev) > 0
    ensures FirstOf(l + [Marker(ev, 0.0)], ev) < |l|
  {
    var i := FirstOf(l, ev);
    var l1 := l + [Marker(ev, 0.0)];
    CountOfAppend(l, [Marker(ev, 0.0)], ev);
    assert l1[i].ev == ev;
  }

  /** `_add_marker`: the marker goes on every target plot, with retention. */
  function WithMarker(mk: seq<seq<Marker>>, ev: string, x: real): (r: seq<seq<Marker>>)
    requires |mk| == 3
    ensures |r| == 3
  {
    RetainedOn(mk, Targets(ev), Marker(ev, x))
  }

  /** The marker lists once `m` has been retained on the plots in `done`. */
  function RetainedOn(mk: seq<seq<Marker>>, done: seq<nat>, m: Marker): (r: seq<seq<Marker>>)
    requires |mk| == 3
    ensures |r| == 3
  {
    seq(3, p requires 0 <= p < 3 => if p in done then Retain(mk[p], m) else mk[p])
  }

  /** Retaining on one more plot changes only that plot. */
  lemma RetainedOnStep(mk: seq<seq<Marker>>, done: seq<nat>, p: nat, m: Marker)
    requires |mk| == 3 && p < 3 && p !in done
    ensures RetainedOn(mk, done + [p], m) == RetainedOn(mk, done, m)[p := Retain(mk[p], m)]
  {
  }

  predicate Rising(prev: Option<bool>, cur: Option<bool>)
  {
    prev == Some(false) && cur == Some(true)
  }

  /** The marker lists after the first `n` events have been edge-checked. */
  function MarkersFor(mk: seq<seq<Marker>>, prev: seq<Option<bool>>, flags: seq<Option<bool>>, x: real, n: nat)
    : (r: seq<seq<Marker>>)
    requires |mk| == 3 && |prev| == 4 && |flags| == |FLAG_NAMES| && n <= 4
    ensures |r| == 3
  {
    if n == 0 then mk
    else
      var mk1 := MarkersFor(mk, prev, flags, x, n - 1);
      if Rising(prev[n - 1], flags[EVENT_FLAG[n - 1]]) then WithMarker(mk1, EVENTS[n - 1], x) else mk1
  }

  /** Every plot keeps at most Limit(e) markers of each event e. */
  ghost predicate MarkersBounded(mk: seq<seq<Marker>>)
  {
    forall p, e :: 0 <= p < |mk| ==> CountOf(mk[p], e) <= Limit(e)
  }

  lemma WithMarkerBounded(mk: seq<seq<Marker>>, ev: string, x: real)
    requires |mk| == 3 && MarkersBounded(mk)
    ensures MarkersBounded(WithMarker(mk, ev, x))
  {
    var r := WithMarker(mk, ev, x);
    forall p, e | 0 <= p < 3
      ensures CountOf(r[p], e) <= Limit(e)
    {
      if p in Targets(ev) {
        RetainMeaning(mk[p], Marker(ev, x), e);
      }
    }
  }

  lemma {:induction false} MarkersForBounded(mk: seq<seq<Marker>>, prev: seq<Option<bool>>, flags: seq<Option<bool>>, x: real, n: nat)
    requires |mk| == 3 && |prev| == 4 && |flags| == |FLAG_NAMES| && n <= 4
    requires MarkersBounded(mk)
    ensures MarkersBounded(MarkersFor(mk, prev, flags, x, n))
  {
    if n > 0 {
      MarkersForBounded(mk, prev, flags, x, n - 1);
      WithMarkerBounded(MarkersFor(mk, prev, flags, x, n - 1), EVENTS[n - 1], x);
    }
  }

  /** Without a rising edge no marker is added or removed. */
  lemma {:induction false} NoEdgeNoMarker(mk: seq<seq<Marker>>, prev: seq<Option<bool>>, flags: seq<Option<bool>>, x: real, n: nat)
    requires |mk| == 3 && |prev| == 4 && |flags| == |FLAG_NAMES| && n <= 4
    requires forall e :: 0 <= e < n ==> !Rising(prev[e], flags[EVENT_FLAG[e]])
    ensures MarkersFor(mk, prev, flags, x, n) == mk
  {
    if n > 0 {
      NoEdgeNoMarker(mk, prev, flags, x, n - 1);
    }
  }

  /** A rising edge of event e puts a marker at x on each of its plots, and
      the later events of the same pass do not evict it. */
  lemma {:induction false} EdgeLeavesMarker(mk: seq<seq<Marker>>, prev: seq<Option<bool>>, flags: seq<Option<bool>>,
                                            x: real, n: nat, e: nat, p: nat)
    requires |mk| == 3 && |prev| == 4 && |flags| == |FLAG_NAMES| && e < n <= 4
    requires MarkersBounded(mk)
    requires Rising(prev[e], flags[EVENT_FLAG[e]]) && p in Targets(EVENTS[e])
    ensures Marker(EVENTS[e], x) in MarkersFor(mk, prev, flags, x, n)[p]
  {
    var m := Marker(EVENTS[e], x);
    var mk1 := MarkersFor(mk, prev, flags, x, n - 1);
    MarkersForBounded(mk, prev, flags, x, n - 1);
    if e == n - 1 {
      RetainMeaning(mk1[p], m, m.ev);
    } else {
      EdgeLeavesMarker(mk, prev, flags, x, n - 1, e, p);
      if Rising(prev[n - 1], flags[EVENT_FLAG[n - 1]]) && p in Targets(EVENTS[n - 1]) {
        assert EVENTS[n - 1] != EVENTS[e];
        RetainMeaning(mk1[p], Marker(EVENTS[n - 1], x), m.ev);
      }
    }
  }

  // ---------------------------------------------------------------------
  // The dashboard buffers.

  datatype Buffers = Buffers(
    ts: seq<real>,                 // seconds since the time base, one per telemetry line
    t0: Option<Flt>,               // time base (ms), None until the first timestamp
    lastAbs: Option<Flt>,          // previous timestamp (ms), for restart detection
    last: map<string, Value>,      // latest value per key
    flags: seq<Option<bool>>,      // per FLAG_NAMES
    metrics: seq<seq<Flt>>,        // per METRICS
    comps: seq<seq<Flt>>,          // per COMPONENTS
    raw: seq<string>,              // raw lines
    prevFlags: seq<Option<bool>>,  // per EVENTS, for edge detection
    markers: seq<seq<Marker>>)     // per METRICS plot

  predicate Shaped(b: Buffers)
  {
    |b.flags| == |FLAG_NAMES| && |b.metrics| == |METRICS| && |b.comps| == |COMPONENTS|
    && |b.prevFlags| == |EVENTS| && |b.markers| == |METRICS|
  }

  const NO_FLAGS: seq<Option<bool>> := [None, None, None, None, None, None, None, None, None, None, None]
  const NO_EDGES: seq<Option<bool>> := [None, None, None, None]
  const NO_METRICS: seq<seq<Flt>> := [[], [], []]
  const NO_COMPS: seq<seq<Flt>> := [[], [], [], [], []]
  const NO_MARKERS: seq<seq<Marker>> := [[], [], []]

  const INITIAL: Buffers :=
    Buffers([], None, None, map[], NO_FLAGS, NO_METRICS, NO_COMPS, [], NO_EDGES, NO_MARKERS)

  /** `_clear_data`: time base, series, latest values, flags, markers and the
      raw-line buffer are emptied; only the edge-detection memory is kept. */
  function Clear(b: Buffers): (r: Buffers)
    ensures Shaped(b) ==> Shaped(r)
    ensures r.t0.None? && r.lastAbs.None? && r.ts == [] && r.raw == [] && r.last == map[]
    ensures forall i :: 0 <= i < |r.metrics| ==> r.metrics[i] == []
    ensures forall i :: 0 <= i < |r.comps| ==> r.comps[i] == []
    ensures forall i :: 0 <= i < |r.flags| ==> r.flags[i].None?
    ensures forall p :: 0 <= p < |r.markers| ==> r.markers[p] == []
    ensures r.prevFlags == b.prevFlags
  {
    b.(ts := [], t0 := None, lastAbs := None, last := map[], flags := NO_FLAGS,
       metrics := NO_METRICS, comps := NO_COMPS, raw := [], markers := NO_MARKERS)
  }

  predicate BackJump(ts: Flt, prev: Flt)
  {
    ts.Num? && prev.Num? && ts.v + BACKWARD_MS < prev.v
  }

  /** The telemetry part of a line with timestamp `tsMs`. */
  function Telemetry(b: Buffers, tsMs: Flt, values: map<string, Value>, window: nat): (r: Buffers)
    requires Shaped(b)
  {
    Append(Restarted(b, tsMs), tsMs, values, window)
  }

  /** A device restart (timestamp far behind the previous one) clears the buffers. */
  function Restarted(b: Buffers, tsMs: Flt): (r: Buffers)
    ensures b.lastAbs.Some? && BackJump(tsMs, b.lastAbs.value) ==>
              r.t0.None? && r.ts == [] && r.raw == [] && r.last == map[] && r.prevFlags == b.prevFlags
    ensures b.lastAbs.None? || !BackJump(tsMs, b.lastAbs.value) ==> r == b
  {
    if b.lastAbs.Some? && BackJump(tsMs, b.lastAbs.value) then Clear(b) else b
  }

  /** One telemetry sample: time base, latest values, flags and one entry per series. */
  function Append(b1: Buffers, tsMs: Flt, values: map<string, Value>, window: nat): (r: Buffers)
    requires Shaped(b1)
  {
    var base := if b1.t0.Some? then b1.t0.value else tsMs;
    var last := b1.last + values;
    b1.(lastAbs := Some(tsMs), t0 := Some(base), ts := Push(b1.ts, Elapsed(tsMs, base), window),
        last := last, flags := NewFlags(b1.flags, last, values),
        metrics := AppendAll(b1.metrics, METRICS, values, window),
        comps := AppendAll(b1.comps, COMPONENTS, values, window))
  }

  /** `_handle_line`: every line, whatever else it does, ends as the newest
      raw line; a reset event drops every older raw line and all markers;
      the edge-detection memory is left to `_update_event_markers`. */
  function Handle(b: Buffers, line: string, parse: string -> Option<Flt>, window: nat, rawCap: nat): (r: Buffers)
    requires Shaped(b)
    ensures Shaped(r)
    ensures rawCap > 0 ==> 0 < |r.raw| && r.raw[|r.raw| - 1] == line
    ensures r.prevFlags == b.prevFlags
    ensures ScanEvt(Pairs(line), parse).reset ==> r.markers == NO_MARKERS && r.raw == Push([], line, rawCap)
  {
    IngestKeeps(b, line, parse, window);
    var b2 := Ingest(b, line, parse, window);
    b2.(raw := Push(b2.raw, line, rawCap))
  }

  /** `_handle_line` up to keeping the raw line: the reset events, then the sample. */
  function Ingest(b: Buffers, line: string, parse: string -> Option<Flt>, window: nat): (r: Buffers)
    requires Shaped(b)
  {
    var q := ScanEvt(Pairs(line), parse);
    var b1 := if q.reset then Clear(b) else b;
    if q.p.tsMs.Some? then Telemetry(b1, q.p.tsMs.value, q.p.values, window) else b1
  }

  /** The reset events and the sample of a line keep the shape and the edge
      memory; after a reset event no marker and no older raw line is left. */
  lemma IngestKeeps(b: Buffers, line: string, parse: string -> Option<Flt>, window: nat)
    requires Shaped(b)
    ensures var r := Ingest(b, line, parse, window);
            Shaped(r) && r.prevFlags == b.prevFlags
            && (ScanEvt(Pairs(line), parse).reset ==> r.markers == NO_MARKERS && r.raw == [])
  {
    var q := ScanEvt(Pairs(line), parse);
    var b1 := if q.reset then Clear(b) else b;
    if q.p.tsMs.Some? {
      var b2 := Restarted(b1, q.p.tsMs.value);
      assert Shaped(b2);
      assert q.reset ==> b2 == b1;
    }
  }

  /** `_update_event_markers` on snapshots of the time axis and flags. */
  function EdgeMarkers(b: Buffers, ts: seq<real>, flags: seq<Option<bool>>): (r: Buffers)
    requires Shaped(b) && |flags| == |FLAG_NAMES|
  {
    if ts == [] then b
    else
      b.(markers := MarkersFor(b.markers, b.prevFlags, flags, ts[|ts| - 1], 4),
         prevFlags := seq(4, e requires 0 <= e < 4 => flags[EVENT_FLAG[e]]))
  }

  /** What every reachable state satisfies: the shape, the time axis and all
      series aligned and within the window, non-negative times, the raw
      buffer within its bound, the state name stored as text and the marker
      limits respected. */
  ghost predicate Inv(b: Buffers, window: nat, rawCap: nat)
  {
    Shaped(b)
    && |b.ts| <= window
    && (forall i :: 0 <= i < |b.metrics| ==> |b.metrics[i]| == |b.ts|)
    && (forall i :: 0 <= i < |b.comps| ==> |b.comps[i]| == |b.ts|)
    && (forall i :: 0 <= i < |b.ts| ==> b.ts[i] >= 0.0)
    && |b.raw| <= rawCap
    && (FC_STATE_STR in b.last ==> b.last[FC_STATE_STR].Text?)
    && MarkersBounded(b.markers)
  }

  lemma InitialInv(window: nat, rawCap: nat)
    ensures Inv(INITIAL, window, rawCap)
  {
  }

  lemma ClearInv(b: Buffers, window: nat, rawCap: nat)
    requires Inv(b, window, rawCap)
    ensures Inv(Clear(b), window, rawCap)
    ensures Clear(Clear(b)) == Clear(b)
  {
  }

  /** The scan stores the state name as text. */
  lemma {:induction false} ScanStateIsText(kvs: seq<(string, string)>, parse: string -> Option<Flt>)
    ensures FC_STATE_STR in Scan(kvs, parse).values ==> Scan(kvs, parse).values[FC_STATE_STR].Text?
    decreases |kvs|
  {
    if kvs != [] {
      ScanStateIsText(kvs[..|kvs| - 1], parse);
    }
  }

  lemma AppendInv(b: Buffers, tsMs: Flt, values: map<string, Value>, window: nat, rawCap: nat)
    requires Inv(b, window, rawCap)
    requires FC_STATE_STR in values ==> values[FC_STATE_STR].Text?
    ensures Inv(Append(b, tsMs, values, window), window, rawCap)
  {
    var base := if b.t0.Some? then b.t0.value else tsMs;
    var r := Append(b, tsMs, values, window);
    ElapsedMeaning(tsMs, base);
    PushNonNegative(b.ts, Elapsed(tsMs, base), window);
    assert |r.ts| <= window;
    assert forall i :: 0 <= i < |r.metrics| ==> |r.metrics[i]| == |r.ts|;
    assert forall i :: 0 <= i < |r.comps| ==> |r.comps[i]| == |r.ts|;
    assert r.markers == b.markers;
  }

  lemma TelemetryInv(b: Buffers, tsMs: Flt, values: map<string, Value>, window: nat, rawCap: nat)
    requires Inv(b, window, rawCap)
    requires FC_STATE_STR in values ==> values[FC_STATE_STR].Text?
    ensures Inv(Telemetry(b, tsMs, values, window), window, rawCap)
  {
    ClearInv(b, window, rawCap);
    AppendInv(Restarted(b, tsMs), tsMs, values, window, rawCap);
  }

  /** Handling a line keeps every invariant. */
  lemma HandleInv(b: Buffers, line: string, parse: string -> Option<Flt>, window: nat, rawCap: nat)
    requires Inv(b, window, rawCap)
    ensures Inv(Handle(b, line, parse, window, rawCap), window, rawCap)
  {
    var b2 := Ingest(b, line, parse, window);
    IngestInv(b, line, parse, window, rawCap);
    PushBounded(b2.raw, line, rawCap);
  }

  /** The reset events and the sample of a line keep every invariant. */
  lemma IngestInv(b: Buffers, line: string, parse: string -> Option<Flt>, window: nat, rawCap: nat)
    requires Inv(b, window, rawCap)
    ensures Inv(Ingest(b, line, parse, window), window, rawCap)
  {
    var q := ScanEvt(Pairs(line), parse);
    ScanEvtMeaning(Pairs(line), parse);
    ScanStateIsText(NonEvents(Pairs(line)), parse);
    ClearInv(b, window, rawCap);
    var b1 := if q.reset then Clear(b) else b;
    if q.p.tsMs.Some? {
      TelemetryInv(b1, q.p.tsMs.value, q.p.values, window, rawCap);
    }
  }

  /** Edge detection keeps every invariant. */
  lemma EdgeMarkersInv(b: Buffers, ts: seq<real>, flags: seq<Option<bool>>, window: nat, rawCap: nat)
    requires Inv(b, window, rawCap) && |flags| == |FLAG_NAMES|
    ensures Inv(EdgeMarkers(b, ts, flags), window, rawCap)
  {
    if ts != [] {
      MarkersForBounded(b.markers, b.prevFlags, flags, ts[|ts| - 1], 4);
    }
  }

  /** A line without a timestamp or reset event only reaches the raw buffer. */
  lemma LogLineOnlyRaw(b: Buffers, line: string, parse: string -> Option<Flt>, window: nat, rawCap: nat)
    requires Shaped(b)
    requires ScanEvt(Pairs(line), parse).p.tsMs.None? && !ScanEvt(Pairs(line), parse).reset
    ensures Handle(b, line, parse, window, rawCap) == b.(raw := Push(b.raw, line, rawCap))
  {
  }

  /** A reset event clears the buffers even when the line is no telemetry:
      the line itself is then the only raw line. */
  lemma ResetEventClears(b: Buffers, line: string, parse: string -> Option<Flt>, window: nat, rawCap: nat)
    requires Shaped(b)
    requires ScanEvt(Pairs(line), parse).p.tsMs.None? && ScanEvt(Pairs(line), parse).reset
    ensures Handle(b, line, parse, window, rawCap) == Clear(b).(raw := Push([], line, rawCap))
    ensures rawCap > 0 ==> Handle(b, line, parse, window, rawCap).raw == [line]
  {
  }

  /** A telemetry line appends exactly one entry to the time axis and to every
      series (NaN where the line has no number), and the newest time is the
      elapsed time since the base. */
  lemma OneSamplePerLine(b: Buffers, tsMs: Flt, values: map<string, Value>, window: nat, rawCap: nat, i: nat)
    requires Inv(b, window, rawCap) && window > 0
    ensures var r := Append(b, tsMs, values, window);
            |r.ts| == (if |b.ts| < window then |b.ts| + 1 else window)
            && r.ts[|r.ts| - 1] == Elapsed(tsMs, if b.t0.Some? then b.t0.value else tsMs)
            && (i < |METRICS| ==> r.metrics[i][|r.metrics[i]| - 1] == SeriesValue(values, METRICS[i])
                                  && |r.metrics[i]| == |r.ts|)
            && (i < |COMPONENTS| ==> r.comps[i][|r.comps[i]| - 1] == SeriesValue(values, COMPONENTS[i])
                                     && |r.comps[i]| == |r.ts|)
  {
    var r := Append(b, tsMs, values, window);
    var base := if b.t0.Some? then b.t0.value else tsMs;
    assert r.ts == Push(b.ts, Elapsed(tsMs, base), window);
    if i < |METRICS| {
      assert r.metrics[i] == Push(b.metrics[i], SeriesValue(values, METRICS[i]), window);
      assert |b.metrics[i]| == |b.ts|;
    }
    if i < |COMPONENTS| {
      assert r.comps[i] == Push(b.comps[i], SeriesValue(values, COMPONENTS[i]), window);
      assert |b.comps[i]| == |b.ts|;
    }
  }

  /** A timestamp more than a second behind the previous one restarts the
      time base: the buffers are cleared first, so the line's own sample is
      the only one, at time 0. */
  lemma RestartDetected(b: Buffers, tsMs: Flt, values: map<string, Value>, window: nat)
    requires Shaped(b) && window > 0
    requires b.lastAbs.Some? && BackJump(tsMs, b.lastAbs.value)
    ensures Restarted(b, tsMs) == Clear(b)
    ensures var r := Telemetry(b, tsMs, values, window);
            r.ts == [0.0] && r.t0 == Some(tsMs) && r.lastAbs == Some(tsMs)
            && r.last == values && r.markers == NO_MARKERS && r.raw == []
            && (forall i :: 0 <= i < |METRICS| ==> r.metrics[i] == [SeriesValue(values, METRICS[i])])
  {
  }

  // ---------------------------------------------------------------------
  // The dashboard object.

  /** Finds and drops the oldest marker of `ev` (the eviction loop of `_add_marker`). */
  method EvictOldest(l: seq<Marker>, ev: string) returns (r: seq<Marker>)
    requires CountOf(l, ev) > 0
    ensures r == RemoveOldest(l, ev)
  {
    var idx := 0;
    while l[idx].ev != ev
      invariant 0 <= idx <= FirstOf(l, ev)
      invariant forall k :: 0 <= k < idx ==> l[k].ev != ev
      decreases FirstOf(l, ev) - idx
    {
      idx := idx + 1;
    }
    r := l[..idx] + l[idx + 1..];
  }

  class Dashboard {
    const window: nat
    const rawCap: nat
    var ts: seq<real>
    var t0: Option<Flt>
    var lastAbs: Option<Flt>
    var last: map<string, Value>
    var flags: seq<Option<bool>>
    var metricData: seq<seq<Flt>>
    var compData: seq<seq<Flt>>
    var rawLines: seq<string>
    var prevFlags: seq<Option<bool>>
    var markers: seq<seq<Marker>>

    function Snapshot(): Buffers
      reads this
    {
      Buffers(ts, t0, lastAbs, last, flags, metricData, compData, rawLines, prevFlags, markers)
    }

    ghost predicate Valid()
      reads this
    {
      Inv(Snapshot(), window, rawCap)
    }

    constructor(window: nat, rawCap: nat)
      ensures this.window == window && this.rawCap == rawCap
      ensures Snapshot() == INITIAL && Valid()
    {
      this.window := window;
      this.rawCap := rawCap;
      ts := [];
      t0 := None;
      lastAbs := None;
      last := map[];
      flags := NO_FLAGS;
      metricData := NO_METRICS;
      compData := NO_COMPS;
      rawLines := [];
      prevFlags := NO_EDGES;
      markers := NO_MARKERS;
      InitialInv(window, rawCap);
    }

    /** `_clear_data`. */
    method ClearData()
      modifies this
      ensures Snapshot() == Clear(old(Snapshot()))
    {
      t0 := None;
      lastAbs := None;
      ts := [];
      metricData := NO_METRICS;
      compData := NO_COMPS;
      last := map[];
      flags := NO_FLAGS;
      rawLines := [];
      markers := NO_MARKERS;
    }

    /** The telemetry part of `_handle_line`. */
    method AppendTelemetry(tsv: Flt, values: map<string, Value>)
      requires Shaped(Snapshot())
      modifies this
      ensures Snapshot() == Telemetry(old(Snapshot()), tsv, values, window)
    {
      if lastAbs.Some? && BackJump(tsv, lastAbs.value) {
        ClearData();
      }
      AppendSample(tsv, values);
    }

    /** Time base, latest values, flags and one entry per series. */
    method AppendSample(tsv: Flt, values: map<string, Value>)
      requires Shaped(Snapshot())
      modifies this
      ensures Snapshot() == Append(old(Snapshot()), tsv, values, window)
    {
      var r := NextSample(Snapshot(), tsv, values, window);
      lastAbs, t0, ts, last := r.lastAbs, r.t0, r.ts, r.last;
      flags, metricData, compData := r.flags, r.metrics, r.comps;
    }

    /** The buffers after one sample, computed by the flag and series loops. */
    static method NextSample(b: Buffers, tsv: Flt, values: map<string, Value>, window: nat) returns (r: Buffers)
      requires Shaped(b)
      ensures r == Append(b, tsv, values, window)
    {
      var base := if b.t0.Some? then b.t0.value else tsv;
      var newLast := b.last + values;
      var newFlags := ApplyFlags(b.flags, newLast, values);
      var newMetrics := AppendSeries(b.metrics, METRICS, values, window);
      var newComps := AppendSeries(b.comps, COMPONENTS, values, window);
      r := b.(lastAbs := Some(tsv), t0 := Some(base), ts := Push(b.ts, Elapsed(tsv, base), window),
              last := newLast, flags := newFlags, metrics := newMetrics, comps := newComps);
    }

    /** The pair loop of `_handle_line`: gathers the timestamp and values and
        clears the buffers at each reset event. */
    method ScanLine(kvs: seq<(string, string)>, parse: string -> Option<Flt>)
      returns (tsMs: Option<Flt>, values: map<string, Value>)
      modifies this
      ensures ScanEvt(kvs, parse).p == Parsed(tsMs, values)
      ensures Snapshot() == if ScanEvt(kvs, parse).reset then Clear(old(Snapshot())) else old(Snapshot())
    {
      ghost var b0 := Snapshot();
      tsMs := None;
      values := map[];
      var i := 0;
      while i < |kvs|
        invariant 0 <= i <= |kvs|
        invariant ScanEvt(kvs[..i], parse).p == Parsed(tsMs, values)
        invariant Snapshot() == (if ScanEvt(kvs[..i], parse).reset then Clear(b0) else b0)
      {
        var k := kvs[i].0;
        var v := kvs[i].1;
        if k == EVT {
          if IsResetEvent(v) {
            ClearData();
          }
        } else if IsTimestampKey(k) {
          tsMs := parse(v);
        } else if k == FC_STATE_STR {
          values := values[k := Text(v)];
        } else {
          match parse(v)
          case Some(x) => values := values[k := Number(x)];
          case None => values := values[k := Text(v)];
        }
        assert kvs[..i + 1][..i] == kvs[..i];
        i := i + 1;
      }
      assert kvs[..i] == kvs;
    }

    /** `_handle_line`: scan the pairs (clearing on a reset event), then, for
        a telemetry line, append the sample; the raw line is always kept. */
    method HandleLine(line: string, parse: string -> Option<Flt>)
      requires Valid()
      modifies this
      ensures Snapshot() == Handle(old(Snapshot()), line, parse, window, rawCap) && Valid()
    {
      HandleInv(Snapshot(), line, parse, window, rawCap);
      IngestLine(line, parse);
      KeepRaw(line);
    }

    /** The raw-line buffer of `_handle_line`, bounded by `rawCap`. */
    method KeepRaw(line: string)
      modifies this
      ensures Snapshot() == old(Snapshot()).(raw := Push(old(rawLines), line, rawCap))
    {
      rawLines := Push(rawLines, line, rawCap);
    }

    /** The pair loop and the sample of `_handle_line`. */
    method IngestLine(line: string, parse: string -> Option<Flt>)
      requires Shaped(Snapshot())
      modifies this
      ensures Snapshot() == Ingest(old(Snapshot()), line, parse, window)
    {
      var tsMs, values := ScanLine(Pairs(line), parse);
      if tsMs.Some? {
        AppendTelemetry(tsMs.value, values);
      }
    }

    /** `_add_marker` (drawing left out). */
    method AddMarker(ev: string, x: real)
      requires |markers| == 3
      modifies this
      ensures Snapshot() == old(Snapshot()).(markers := WithMarker(old(markers), ev, x))
    {
      markers := AddedMarkers(markers, ev, x);
    }

    /** The marker lists after `_add_marker`: the append and eviction loop over the target plots. */
    static method AddedMarkers(mk: seq<seq<Marker>>, ev: string, x: real) returns (r: seq<seq<Marker>>)
      requires |mk| == 3
      ensures r == WithMarker(mk, ev, x)
    {
      var targets := Targets(ev);
      var m := Marker(ev, x);
      r := mk;
      var j := 0;
      while j < |targets|
        invariant 0 <= j <= |targets|
        invariant r == RetainedOn(mk, targets[..j], m)
      {
        var p := targets[j];
        assert p !in targets[..j];
        assert r[p] == mk[p];
        var l := RetainMarker(r[p], m);
        RetainedOnStep(mk, targets[..j], p, m);
        r := r[p := l];
        assert targets[..j + 1] == targets[..j] + [p];
        j := j + 1;
      }
      assert targets[..j] == targets;
    }

    /** One plot's list after appending `m` and evicting its event's oldest marker when over the limit. */
    static method RetainMarker(l: seq<Marker>, m: Marker) returns (r: seq<Marker>)
      ensures r == Retain(l, m)
    {
      r := l + [m];
      CountOfAppend(l, [m], m.ev);
      assert [m][..0] == [];
      if CountOf(r, m.ev) > Limit(m.ev) {
        r := EvictOldest(r, m.ev);
      }
    }

    /** `_update_event_markers` on snapshots of the time axis and flags
        (pruning of markers scrolled out of view left out). */
    method UpdateEventMarkers(tsSnap: seq<real>, flagsSnap: seq<Option<bool>>)
      requires Valid() && |flagsSnap| == |FLAG_NAMES|
      modifies this
      ensures Snapshot() == EdgeMarkers(old(Snapshot()), tsSnap, flagsSnap) && Valid()
    {
      EdgeMarkersInv(Snapshot(), tsSnap, flagsSnap, window, rawCap);
      if tsSnap == [] {
        return;
      }
      var x := tsSnap[|tsSnap| - 1];
      markers, prevFlags := EdgeScan(markers, prevFlags, flagsSnap, x);
    }

    /** The loop over the edge-detected events: a marker at `x` for every
        false-to-true flag change, and the flags remembered for the next pass. */
    static method EdgeScan(mk: seq<seq<Marker>>, prev: seq<Option<bool>>, flagsSnap: seq<Option<bool>>, x: real)
      returns (mk': seq<seq<Marker>>, prev': seq<Option<bool>>)
      requires |mk| == 3 && |prev| == 4 && |flagsSnap| == |FLAG_NAMES|
      ensures mk' == MarkersFor(mk, prev, flagsSnap, x, 4)
      ensures prev' == seq(4, k requires 0 <= k < 4 => flagsSnap[EVENT_FLAG[k]])
    {
      mk', prev' := mk, prev;
      var e := 0;
      while e < |EVENTS|
        invariant 0 <= e <= 4 && |prev'| == 4
        invariant mk' == MarkersFor(mk, prev, flagsSnap, x, e)
        invariant forall k :: 0 <= k < e ==> prev'[k] == flagsSnap[EVENT_FLAG[k]]
        invariant forall k :: e <= k < 4 ==> prev'[k] == prev[k]
      {
        var ev := EVENTS[e];
        var was := prev'[e];
        var cur := flagsSnap[EVENT_FLAG[e]];
        if was.Some? && cur.Some? && !was.value && cur.value {
          mk' := AddedMarkers(mk', ev, x);
        }
        prev' := prev'[e := cur];
        e := e + 1;
      }
    }
  }
}
