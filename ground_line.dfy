/*
 * The ground station's view of one serial telemetry line: comma-separated
 * `key:value` pairs (teleplot style, keys may carry a leading '>'), as both
 * dashboards tokenise it, plus the bookkeeping both of them share: the
 * bounded sample deques, the flag derivation and the elapsed-time base.
 *
 * Python's `float()` is a parameter `parse` (it is only ever applied to an
 * already stripped value); whitespace, upper-casing and lower-casing are the
 * ASCII/Latin-1 subset of Python's rules.
 */
module GroundLine {
  import opened Common

  // ---------------------------------------------------------------------
  // str.strip()

  /** Characters str.isspace() accepts in the ASCII/Latin-1 range. */
  predicate IsSpace(c: char)
  {
    ('\t' <= c <= '\r') || ('\U{1c}' <= c <= ' ') || c == '\U{85}' || c == '\U{a0}'
  }

  /** Neither end of `s` is whitespace. */
  predicate Stripped(s: string)
  {
    s == [] || (!IsSpace(s[0]) && !IsSpace(s[|s| - 1]))
  }

  function StripLeft(s: string): (r: string)
    ensures |r| <= |s| && r == s[|s| - |r|..]
    ensures r == [] || !IsSpace(r[0])
    ensures forall i :: 0 <= i < |s| - |r| ==> IsSpace(s[i])
  {
    if |s| > 0 && IsSpace(s[0]) then StripLeft(s[1..]) else s
  }

  function StripRight(s: string): (r: string)
    ensures |r| <= |s| && r == s[..|r|]
    ensures r == [] || !IsSpace(r[|r| - 1])
    ensures forall i :: |r| <= i < |s| ==> IsSpace(s[i])
  {
    if |s| > 0 && IsSpace(s[|s| - 1]) then StripRight(s[..|s| - 1]) else s
  }

  /** str.strip(): the longest infix of `s` with no whitespace at either end. */
  function Strip(s: string): (r: string)
  {
    StripRight(StripLeft(s))
  }

  /** Where strip(s) starts inside s. */
  function StripStart(s: string): nat
  {
    |s| - |StripLeft(s)|
  }

  /** strip() removes exactly the surrounding whitespace: `s` is the result
      with whitespace-only padding on both sides. */
  lemma StripShape(s: string)
    ensures Stripped(Strip(s))
    ensures StripStart(s) + |Strip(s)| <= |s|
    ensures Strip(s) == s[StripStart(s)..StripStart(s) + |Strip(s)|]
    ensures forall i :: 0 <= i < StripStart(s) ==> IsSpace(s[i])
    ensures forall i :: StripStart(s) + |Strip(s)| <= i < |s| ==> IsSpace(s[i])
  {
    var l := StripLeft(s);
    var r := StripRight(l);
    var a := |s| - |l|;
    assert r == s[a..a + |r|];
    if r != [] {
      assert r[0] == l[0];
    }
    forall i | a + |r| <= i < |s|
      ensures IsSpace(s[i])
    {
      assert s[i] == l[i - a];
    }
  }

  /** A string with no surrounding whitespace is its own strip(). */
  lemma StripFixed(s: string)
    requires Stripped(s)
    ensures Strip(s) == s
  {
  }

  /** strip() is idempotent. */
  lemma StripIdempotent(s: string)
    ensures Strip(Strip(s)) == Strip(s)
  {
    StripShape(s);
    StripFixed(Strip(s));
  }

  /** Every character of strip(s) occurs in s. */
  lemma StripInfix(s: string, c: char)
    requires c in Strip(s)
    ensures c in s
  {
    var l := StripLeft(s);
    var r := Strip(s);
    var j :| 0 <= j < |r| && r[j] == c;
    assert r[j] == l[j];
    assert l[j] == s[|s| - |l| + j];
  }

  // ---------------------------------------------------------------------
  // str.split(sep) and its inverse, sep.join(...)

  function Join(parts: seq<string>, sep: char): string
  {
    if |parts| == 0 then ""
    else if |parts| == 1 then parts[0]
    else parts[0] + [sep] + Join(parts[1..], sep)
  }

  /** str.split(sep): at least one piece, no piece contains `sep`, and
      joining the pieces with `sep` gives the input back. */
  function Split(s: string, sep: char): (r: seq<string>)
    ensures |r| >= 1
    ensures forall k :: 0 <= k < |r| ==> sep !in r[k]
    ensures Join(r, sep) == s
  {
    if |s| == 0 then [""]
    else
      var rest := Split(s[1..], sep);
      if s[0] == sep then
        assert Join([""] + rest, sep) == [sep] + Join(rest, sep);
        [""] + rest
      else
        var r := [[s[0]] + rest[0]] + rest[1..];
        assert sep !in [s[0]] + rest[0];
        assert Join(r, sep) == s by {
          if |rest| == 1 {
          } else {
            assert r[1..] == rest[1..];
          }
        }
        r
  }

  lemma {:induction false} SplitNoSep(p: string, sep: char)
    requires sep !in p
    ensures Split(p, sep) == [p]
    decreases |p|
  {
    if |p| > 0 {
      assert sep !in p[1..];
      SplitNoSep(p[1..], sep);
      assert [p[0]] + p[1..] == p;
    }
  }

  lemma {:induction false} SplitCons(p: string, sep: char, rest: string)
    requires sep !in p
    ensures Split(p + [sep] + rest, sep) == [p] + Split(rest, sep)
    decreases |p|
  {
    var s := p + [sep] + rest;
    if |p| == 0 {
      assert s[1..] == rest;
    } else {
      assert s[1..] == p[1..] + [sep] + rest;
      assert sep !in p[1..];
      SplitCons(p[1..], sep, rest);
      assert [p[0]] + p[1..] == p;
    }
  }

  /** split() undoes join() when no piece contains the separator. */
  lemma {:induction false} SplitJoin(parts: seq<string>, sep: char)
    requires |parts| >= 1
    requires forall k :: 0 <= k < |parts| ==> sep !in parts[k]
    ensures Split(Join(parts, sep), sep) == parts
    decreases |parts|
  {
    if |parts| == 1 {
      SplitNoSep(parts[0], sep);
    } else {
      SplitJoin(parts[1..], sep);
      SplitCons(parts[0], sep, Join(parts[1..], sep));
      assert [parts[0]] + parts[1..] == parts;
    }
  }

  // ---------------------------------------------------------------------
  // Tokenising: `[p.strip() for p in line.split(',') if p.strip()]`, then
  // `k, vs = ch.split(':', 1)` for the tokens that hold a ':'.

  /** The stripped, non-empty pieces of `parts`, in order. */
  function NonEmptyStripped(parts: seq<string>): (r: seq<string>)
    ensures |r| <= |parts|
    ensures forall k :: 0 <= k < |r| ==> r[k] != "" && Stripped(r[k])
  {
    if parts == [] then []
    else
      var t := Strip(parts[0]);
      StripShape(parts[0]);
      (if t == "" then [] else [t]) + NonEmptyStripped(parts[1..])
  }

  function Tokens(line: string): seq<string>
  {
    NonEmptyStripped(Split(line, ','))
  }

  function IndexOf(s: string, c: char): (i: nat)
    requires c in s
    ensures i < |s| && s[i] == c && c !in s[..i]
  {
    if s[0] == c then 0
    else
      var j := IndexOf(s[1..], c);
      assert s[..j + 1] == [s[0]] + s[1..][..j];
      j + 1
  }

  /** Drops one leading '>' (teleplot prefix) and strips again. */
  function Unprefix(k: string): string
  {
    if |k| > 0 && k[0] == '>' then Strip(k[1..]) else k
  }

  /** One token as a key/value pair: None when it holds no ':', otherwise
      split at the FIRST ':' with both halves stripped; the key therefore
      never holds a ':' and the value may. */
  function KeyValue(tok: string): (r: Option<(string, string)>)
    ensures r.None? <==> ':' !in tok
    ensures r.Some? ==> ':' !in r.value.0 && Stripped(r.value.1)
  {
    if ':' !in tok then None
    else
      var i := IndexOf(tok, ':');
      var k := Strip(tok[..i]);
      var v := Strip(tok[i + 1..]);
      StripShape(tok[i + 1..]);
      assert ':' !in k by {
        if ':' in k { StripInfix(tok[..i], ':'); }
      }
      assert ':' !in Unprefix(k) by {
        if |k| > 0 && k[0] == '>' && ':' in Strip(k[1..]) {
          StripInfix(k[1..], ':');
        }
      }
      Some((Unprefix(k), v))
  }

  function KeyValues(toks: seq<string>): (r: seq<(string, string)>)
    ensures |r| <= |toks|
  {
    if toks == [] then []
    else
      match KeyValue(toks[0])
      case None => KeyValues(toks[1..])
      case Some(kv) => [kv] + KeyValues(toks[1..])
  }

  /** The key/value pairs of one line, in the order they appear. */
  function Pairs(line: string): seq<(string, string)>
  {
    KeyValues(Tokens(line))
  }

  // ---------------------------------------------------------------------
  // The emitting side: a line of `key:value` fields joined by ','.

  /** A pair the line format can carry unchanged. */
  predicate Carryable(kv: (string, string))
  {
    ',' !in kv.0 && ':' !in kv.0 && ',' !in kv.1
    && Stripped(kv.0) && Stripped(kv.1)
    && (kv.0 == [] || kv.0[0] != '>')
  }

  function Field(kv: (string, string), teleplot: bool): string
  {
    (if teleplot then ">" else "") + kv.0 + ":" + kv.1
  }

  function Fields(kvs: seq<(string, string)>, teleplot: bool): (r: seq<string>)
    ensures |r| == |kvs|
    ensures forall k :: 0 <= k < |r| ==> r[k] == Field(kvs[k], teleplot)
  {
    if kvs == [] then [] else [Field(kvs[0], teleplot)] + Fields(kvs[1..], teleplot)
  }

  function Emit(kvs: seq<(string, string)>, teleplot: bool): string
  {
    Join(Fields(kvs, teleplot), ',')
  }

  /** In `key + [sep] + v` with no `sep` in the key, the first `sep`
      follows the key. */
  lemma FirstSep(key: string, sep: char, v: string)
    requires sep !in key
    ensures sep in key + [sep] + v
    ensures IndexOf(key + [sep] + v, sep) == |key|
    ensures (key + [sep] + v)[..|key|] == key && (key + [sep] + v)[|key| + 1..] == v
  {
    var f := key + [sep] + v;
    assert f[|key|] == sep;
    assert f[..|key|] == key;
    assert f[|key| + 1..] == v;
  }

  lemma FieldShape(kv: (string, string), teleplot: bool)
    requires Carryable(kv)
    ensures ',' !in Field(kv, teleplot)
    ensures Field(kv, teleplot) != "" && Stripped(Field(kv, teleplot))
  {
    var f := Field(kv, teleplot);
    var key := (if teleplot then ">" else "") + kv.0;
    assert f == key + ":" + kv.1;
    assert f[0] == (if teleplot then '>' else if kv.0 == [] then ':' else kv.0[0]);
    assert f[|f| - 1] == (if kv.1 == [] then ':' else kv.1[|kv.1| - 1]);
  }

  lemma FieldKeyValue(kv: (string, string), teleplot: bool)
    requires Carryable(kv)
    ensures KeyValue(Field(kv, teleplot)) == Some(kv)
  {
    var key := (if teleplot then ">" else "") + kv.0;
    assert Field(kv, teleplot) == key + ":" + kv.1;
    assert ':' !in key;
    assert key + ":" + kv.1 == key + [':'] + kv.1;
    FirstSep(key, ':', kv.1);
    StripFixed(kv.1);
    StripFixed(kv.0);
    if teleplot {
      StripFixed(key);
      assert key[1..] == kv.0;
    }
  }

  lemma {:induction false} TokensOfFields(kvs: seq<(string, string)>, teleplot: bool)
    requires forall k :: 0 <= k < |kvs| ==> Carryable(kvs[k])
    ensures NonEmptyStripped(Fields(kvs, teleplot)) == Fields(kvs, teleplot)
    decreases |kvs|
  {
    if kvs != [] {
      var fs := Fields(kvs, teleplot);
      FieldShape(kvs[0], teleplot);
      StripFixed(fs[0]);
      TokensOfFields(kvs[1..], teleplot);
      assert fs[1..] == Fields(kvs[1..], teleplot);
      assert [fs[0]] + fs[1..] == fs;
    }
  }

  lemma {:induction false} PairsOfFields(kvs: seq<(string, string)>, teleplot: bool)
    requires forall k :: 0 <= k < |kvs| ==> Carryable(kvs[k])
    ensures KeyValues(Fields(kvs, teleplot)) == kvs
    decreases |kvs|
  {
    if kvs != [] {
      var fs := Fields(kvs, teleplot);
      FieldKeyValue(kvs[0], teleplot);
      PairsOfFields(kvs[1..], teleplot);
      assert fs[1..] == Fields(kvs[1..], teleplot);
      assert [kvs[0]] + kvs[1..] == kvs;
    }
  }

  /** Round trip: a line emitted from carryable pairs, with or without the
      teleplot '>' prefix, tokenises back to exactly those pairs. */
  lemma EmitThenParse(kvs: seq<(string, string)>, teleplot: bool)
    requires forall k :: 0 <= k < |kvs| ==> Carryable(kvs[k])
    ensures Pairs(Emit(kvs, teleplot)) == kvs
  {
    var fs := Fields(kvs, teleplot);
    if kvs == [] {
      assert Split("", ',') == [""];
    } else {
      forall k | 0 <= k < |fs|
        ensures ',' !in fs[k]
      {
        FieldShape(kvs[k], teleplot);
      }
      SplitJoin(fs, ',');
    }
    TokensOfFields(kvs, teleplot);
    PairsOfFields(kvs, teleplot);
  }

  // ---------------------------------------------------------------------
  // Values of one line.

  /** A stored value: a float when `float()` accepts the text, else the text. */
  datatype Value = Number(x: Flt) | Text(s: string)

  const TS_MS: string := "ts_ms"
  const TS: string := "ts"
  const FC_STATE_STR: string := "fc_state_str"

  predicate IsTimestampKey(k: string) { k == TS_MS || k == TS }

  /** How a non-timestamp key's value is stored: the state name always as
      text, anything else as a float when it parses and as text otherwise. */
  function Classify(k: string, v: string, parse: string -> Option<Flt>): Value
  {
    if k == FC_STATE_STR then Text(v)
    else match parse(v)
      case Some(x) => Number(x)
      case None => Text(v)
  }

  /** What the scan of a line has gathered: the (last) timestamp and the values. */
  datatype Parsed = Parsed(tsMs: Option<Flt>, values: map<string, Value>)

  const NOTHING_PARSED: Parsed := Parsed(None, map[])

  /** One pair of the scan: a timestamp key replaces the timestamp (None when
      it does not parse), any other key stores its classified value. */
  function Absorb(p: Parsed, kv: (string, string), parse: string -> Option<Flt>): (r: Parsed)
  {
    if IsTimestampKey(kv.0) then p.(tsMs := parse(kv.1))
    else p.(values := p.values[kv.0 := Classify(kv.0, kv.1, parse)])
  }

  /** The scan of a whole line (left to right). */
  function Scan(kvs: seq<(string, string)>, parse: string -> Option<Flt>): Parsed
  {
    if kvs == [] then NOTHING_PARSED
    else Absorb(Scan(kvs[..|kvs| - 1], parse), kvs[|kvs| - 1], parse)
  }

  /** The value text of the last pair whose key satisfies `key`. */
  function LastWhere(kvs: seq<(string, string)>, key: string -> bool): Option<string>
  {
    if kvs == [] then None
    else if key(kvs[|kvs| - 1].0) then Some(kvs[|kvs| - 1].1)
    else LastWhere(kvs[..|kvs| - 1], key)
  }

  /** Last one wins: the scan keeps, per key, the classified value of the last
      pair with that key and nothing for keys the line does not carry; the
      timestamp keys are never stored as values, and the timestamp is the
      parse of the last `ts_ms`/`ts` pair (None when there is none). */
  lemma {:induction false} ScanLastWins(kvs: seq<(string, string)>, parse: string -> Option<Flt>, k: string)
    ensures Scan(kvs, parse).tsMs ==
              (match LastWhere(kvs, IsTimestampKey) case None => None case Some(v) => parse(v))
    ensures IsTimestampKey(k) ==> k !in Scan(kvs, parse).values
    ensures !IsTimestampKey(k) ==>
              (k in Scan(kvs, parse).values <==> LastWhere(kvs, x => x == k).Some?)
    ensures !IsTimestampKey(k) && k in Scan(kvs, parse).values ==>
              Scan(kvs, parse).values[k] == Classify(k, LastWhere(kvs, x => x == k).value, parse)
    decreases |kvs|
  {
    if kvs != [] {
      ScanLastWins(kvs[..|kvs| - 1], parse, k);
    }
  }

  // ---------------------------------------------------------------------
  // Bounded deques: `deque(maxlen=cap).append(x)`.

  /** Appends `x` and keeps only the newest `cap` entries. */
  function Push<T>(q: seq<T>, x: T, cap: nat): (r: seq<T>)
    ensures |r| == if |q| + 1 <= cap then |q| + 1 else cap
    ensures cap > 0 ==> r[|r| - 1] == x
    ensures r == (q + [x])[|q| + 1 - |r|..]
  {
    var q1 := q + [x];
    if |q1| > cap then q1[|q1| - cap..] else q1
  }

  /** A deque that respects its bound still does after an append, and gains
      exactly one entry until it is full. */
  lemma PushBounded<T>(q: seq<T>, x: T, cap: nat)
    requires |q| <= cap
    ensures |Push(q, x, cap)| <= cap
    ensures |q| < cap ==> Push(q, x, cap) == q + [x]
    ensures |q| == cap && cap > 0 ==> Push(q, x, cap) == q[1..] + [x]
  {
  }

  // ---------------------------------------------------------------------
  // Flags and series shared by both dashboards.

  const LOCKOUT: string := "lockout"
  const ABORT_LOCKOUT: string := "ABORT_LOCKOUT"
  const LOCKOUT_INDEX: nat := 10

  const FLAG_NAMES: seq<string> := [
    "sens_imu1_ok", "sens_bmp1_ok", "sens_imu2_ok", "baro_agree", "mach_ok",
    "tilt_ok", "tilt_latch", "liftoff_det", "burnout_det", "agl_ready", LOCKOUT]

  /** The plotted series, which are also the marker plots. */
  const METRICS: seq<string> := ["agl_fused_m", "vz_fused_mps", "az_imu1_mps2"]

  function UpperChar(c: char): char
  {
    if 'a' <= c <= 'z' then (c as int - 32) as char else c
  }

  function LowerChar(c: char): char
  {
    if 'A' <= c <= 'Z' then (c as int + 32) as char else c
  }

  function Upper(s: string): (r: string)
    ensures |r| == |s| && forall i :: 0 <= i < |s| ==> r[i] == UpperChar(s[i])
  {
    seq(|s|, i requires 0 <= i < |s| => UpperChar(s[i]))
  }

  function Lower(s: string): (r: string)
    ensures |r| == |s| && forall i :: 0 <= i < |s| ==> r[i] == LowerChar(s[i])
  {
    seq(|s|, i requires 0 <= i < |s| => LowerChar(s[i]))
  }

  /** Python's `float(x) != 0.0`: true for NaN. */
  predicate NonZero(x: Flt) { x.NaN? || x.v != 0.0 }

  /** The lockout flag derived from the last state name: None while no state
      has been seen (or it is empty), true iff it upper-cases to
      ABORT_LOCKOUT. A stored float would print as a non-empty text that is
      never ABORT_LOCKOUT. */
  function DerivedLockout(last: map<string, Value>): Option<bool>
  {
    if FC_STATE_STR !in last then None
    else match last[FC_STATE_STR]
      case Text(s) => if Upper(s) == ABORT_LOCKOUT then Some(true) else if s != "" then Some(false) else None
      case Number(_) => Some(false)
  }

  /** One flag after a telemetry line: a numeric value on the line sets it to
      `value != 0`, a non-numeric one leaves it; lockout, when the line does
      not carry it, is derived from the state. */
  function FlagAfter(prev: Option<bool>, name: string, last: map<string, Value>, values: map<string, Value>): Option<bool>
  {
    if name in values then
      (if values[name].Number? then Some(NonZero(values[name].x)) else prev)
    else if name == LOCKOUT then DerivedLockout(last)
    else prev
  }

  function NewFlags(flags: seq<Option<bool>>, last: map<string, Value>, values: map<string, Value>): (r: seq<Option<bool>>)
    requires |flags| == |FLAG_NAMES|
    ensures |r| == |flags|
  {
    seq(|flags|, i requires 0 <= i < |flags| => FlagAfter(flags[i], FLAG_NAMES[i], last, values))
  }

  /** The flag rules, per flag: numeric values decide, other flags are left
      alone, and lockout follows the state exactly when the line does not
      name it. */
  lemma FlagRules(flags: seq<Option<bool>>, last: map<string, Value>, values: map<string, Value>, i: nat)
    requires |flags| == |FLAG_NAMES| && i < |flags|
    ensures FLAG_NAMES[i] in values && values[FLAG_NAMES[i]].Number? ==>
              NewFlags(flags, last, values)[i] == Some(NonZero(values[FLAG_NAMES[i]].x))
    ensures FLAG_NAMES[i] in values && values[FLAG_NAMES[i]].Text? ==>
              NewFlags(flags, last, values)[i] == flags[i]
    ensures FLAG_NAMES[i] !in values && i != LOCKOUT_INDEX ==> NewFlags(flags, last, values)[i] == flags[i]
    ensures LOCKOUT !in values ==> NewFlags(flags, last, values)[LOCKOUT_INDEX] == DerivedLockout(last)
  {
    assert FLAG_NAMES[LOCKOUT_INDEX] == LOCKOUT;
    if i != LOCKOUT_INDEX {
      assert FLAG_NAMES[i] != LOCKOUT;
    }
  }

  /** The derived lockout: true exactly for the ABORT_LOCKOUT state (any
      letter case), unknown exactly while there is no non-empty state text. */
  lemma LockoutFromState(last: map<string, Value>)
    ensures DerivedLockout(last) == Some(true) <==>
              FC_STATE_STR in last && last[FC_STATE_STR].Text? && Upper(last[FC_STATE_STR].s) == ABORT_LOCKOUT
    ensures DerivedLockout(last).None? <==> FC_STATE_STR !in last || last[FC_STATE_STR] == Text("")
  {
    if FC_STATE_STR in last && last[FC_STATE_STR] == Text("") {
      assert Upper("") == "";
    }
  }

  /** The series entry for `name`: its float, or NaN when the line does not
      carry it or carries text. */
  function SeriesValue(values: map<string, Value>, name: string): Flt
  {
    if name in values && values[name].Number? then values[name].x else NaN
  }

  /** Appends one entry to every series deque. */
  function AppendAll(ds: seq<seq<Flt>>, names: seq<string>, values: map<string, Value>, cap: nat): (r: seq<seq<Flt>>)
    requires |names| == |ds|
    ensures |r| == |ds|
    ensures forall i :: 0 <= i < |ds| ==> r[i] == Push(ds[i], SeriesValue(values, names[i]), cap)
  {
    seq(|ds|, i requires 0 <= i < |ds| => Push(ds[i], SeriesValue(values, names[i]), cap))
  }

  /** Seconds since the time base: `max(0.0, (ts - t0) / 1000)`, which is
      0 whenever either operand is NaN. */
  function Elapsed(ts: Flt, t0: Flt): (t: real)
  {
    if ts.Num? && t0.Num? && (ts.v - t0.v) / 1000.0 > 0.0 then (ts.v - t0.v) / 1000.0 else 0.0
  }

  /** The elapsed time is never negative and is exact for timestamps at or
      after the base; earlier or unparsable ones give 0. */
  lemma ElapsedMeaning(ts: Flt, t0: Flt)
    ensures Elapsed(ts, t0) >= 0.0
    ensures ts.Num? && t0.Num? && ts.v >= t0.v ==> Elapsed(ts, t0) * 1000.0 == ts.v - t0.v
    ensures !(ts.Num? && t0.Num? && ts.v > t0.v) ==> Elapsed(ts, t0) == 0.0
  {
  }

  /** Appending a non-negative time to non-negative times keeps them so. */
  lemma PushNonNegative(q: seq<real>, x: real, cap: nat)
    requires forall i :: 0 <= i < |q| ==> q[i] >= 0.0
    requires x >= 0.0
    ensures forall i :: 0 <= i < |Push(q, x, cap)| ==> Push(q, x, cap)[i] >= 0.0
  {
    var r := Push(q, x, cap);
    forall i | 0 <= i < |r|
      ensures r[i] >= 0.0
    {
      assert r[i] == (q + [x])[|q| + 1 - |r| + i];
    }
  }

  // ---------------------------------------------------------------------
  // The per-line updates of the flag table and the series deques.

  /** One entry per series: the value's float, or NaN. */
  method AppendSeries(ds: seq<seq<Flt>>, names: seq<string>, values: map<string, Value>, window: nat)
    returns (r: seq<seq<Flt>>)
    requires |names| == |ds|
    ensures r == AppendAll(ds, names, values, window)
  {
    r := ds;
    var j := 0;
    while j < |names|
      invariant 0 <= j <= |names| && |r| == |ds|
      invariant forall k :: 0 <= k < j ==> r[k] == Push(ds[k], SeriesValue(values, names[k]), window)
      invariant forall k :: j <= k < |ds| ==> r[k] == ds[k]
    {
      var name := names[j];
      var vf: Flt := NaN;
      if name in values && values[name].Number? {
        vf := values[name].x;
      }
      r := r[j := Push(r[j], vf, window)];
      j := j + 1;
    }
  }

  /** The flags after a telemetry line: lockout derived from the state when
      the line does not carry it, then every numeric flag value applied. */
  method ApplyFlags(flags: seq<Option<bool>>, last: map<string, Value>, values: map<string, Value>)
    returns (r: seq<Option<bool>>)
    requires |flags| == |FLAG_NAMES|
    ensures r == NewFlags(flags, last, values)
  {
    r := flags;
    if LOCKOUT !in values {
      r := r[LOCKOUT_INDEX := DerivedLockout(last)];
    }
    ghost var derived := r;
    var j := 0;
    while j < |FLAG_NAMES|
      invariant 0 <= j <= |FLAG_NAMES| && |r| == |flags|
      invariant forall k :: 0 <= k < j ==> r[k] == FlagAfter(flags[k], FLAG_NAMES[k], last, values)
      invariant forall k :: j <= k < |flags| ==> r[k] == derived[k]
    {
      var name := FLAG_NAMES[j];
      FlagRules(flags, last, values, j);
      if name in values && values[name].Number? {
        r := r[j := Some(NonZero(values[name].x))];
      }
      j := j + 1;
    }
  }
}
