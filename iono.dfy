/** The ionogram model of rian_iono.py: the parser of a vertical-sounding file
    ("Frequency Set" / "END" / "DATA" / "END" framed text), the height-by-frequency
    grid it builds, the sunspot-number lookup by date, and the plotting accessors
    (extent, frequency tick labels and positions). */
module Iono {
  import opened Wrappers
  import opened Text
  import opened Conversions

  const FREQUENCY_SET: string := "Frequency Set"
  const END: string := "END"
  const DATA: string := "DATA"

  function Clamp(x: int): nat {
    if x < 0 then 0 else x
  }

  function Min(a: int, b: int): int {
    if a < b then a else b
  }

  // ---------------------------------------------------------------------------
  // Structural markers

  /** Line positions of the frequency-section start, the header END, DATA and the
      data END. */
  datatype Markers = Markers(freq: nat, endHeader: nat, data: nat, endData: nat)

  /** The four `list.index` lookups of `load`; `None` where one of them raises.
      The header END is the first END of the file and the data END the first END
      strictly after it. */
  function FindMarkers(lines: seq<string>): (r: Option<Markers>)
    ensures r.None? <==>
      FREQUENCY_SET !in lines || END !in lines || DATA !in lines
      || END !in lines[IndexOf(lines, END).value + 1..]
    ensures r.Some? ==>
      IsFirst(lines, r.value.freq, FREQUENCY_SET) && IsFirst(lines, r.value.endHeader, END)
      && IsFirst(lines, r.value.data, DATA)
      && r.value.endHeader < r.value.endData < |lines| && lines[r.value.endData] == END
      && END !in lines[r.value.endHeader + 1..r.value.endData]
  {
    match IndexOf(lines, FREQUENCY_SET)
    case None => None
    case Some(f) =>
      match IndexOf(lines, END)
      case None => None
      case Some(e) =>
        match IndexOf(lines, DATA)
        case None => None
        case Some(d) =>
          match NextEnd(lines, e)
          case None => None
          case Some(k) => Some(Markers(f, e, d, k))
  }

  /** The first `END` line after line `e`. */
  function NextEnd(lines: seq<string>, e: nat): (r: Option<nat>)
    requires e < |lines|
    ensures r.None? <==> END !in lines[e + 1..]
    ensures r.Some? ==> e < r.value < |lines| && lines[r.value] == END
                        && END !in lines[e + 1..r.value]
  {
    match IndexOf(lines[e + 1..], END)
    case None => None
    case Some(j) =>
      assert lines[e + 1..][..j] == lines[e + 1..e + 1 + j];
      Some(e + 1 + j)
  }

  /** `n_freq`: the number of lines strictly between the two header markers (may be
      zero or negative in a malformed file). */
  function NFreq(m: Markers): int {
    m.endHeader - m.freq - 1
  }

  /** Number of lines strictly between DATA and the data END. */
  function DataCount(m: Markers): nat {
    Clamp(m.endData - m.data - 1)
  }

  // ---------------------------------------------------------------------------
  // One line of the scan

  datatype HeaderKey = Z0 | Dz | Nstrob | Nsound | Time

  /** The prefixes of the scan's `if/elif` chain, in source order. */
  const HEADER_KEYS: seq<(string, HeaderKey)> :=
    [("z0", Z0), ("dz", Dz), ("Nstrob", Nstrob), ("Nsound", Nsound), ("TIME", Time)]

  /** The key of the first entry of `keys` whose prefix `line` starts with. */
  function FirstKey(line: string, keys: seq<(string, HeaderKey)>): (r: Option<HeaderKey>)
    ensures r.Some? <==> exists k :: 0 <= k < |keys| && StartsWith(line, keys[k].0)
  {
    if keys == [] then None
    else if StartsWith(line, keys[0].0) then Some(keys[0].1)
    else
      assert forall k :: 1 <= k < |keys| ==> keys[k] == keys[1..][k - 1];
      FirstKey(line, keys[1..])
  }

  /** The first prefix, in `if/elif` order, that the line starts with gives the key. */
  lemma {:induction false} FirstKeyFirstMatch(line: string, keys: seq<(string, HeaderKey)>, k: nat)
    requires k < |keys| && StartsWith(line, keys[k].0)
    requires forall j :: 0 <= j < k ==> !StartsWith(line, keys[j].0)
    ensures FirstKey(line, keys) == Some(keys[k].1)
  {
    if k > 0 {
      assert !StartsWith(line, keys[0].0);
      assert keys[1..][k - 1] == keys[k];
      forall j | 0 <= j < k - 1 ensures !StartsWith(line, keys[1..][j].0) {
        assert keys[1..][j] == keys[j + 1];
      }
      FirstKeyFirstMatch(line, keys[1..], k - 1);
    }
  }

  /** The branch of the `if/elif` chain a line takes. */
  function KeyOf(line: string): Option<HeaderKey> {
    FirstKey(line, HEADER_KEYS)
  }

  /** The five prefixes exclude each other, so a line takes the branch of the
      one prefix it starts with, and no branch when it starts with none. */
  lemma KeyOfPrefixes(line: string)
    ensures KeyOf(line) == Some(Z0) <==> StartsWith(line, "z0")
    ensures KeyOf(line) == Some(Dz) <==> StartsWith(line, "dz")
    ensures KeyOf(line) == Some(Nstrob) <==> StartsWith(line, "Nstrob")
    ensures KeyOf(line) == Some(Nsound) <==> StartsWith(line, "Nsound")
    ensures KeyOf(line) == Some(Time) <==> StartsWith(line, "TIME")
  {
    var z0, dz, st, so, ti := StartsWith(line, "z0"), StartsWith(line, "dz"),
      StartsWith(line, "Nstrob"), StartsWith(line, "Nsound"), StartsWith(line, "TIME");
    StartsWithPrefix(line, "z0");
    StartsWithPrefix(line, "dz");
    StartsWithPrefix(line, "Nstrob");
    StartsWithPrefix(line, "Nsound");
    StartsWithPrefix(line, "TIME");
    assert z0 ==> line[0] == 'z';
    assert dz ==> line[0] == 'd';
    assert st ==> line[0] == 'N' && line[2] == 't';
    assert so ==> line[0] == 'N' && line[2] == 'o';
    assert ti ==> line[0] == 'T';
    var keys := HEADER_KEYS;
    assert keys[1..] == [("dz", Dz), ("Nstrob", Nstrob), ("Nsound", Nsound), ("TIME", Time)];
    assert keys[2..] == [("Nstrob", Nstrob), ("Nsound", Nsound), ("TIME", Time)];
    assert keys[3..] == [("Nsound", Nsound), ("TIME", Time)];
    assert keys[4..] == [("TIME", Time)];
    assert FirstKey(line, keys[4..]) == if ti then Some(Time) else FirstKey(line, []);
    assert FirstKey(line, keys[3..]) == if so then Some(Nsound) else FirstKey(line, keys[4..]);
    assert FirstKey(line, keys[2..]) == if st then Some(Nstrob) else FirstKey(line, keys[3..]);
    assert FirstKey(line, keys[1..]) == if dz then Some(Dz) else FirstKey(line, keys[2..]);
    assert KeyOf(line) == if z0 then Some(Z0) else FirstKey(line, keys[1..]);
  }

  /** `line.split('=')[-1].strip()`: the value text of a `KEY = VALUE` line. */
  function FieldText(line: string): string {
    Strip(AfterLast(line, '='))
  }

  /** A header attribute's value: `float` for z0/dz, `int` for Nstrob/Nsound, a
      date for TIME; `None` while unset or where the conversion raises. */
  datatype FieldValue = RealValue(r: Option<real>) | IntValue(i: Option<int>) | DateValue(d: Option<DateTime>)

  predicate Converted(v: FieldValue) {
    match v
    case RealValue(r) => r.Some?
    case IntValue(i) => i.Some?
    case DateValue(d) => d.Some?
  }

  /** The conversion the branch for `key` applies to the value text. */
  function Parse(key: HeaderKey, t: string, conv: Conv): FieldValue {
    match key
    case Z0 => RealValue(conv.toFloat(t))
    case Dz => RealValue(conv.toFloat(t))
    case Nstrob => IntValue(conv.toInt(t))
    case Nsound => IntValue(conv.toInt(t))
    case Time => DateValue(conv.toDate(t))
  }

  /** The header line converts, or is not a header line. */
  predicate HeaderLineOk(line: string, conv: Conv) {
    match KeyOf(line)
    case None => true
    case Some(key) => Converted(Parse(key, FieldText(line), conv))
  }

  /** The five attributes `load` sets from `KEY = VALUE` header lines (`None`
      while unset). */
  datatype Header = Header(z0: Option<real>, dz: Option<real>, nstrob: Option<int>,
                           nsound: Option<int>, date: Option<DateTime>)

  /** The attribute of `h` for `key`. */
  function Get(h: Header, key: HeaderKey): FieldValue {
    match key
    case Z0 => RealValue(h.z0)
    case Dz => RealValue(h.dz)
    case Nstrob => IntValue(h.nstrob)
    case Nsound => IntValue(h.nsound)
    case Time => DateValue(h.date)
  }

  /** The assignment of the `if/elif` branch for `key` with value text `t`: that
      attribute takes the converted text and the others keep theirs. */
  function Assign(h: Header, key: HeaderKey, t: string, conv: Conv): (r: Header)
    ensures forall k :: Get(r, k) == if k == key then Parse(key, t, conv) else Get(h, k)
  {
    match key
    case Z0 => h.(z0 := conv.toFloat(t))
    case Dz => h.(dz := conv.toFloat(t))
    case Nstrob => h.(nstrob := conv.toInt(t))
    case Nsound => h.(nsound := conv.toInt(t))
    case Time => h.(date := conv.toDate(t))
  }

  /** The header attributes after the `if/elif` chain on one line. */
  function ApplyLine(h: Header, line: string, conv: Conv): Header {
    match KeyOf(line)
    case None => h
    case Some(key) => Assign(h, key, FieldText(line), conv)
  }

  /** The header attributes after the first `n` lines of the scan. */
  function HeaderAfter(lines: seq<string>, n: nat, h: Header, conv: Conv): Header
    requires n <= |lines|
  {
    if n == 0 then h else ApplyLine(HeaderAfter(lines, n - 1, h, conv), lines[n - 1], conv)
  }

  /** `float(line.split()[-1])`: the frequency on a frequency-section line. */
  function FreqValue(line: string, conv: Conv): Option<real> {
    var t := Split(line);
    if t == [] then None else conv.toFloat(t[|t| - 1])
  }

  /** `[parse(x) for x in ts]`; `None` when one conversion raises. */
  function ParseAll<T>(ts: seq<string>, parse: string -> Option<T>): (r: Option<seq<T>>)
    ensures r.Some? ==> |r.value| == |ts| && forall k :: 0 <= k < |ts| ==> parse(ts[k]) == Some(r.value[k])
    ensures r.None? ==> exists k :: 0 <= k < |ts| && parse(ts[k]).None?
  {
    if ts == [] then Some([])
    else
      match parse(ts[0])
      case None => None
      case Some(x) =>
        match ParseAll(ts[1..], parse)
        case None => None
        case Some(rest) => Some([x] + rest)
  }

  /** `[float(x) for x in line.split()]`: one data record. */
  function RowValue(line: string, conv: Conv): Option<seq<real>> {
    ParseAll(Split(line), conv.toFloat)
  }

  /** Line `i` passes the scan without raising: its header value converts, a
      frequency line has a frequency, and a data line converts and finds its slot
      (`i - index_data - 1 < n_freq`). */
  predicate LineOk(lines: seq<string>, m: Markers, conv: Conv, i: int)
    requires 0 <= i < |lines|
  {
    HeaderLineOk(lines[i], conv) && SectionLineOk(lines, m, conv, i)
  }

  /** The frequency and data parts of `LineOk`. */
  predicate SectionLineOk(lines: seq<string>, m: Markers, conv: Conv, i: int)
    requires 0 <= i < |lines|
  {
    (m.freq < i < m.endHeader ==> FreqValue(lines[i], conv).Some?)
    && (m.data < i < m.endData ==> RowValue(lines[i], conv).Some? && i - m.data - 1 < NFreq(m))
  }

  /** The whole scan passes without raising. */
  predicate ScanOk(lines: seq<string>, m: Markers, conv: Conv) {
    forall i :: 0 <= i < |lines| ==> LineOk(lines, m, conv, i)
  }

  /** The first `n` lines pass the scan. */
  predicate PrefixOk(lines: seq<string>, m: Markers, conv: Conv, n: nat)
    requires n <= |lines|
  {
    n == 0 || (PrefixOk(lines, m, conv, n - 1) && LineOk(lines, m, conv, n - 1))
  }

  lemma {:induction false} PrefixOkAll(lines: seq<string>, m: Markers, conv: Conv, n: nat)
    requires n <= |lines|
    ensures PrefixOk(lines, m, conv, n) <==> forall i :: 0 <= i < n ==> LineOk(lines, m, conv, i)
  {
    if n > 0 {
      PrefixOkAll(lines, m, conv, n - 1);
    }
  }

  /** The value of header attribute `key` after the first `n` lines: the last
      line with that key sets it; with none, it keeps `prev`. */
  function LastField(lines: seq<string>, n: nat, key: HeaderKey, conv: Conv, prev: FieldValue): FieldValue
    requires n <= |lines|
  {
    if n == 0 then prev
    else if KeyOf(lines[n - 1]) == Some(key) then Parse(key, FieldText(lines[n - 1]), conv)
    else LastField(lines, n - 1, key, conv, prev)
  }

  /** The frequencies appended while scanning the first `n` lines. */
  function Freqs(lines: seq<string>, m: Markers, conv: Conv, n: nat): seq<real>
    requires n <= |lines|
  {
    if n == 0 then []
    else
      Freqs(lines, m, conv, n - 1) + FreqStep(lines, m, conv, n - 1)
  }

  /** What line `i` appends to the frequency list. */
  function FreqStep(lines: seq<string>, m: Markers, conv: Conv, i: nat): seq<real>
    requires i < |lines|
  {
    if m.freq < i < m.endHeader then [FreqValue(lines[i], conv).GetOr(0.0)] else []
  }

  /** Number of data lines among the first `n` lines. */
  function Filled(m: Markers, n: int): nat {
    Clamp(Min(n, m.endData) - m.data - 1)
  }

  /** The record of the `j`-th data line. */
  function Row(lines: seq<string>, m: Markers, conv: Conv, j: nat): seq<real>
    requires m.data + 1 + j < |lines|
  {
    RowValue(lines[m.data + 1 + j], conv).GetOr([])
  }

  /** `data_temp` after the scan: `n_freq` slots (none when `n_freq <= 0`); slot `j`
      holds the record of the `j`-th data line, and a slot no data line reached
      still holds the initial `0` (here `None`). */
  function Slots(lines: seq<string>, m: Markers, conv: Conv): seq<Option<seq<real>>>
    requires m.endData < |lines|
  {
    seq(Clamp(NFreq(m)), j requires 0 <= j < Clamp(NFreq(m)) =>
      if j < DataCount(m) then Some(Row(lines, m, conv, j)) else None)
  }

  /** `data_temp` after the first `n` lines: the slots of the data lines seen so
      far hold their records, the others still hold the initial `0`. */
  predicate SlotsUpTo(temp: seq<Option<seq<real>>>, lines: seq<string>, m: Markers, conv: Conv, n: nat)
    requires m.endData < |lines|
  {
    forall j :: 0 <= j < |temp| ==>
      temp[j] == if j < Filled(m, n) then Some(Row(lines, m, conv, j)) else None
  }

  /** After the last line every data line has filled its slot. */
  lemma SlotsUpToEnd(temp: seq<Option<seq<real>>>, lines: seq<string>, m: Markers, conv: Conv)
    requires m.endData < |lines| && |temp| == Clamp(NFreq(m))
    requires SlotsUpTo(temp, lines, m, conv, |lines|)
    ensures temp == Slots(lines, m, conv)
  {
  }

  // ---------------------------------------------------------------------------
  // The grid

  /** The grid build does not raise: slot 0 exists and is a non-empty record
      (`n_rang >= 1`), `z0` and `dz` are set, and every slot is a record at least
      `n_rang` long. */
  predicate GridOk(slots: seq<Option<seq<real>>>, nFreq: int, z0: Option<real>, dz: Option<real>) {
    nFreq >= 1 && |slots| == nFreq && slots[0].Some? && |slots[0].value| >= 1
    && z0.Some? && dz.Some?
    && forall f :: 0 <= f < nFreq ==> slots[f].Some? && |slots[f].value| >= |slots[0].value|
  }

  predicate CellsDefined(slots: seq<Option<seq<real>>>, nFreq: nat, nRang: nat) {
    nFreq <= |slots| && forall f :: 0 <= f < nFreq ==> slots[f].Some? && nRang <= |slots[f].value|
  }

  /** Grid cell (h, f): record f read with the height order reversed. */
  function Cell(slots: seq<Option<seq<real>>>, nRang: nat, h: nat, f: nat): real
    requires f < |slots| && slots[f].Some? && h < nRang <= |slots[f].value|
  {
    slots[f].value[nRang - 1 - h]
  }

  /** `mx` is the largest grid cell. */
  ghost predicate IsMaxCell(mx: real, slots: seq<Option<seq<real>>>, nFreq: nat, nRang: nat)
    requires CellsDefined(slots, nFreq, nRang)
  {
    (exists h, f :: 0 <= h < nRang && 0 <= f < nFreq && Cell(slots, nRang, h, f) == mx)
    && (forall h, f :: 0 <= h < nRang && 0 <= f < nFreq ==> Cell(slots, nRang, h, f) <= mx)
  }

  /** The height axis `[z0 + dz*h for h in range(n)]`: `n` heights from `z0`, which
      rise with `dz > 0`. */
  function Ranges(z0: real, dz: real, n: nat): (r: seq<real>)
    ensures |r| == n && (n > 0 ==> r[0] == z0)
    ensures dz > 0.0 ==> forall h, k :: 0 <= h < k < n ==> r[h] < r[k]
  {
    seq(n, h => z0 + dz * (h as real))
  }

  // ---------------------------------------------------------------------------
  // Sunspot table

  /** What one table line does: `Some(Some(v))` sets the sunspot number to `v`,
      `Some(None)` leaves it, `None` raises (a non-integer field, a field missing
      where the short-circuit comparison reaches it, or no date). */
  function SunspotLine(line: string, date: Option<DateTime>, conv: Conv): Option<Option<int>> {
    match ParseAll(Split(line), conv.toInt)
    case None => None
    case Some(t) =>
      if |t| < 1 || date.None? then None
      else if t[0] != date.value.year then Some(None)
      else if |t| < 2 then None
      else if t[1] != date.value.month then Some(None)
      else if |t| < 3 then None
      else if t[2] != date.value.day then Some(None)
      else Some(Some(t[|t| - 1]))
  }

  predicate IsMatch(line: string, date: Option<DateTime>, conv: Conv) {
    SunspotLine(line, date, conv).Some? && SunspotLine(line, date, conv).value.Some?
  }

  /** The sunspot number after reading the whole table from `cur`; `None` if a line raises. */
  function SunspotScan(table: seq<string>, date: Option<DateTime>, cur: int, conv: Conv): Option<int>
    decreases |table|
  {
    if table == [] then Some(cur)
    else
      match SunspotLine(table[0], date, conv)
      case None => None
      case Some(None) => SunspotScan(table[1..], date, cur, conv)
      case Some(Some(v)) => SunspotScan(table[1..], date, v, conv)
  }

  /** The sunspot loop of `load` (rian_iono.py:69-73). */
  method LookupSunspot(table: seq<string>, date: Option<DateTime>, cur: int, conv: Conv) returns (r: Option<int>)
    ensures r == SunspotScan(table, date, cur, conv)
  {
    var sunspot := cur;
    for i := 0 to |table|
      invariant SunspotScan(table, date, cur, conv) == SunspotScan(table[i..], date, sunspot, conv)
    {
      assert table[i..][0] == table[i] && table[i..][1..] == table[i + 1..];
      match ParseAll(Split(table[i]), conv.toInt) {
        case None =>
          return None;
        case Some(t1) =>
          if |t1| < 1 || date.None? {
            return None;
          }
          if t1[0] == date.value.year {
            if |t1| < 2 {
              return None;
            }
            if t1[1] == date.value.month {
              if |t1| < 3 {
                return None;
              }
              if t1[2] == date.value.day {
                sunspot := t1[|t1| - 1];
              }
            }
          }
      }
    }
    assert table[|table|..] == [];
    return Some(sunspot);
  }

  // ---------------------------------------------------------------------------
  // The sounding object

  datatype LoadOutcome = Loaded | MarkerMissing | Malformed

  /** `load` returns normally, from header attributes `h` and sunspot number
      `sunspot`. */
  predicate LoadOk(lines: seq<string>, table: seq<string>, conv: Conv, h: Header, sunspot: int) {
    match FindMarkers(lines)
    case None => false
    case Some(m) =>
      var hd := HeaderAfter(lines, |lines|, h, conv);
      ScanOk(lines, m, conv)
      && GridOk(Slots(lines, m, conv), NFreq(m), hd.z0, hd.dz)
      && SunspotScan(table, hd.date, sunspot, conv).Some?
  }

  /** The inner loop of the grid build for column `f`: cell (h, f) takes value
      `n_rang - h - 1` of the column's record, and the running maximum (`None` for
      `float('-inf')`) takes in each cell. Fails where the slot still holds `0` or
      the record is shorter than the column. */
  method FillColumn(slot: Option<seq<real>>, grid: array2<real>, f: nat, mx: Option<real>) returns (ok: bool, mx': Option<real>)
    requires f < grid.Length1
    modifies grid
    ensures ok <==> grid.Length0 == 0 || (slot.Some? && grid.Length0 <= |slot.value|)
    ensures ok ==> forall h :: 0 <= h < grid.Length0 ==> grid[h, f] == slot.value[grid.Length0 - 1 - h]
    ensures forall h, f' :: 0 <= h < grid.Length0 && 0 <= f' < grid.Length1 && f' != f ==>
              grid[h, f'] == old(grid[h, f'])
    ensures ok ==> (mx'.None? <==> mx.None? && grid.Length0 == 0)
    ensures ok && mx'.Some? ==> forall h :: 0 <= h < grid.Length0 ==> grid[h, f] <= mx'.value
    ensures ok && mx.Some? ==> mx'.Some? && mx.value <= mx'.value
    ensures ok && mx' != mx ==> mx'.Some? && exists h :: 0 <= h < grid.Length0 && grid[h, f] == mx'.value
  {
    var n := grid.Length0;
    mx' := mx;
    ghost var hw := 0;                                    // where mx' was seen
    for h := 0 to n
      invariant forall h', f' :: 0 <= h' < n && 0 <= f' < grid.Length1 && f' != f ==>
                  grid[h', f'] == old(grid[h', f'])
      invariant h > 0 ==> slot.Some? && n <= |slot.value|
      invariant forall h' :: 0 <= h' < h ==> grid[h', f] == slot.value[n - 1 - h']
      invariant mx'.None? <==> mx.None? && h == 0
      invariant mx'.Some? ==> forall h' :: 0 <= h' < h ==> grid[h', f] <= mx'.value
      invariant mx.Some? ==> mx'.Some? && mx.value <= mx'.value
      invariant mx' != mx ==> mx'.Some? && hw < h && grid[hw, f] == mx'.value
    {
      if slot.None? { return false, mx'; }                  // 0[...]: TypeError
      if n - h - 1 >= |slot.value| { return false, mx'; }   // IndexError
      grid[h, f] := slot.value[n - h - 1];
      if mx'.None? || grid[h, f] > mx'.value {
        mx' := Some(grid[h, f]);
        hw := h;
      }
    }
    return true, mx';
  }

  /** The outer loop of the grid build: every column filled from its slot, and the
      largest cell. */
  method Transpose(temp: array<Option<seq<real>>>, grid: array2<real>) returns (ok: bool, mx: Option<real>)
    requires grid.Length1 <= temp.Length
    modifies grid
    ensures ok <==> grid.Length0 == 0 || CellsDefined(temp[..], grid.Length1, grid.Length0)
    ensures ok && grid.Length0 > 0 ==> forall h, f :: 0 <= h < grid.Length0 && 0 <= f < grid.Length1 ==>
              grid[h, f] == Cell(temp[..], grid.Length0, h, f)
    ensures ok && grid.Length0 > 0 && grid.Length1 > 0 ==>
              mx.Some? && IsMaxCell(mx.value, temp[..], grid.Length1, grid.Length0)
  {
    var nRang, nFreq := grid.Length0, grid.Length1;
    mx := None;                                           // float('-inf')
    ghost var hw: nat, fw: nat := 0, 0;                   // where mx was seen
    for f := 0 to nFreq
      invariant nRang > 0 ==> CellsDefined(temp[..], f, nRang)
      invariant nRang > 0 ==> forall h', f' :: 0 <= h' < nRang && 0 <= f' < f ==>
                  grid[h', f'] == Cell(temp[..], nRang, h', f')
      invariant mx.None? <==> (f == 0 || nRang == 0)
      invariant mx.Some? ==> hw < nRang && fw < f && grid[hw, fw] == mx.value
      invariant mx.Some? ==> forall h', f' :: 0 <= h' < nRang && 0 <= f' < f ==> grid[h', f'] <= mx.value
    {
      var prev := mx;
      ok, mx := FillColumn(temp[f], grid, f, mx);
      if !ok { return; }
      if mx != prev {
        hw, fw := (ghost var h :| 0 <= h < nRang && grid[h, f] == mx.value; h), f;
      }
    }
    ok := true;
    if nRang > 0 && nFreq > 0 {
      assert Cell(temp[..], nRang, hw, fw) == mx.value;
    }
  }

  class RianIono {
    var data: array2?<real>
    var date: Option<DateTime>
    var lat: real
    var lon: real
    var gyro: real
    var dip: real
    var sunspot: int
    var stationName: string
    var frequencies: seq<real>
    var nFreq: int
    var nRang: int
    var z0: Option<real>
    var dz: Option<real>
    var nstrob: Option<int>
    var nsound: Option<int>
    var ranges: seq<real>

    /** The five header attributes together. */
    function HeaderFields(): Header
      reads this`z0, this`dz, this`nstrob, this`nsound, this`date
    {
      Header(z0, dz, nstrob, nsound, date)
    }

    /** The defaults of `__init__`; fields `load` sets later start unset. */
    constructor ()
      ensures data == null && date == None && sunspot == 0 && stationName == "IION"
      ensures lat == 49.676 && lon == 36.292 && gyro == 1.2 && dip == 66.7
      ensures frequencies == [] && ranges == [] && nFreq == 0 && nRang == 0
      ensures z0 == None && dz == None && nstrob == None && nsound == None
    {
      data := null;
      date := None;
      lat, lon, gyro, dip := 49.676, 36.292, 1.2, 66.7;
      sunspot := 0;
      stationName := "IION";
      frequencies, ranges := [], [];
      nFreq, nRang := 0, 0;
      z0, dz, nstrob, nsound := None, None, None, None;
    }

    /** The `if/elif` chain of the scan on one line: the field whose prefix the
        line starts with takes the converted value text. */
    method ApplyHeaderLine(line: string, conv: Conv) returns (ok: bool)
      modifies this`z0, this`dz, this`nstrob, this`nsound, this`date
      ensures ok <==> HeaderLineOk(line, conv)
      ensures ok ==> HeaderFields() == ApplyLine(old(HeaderFields()), line, conv)
    {
      match KeyOf(line) {
        case None =>
        case Some(Z0) =>
          var v := conv.toFloat(FieldText(line));
          if v.None? { return false; }
          z0 := v;
        case Some(Dz) =>
          var v := conv.toFloat(FieldText(line));
          if v.None? { return false; }
          dz := v;
        case Some(Nstrob) =>
          var v := conv.toInt(FieldText(line));
          if v.None? { return false; }
          nstrob := v;
        case Some(Nsound) =>
          var v := conv.toInt(FieldText(line));
          if v.None? { return false; }
          nsound := v;
        case Some(Time) =>
          var v := conv.toDate(FieldText(line));
          if v.None? { return false; }
          date := v;
      }
      return true;
    }

    /** The frequency-section append and the placement of a data record into
        its slot, for line `i` of the scan of `load`. */
    method ScanSections(lines: seq<string>, m: Markers, conv: Conv, temp: array<Option<seq<real>>>, i: nat) returns (ok: bool)
      requires m.endData < |lines| && i < |lines|
      requires temp.Length == Clamp(NFreq(m))
      requires SlotsUpTo(temp[..], lines, m, conv, i)
      modifies this`frequencies, temp
      ensures ok <==> SectionLineOk(lines, m, conv, i)
      ensures ok ==> frequencies == old(frequencies) + FreqStep(lines, m, conv, i)
      ensures ok ==> SlotsUpTo(temp[..], lines, m, conv, i + 1)
    {
      var line := lines[i];
      ok := true;
      if m.freq < i < m.endHeader {
        var v := FreqValue(line, conv);
        if v.None? { return false; }
        frequencies := frequencies + [v.value];
      }
      if m.data < i < m.endData {
        var row := RowValue(line, conv);
        if row.None? { return false; }
        var slot := i - m.data - 1;
        if slot >= temp.Length { return false; }
        assert Filled(m, i) == slot && Filled(m, i + 1) == slot + 1;
        assert m.data + 1 + slot == i;
        assert Row(lines, m, conv, slot) == row.value;
        temp[slot] := row;
      } else {
        assert Filled(m, i + 1) == Filled(m, i);
      }
    }

    /** The `for i, line in enumerate(lines)` loop of `load`: header fields, the
        frequency list and the placement of data records into `data_temp`. */
    method ScanLines(lines: seq<string>, m: Markers, conv: Conv, temp: array<Option<seq<real>>>) returns (ok: bool)
      requires m.endData < |lines|
      requires temp.Length == Clamp(NFreq(m))
      requires forall j :: 0 <= j < temp.Length ==> temp[j] == None
      modifies this`z0, this`dz, this`nstrob, this`nsound, this`date, this`frequencies, temp
      ensures ok <==> ScanOk(lines, m, conv)
      ensures ok ==> HeaderFields() == HeaderAfter(lines, |lines|, old(HeaderFields()), conv)
      ensures ok ==> frequencies == old(frequencies) + Freqs(lines, m, conv, |lines|)
      ensures ok ==> temp[..] == Slots(lines, m, conv)
    {
      for i := 0 to |lines|
        invariant PrefixOk(lines, m, conv, i)
        invariant HeaderFields() == HeaderAfter(lines, i, old(HeaderFields()), conv)
        invariant frequencies == old(frequencies) + Freqs(lines, m, conv, i)
        invariant SlotsUpTo(temp[..], lines, m, conv, i)
      {
        ok := ApplyHeaderLine(lines[i], conv);
        if !ok { assert !LineOk(lines, m, conv, i); return; }
        ok := ScanSections(lines, m, conv, temp, i);
        if !ok { assert !LineOk(lines, m, conv, i); return; }
      }
      PrefixOkAll(lines, m, conv, |lines|);
      SlotsUpToEnd(temp[..], lines, m, conv);
      return true;
    }

    /** The grid state built from `data_temp` slots `slots`: the height axis
        from `z0` in steps of `dz`, the `n_rang` by `n_freq` grid of records read
        with the height order reversed, and cell (0, 0) set to minus the largest
        cell. */
    ghost predicate GridFrom(slots: seq<Option<seq<real>>>)
      reads this`nFreq, this`z0, this`dz, this`nRang, this`ranges, this`data, data
    {
      && nFreq >= 1 && nRang >= 1 && CellsDefined(slots, nFreq, nRang)
      && z0.Some? && dz.Some? && ranges == Ranges(z0.value, dz.value, nRang)
      && data != null && data.Length0 == nRang && data.Length1 == nFreq
      && (forall h, f :: 0 <= h < nRang && 0 <= f < nFreq && (h, f) != (0, 0) ==>
            data[h, f] == Cell(slots, nRang, h, f))
      && IsMaxCell(-data[0, 0], slots, nFreq, nRang)
    }

    /** Lines 52-64 of `load`: `n_rang`, the height axis, the transposed grid with
        the height order reversed, and the contrast cell (0, 0) set to minus the
        largest value. */
    method BuildGrid(temp: array<Option<seq<real>>>, ghost slots: seq<Option<seq<real>>>) returns (ok: bool)
      requires temp.Length == Clamp(nFreq) && temp[..] == slots
      modifies this`nRang, this`ranges, this`data
      ensures ok <==> GridOk(slots, nFreq, z0, dz)
      ensures ok ==> nRang == |slots[0].value| && GridFrom(slots) && fresh(data)
    {
      if temp.Length == 0 { return false; }          // data_temp[0]: IndexError
      if temp[0].None? { return false; }             // len(0): TypeError
      nRang := |temp[0].value|;
      if nRang > 0 && (z0.None? || dz.None?) { return false; }  // z0/dz never set
      ranges := if nRang > 0 then Ranges(z0.value, dz.value, nRang) else [];
      var grid := new real[nRang, nFreq];
      data := grid;
      var maxVal: Option<real>;
      ok, maxVal := Transpose(temp, grid);
      if !ok { return; }
      if nRang == 0 { return false; }                 // self.data[0]: IndexError
      grid[0, 0] := -maxVal.value;
    }

    /** The sounding state a successful `load` leaves, from header attributes
        `h0`: `n_freq` frequencies, the header attributes of the last matching
        lines, and the grid built from the data records. */
    ghost predicate SoundingFrom(lines: seq<string>, m: Markers, conv: Conv, h0: Header)
      requires m.endData < |lines|
      reads this`nFreq, this`frequencies, this`z0, this`dz, this`nstrob, this`nsound, this`date
      reads this`nRang, this`ranges, this`data, data
    {
      && nFreq == NFreq(m)
      && frequencies == Freqs(lines, m, conv, |lines|)
      && HeaderFields() == HeaderAfter(lines, |lines|, h0, conv)
      && GridFrom(Slots(lines, m, conv))
    }

    /** Lines 24-64 of `load` once the markers are found: the scan and the grid. */
    method LoadSounding(lines: seq<string>, m: Markers, conv: Conv) returns (ok: bool)
      requires m.endData < |lines|
      modifies this`frequencies, this`nFreq, this`z0, this`dz, this`nstrob, this`nsound, this`date
      modifies this`nRang, this`ranges, this`data
      ensures ok <==> ScanOk(lines, m, conv)
                      && GridOk(Slots(lines, m, conv), NFreq(m),
                                HeaderAfter(lines, |lines|, old(HeaderFields()), conv).z0,
                                HeaderAfter(lines, |lines|, old(HeaderFields()), conv).dz)
      ensures ok ==> SoundingFrom(lines, m, conv, old(HeaderFields())) && fresh(data)
    {
      frequencies := [];
      nFreq := NFreq(m);
      var temp := new Option<seq<real>>[Clamp(nFreq)](_ => None);   // [0] * n_freq
      ok := ScanLines(lines, m, conv, temp);
      if !ok { return; }
      assert frequencies == Freqs(lines, m, conv, |lines|);
      ghost var h := HeaderAfter(lines, |lines|, old(HeaderFields()), conv);
      assert z0 == h.z0 && dz == h.dz;
      ok := BuildGrid(temp, Slots(lines, m, conv));
      assert HeaderFields() == h;
    }

    /** `load` on the file's lines (already stripped) and the sunspot table's
        lines; a successful load also sets the sunspot number of the last table
        line for the sounding's date. */
    method Load(lines: seq<string>, table: seq<string>, conv: Conv) returns (r: LoadOutcome)
      modifies this`frequencies, this`nFreq, this`z0, this`dz, this`nstrob, this`nsound, this`date
      modifies this`nRang, this`ranges, this`data, this`sunspot
      ensures r == MarkerMissing <==> FindMarkers(lines).None?
      ensures r == Loaded <==> LoadOk(lines, table, conv, old(HeaderFields()), old(sunspot))
      ensures r == Loaded ==>
                SoundingFrom(lines, FindMarkers(lines).value, conv, old(HeaderFields())) && fresh(data)
                && SunspotScan(table, date, old(sunspot), conv) == Some(sunspot)
    {
      var mk := FindMarkers(lines);
      if mk.None? { return MarkerMissing; }
      var ok := LoadSounding(lines, mk.value, conv);
      if !ok { return Malformed; }
      var s := LookupSunspot(table, date, sunspot, conv);
      if s.None? { return Malformed; }
      sunspot := s.value;
      return Loaded;
    }
  }

  // ---------------------------------------------------------------------------
  // Properties of the parse

  lemma {:induction false} FreqsShape(lines: seq<string>, m: Markers, conv: Conv, n: nat)
    requires n <= |lines|
    ensures |Freqs(lines, m, conv, n)| == Clamp(Min(n, m.endHeader) - m.freq - 1)
    ensures forall k :: 0 <= k < |Freqs(lines, m, conv, n)| ==>
              m.freq + 1 + k < |lines|
              && Freqs(lines, m, conv, n)[k] == FreqValue(lines[m.freq + 1 + k], conv).GetOr(0.0)
  {
    if n > 0 {
      FreqsShape(lines, m, conv, n - 1);
      var prev := Freqs(lines, m, conv, n - 1);
      var cur := Freqs(lines, m, conv, n);
      forall k | 0 <= k < |cur|
        ensures m.freq + 1 + k < |lines| && cur[k] == FreqValue(lines[m.freq + 1 + k], conv).GetOr(0.0)
      {
        if k < |prev| {
          assert cur[k] == prev[k];
        } else {
          assert m.freq + 1 + k == n - 1;
        }
      }
    }
  }

  /** The frequency list has exactly `n_freq` entries (none when `n_freq <= 0`):
      the last token of each line strictly between the two header markers, in
      file order. */
  lemma FrequencyList(lines: seq<string>, m: Markers, conv: Conv)
    requires FindMarkers(lines) == Some(m)
    requires ScanOk(lines, m, conv)
    ensures |Freqs(lines, m, conv, |lines|)| == Clamp(NFreq(m))
    ensures forall k :: 0 <= k < Clamp(NFreq(m)) ==>
              FreqValue(lines[m.freq + 1 + k], conv) == Some(Freqs(lines, m, conv, |lines|)[k])
  {
    FreqsShape(lines, m, conv, |lines|);
    forall k | 0 <= k < Clamp(NFreq(m))
      ensures FreqValue(lines[m.freq + 1 + k], conv) == Some(Freqs(lines, m, conv, |lines|)[k])
    {
      assert LineOk(lines, m, conv, m.freq + 1 + k);
    }
  }

  /** A successful load has exactly `n_freq` data lines: fewer leave a slot at its
      initial 0, more overrun `data_temp`. */
  lemma DataLinesMatchFrequencies(lines: seq<string>, table: seq<string>, conv: Conv, h: Header, sunspot: int)
    requires LoadOk(lines, table, conv, h, sunspot)
    ensures FindMarkers(lines).Some?
    ensures DataCount(FindMarkers(lines).value) == NFreq(FindMarkers(lines).value) >= 1
  {
    var m := FindMarkers(lines).value;
    var slots := Slots(lines, m, conv);
    assert slots[NFreq(m) - 1].Some?;
    assert DataCount(m) >= 1;
    assert LineOk(lines, m, conv, m.endData - 1);
  }

  /** The last `KEY = VALUE` line wins. */
  lemma {:induction false} LastFieldWins(lines: seq<string>, n: nat, key: HeaderKey,
                                         conv: Conv, prev: FieldValue, j: nat)
    requires j < n <= |lines| && KeyOf(lines[j]) == Some(key)
    requires forall k :: j < k < n ==> KeyOf(lines[k]) != Some(key)
    ensures LastField(lines, n, key, conv, prev) == Parse(key, FieldText(lines[j]), conv)
  {
    if n - 1 != j {
      LastFieldWins(lines, n - 1, key, conv, prev, j);
    }
  }

  /** With no `KEY = VALUE` line the attribute keeps its previous value. */
  lemma {:induction false} LastFieldAbsent(lines: seq<string>, n: nat, key: HeaderKey,
                                           conv: Conv, prev: FieldValue)
    requires n <= |lines|
    requires forall k :: 0 <= k < n ==> KeyOf(lines[k]) != Some(key)
    ensures LastField(lines, n, key, conv, prev) == prev
  {
    if n > 0 {
      LastFieldAbsent(lines, n - 1, key, conv, prev);
    }
  }

  /** Each header attribute after the scan is the value of its last
      `KEY = VALUE` line. */
  lemma {:induction false} HeaderAfterFields(lines: seq<string>, n: nat, h: Header, conv: Conv, key: HeaderKey)
    requires n <= |lines|
    ensures Get(HeaderAfter(lines, n, h, conv), key) == LastField(lines, n, key, conv, Get(h, key))
  {
    if n > 0 {
      HeaderAfterFields(lines, n - 1, h, conv, key);
    }
  }

  /** Sunspot lookup: with no line matching (year, month, day) the number keeps
      its previous value. */
  lemma {:induction false} SunspotNoMatch(table: seq<string>, date: Option<DateTime>, cur: int, conv: Conv)
    requires SunspotScan(table, date, cur, conv).Some?
    requires forall i :: 0 <= i < |table| ==> !IsMatch(table[i], date, conv)
    ensures SunspotScan(table, date, cur, conv) == Some(cur)
  {
    if table != [] {
      assert !IsMatch(table[0], date, conv);
      forall j | 0 <= j < |table[1..]| ensures !IsMatch(table[1..][j], date, conv) {
        assert table[1..][j] == table[j + 1];
      }
      SunspotNoMatch(table[1..], date, cur, conv);
    }
  }

  /** Sunspot lookup: the last line matching (year, month, day) sets the number. */
  lemma {:induction false} SunspotLastMatchWins(table: seq<string>, date: Option<DateTime>, cur: int, conv: Conv, i: nat)
    requires SunspotScan(table, date, cur, conv).Some?
    requires i < |table| && IsMatch(table[i], date, conv)
    requires forall j :: i < j < |table| ==> !IsMatch(table[j], date, conv)
    ensures SunspotScan(table, date, cur, conv) == Some(SunspotLine(table[i], date, conv).value.value)
  {
    var step := SunspotLine(table[0], date, conv);
    var next := if step.value.Some? then step.value.value else cur;
    forall j | i - 1 < j < |table[1..]| ensures !IsMatch(table[1..][j], date, conv) {
      assert table[1..][j] == table[j + 1];
    }
    if i == 0 {
      SunspotNoMatch(table[1..], date, next, conv);
    } else {
      assert table[1..][i - 1] == table[i];
      SunspotLastMatchWins(table[1..], date, next, conv, i - 1);
    }
  }


  // ---------------------------------------------------------------------------
  // Plotting accessors

  /** `freq_to_coord`: `log(freq, frequencies[1] / frequencies[0])`; `None` where
      Python raises (fewer than two frequencies, a zero first frequency, a
      non-positive argument or base, or base 1). */
  function FreqToCoord(freqs: seq<real>, freq: real, conv: Conv): (r: Option<real>)
    ensures r.Some? <==> |freqs| >= 2 && freqs[0] != 0.0 && freq > 0.0
                         && freqs[1] / freqs[0] > 0.0 && freqs[1] / freqs[0] != 1.0
    ensures r.Some? ==> r.value == conv.log(freq, freqs[1] / freqs[0])
  {
    if |freqs| < 2 || freqs[0] == 0.0 then None
    else
      var step := freqs[1] / freqs[0];
      if freq <= 0.0 || step <= 0.0 || step == 1.0 then None
      else Some(conv.log(freq, step))
  }

  /** `coord_to_freq`: `(frequencies[1] / frequencies[0]) ** coord`; `None` where
      Python raises (fewer than two frequencies, a zero first frequency, or a power
      Python refuses). */
  function CoordToFreq(freqs: seq<real>, coord: real, conv: Conv): (r: Option<real>)
    ensures (|freqs| < 2 || freqs[0] == 0.0) ==> r.None?
    ensures |freqs| >= 2 && freqs[0] != 0.0 ==> r == conv.pow(freqs[1] / freqs[0], coord)
  {
    if |freqs| < 2 || freqs[0] == 0.0 then None
    else conv.pow(freqs[1] / freqs[0], coord)
  }

  /** `math.log(x, b)` and `b ** c` undo each other wherever the logarithm is
      defined: an exact identity, which floating-point results only approximate. */
  ghost predicate PowInvertsLog(conv: Conv) {
    forall x: real, b: real {:trigger conv.log(x, b)} ::
      0.0 < x && 0.0 < b && b != 1.0 ==> conv.pow(b, conv.log(x, b)) == Some(x)
  }

  ghost predicate LogInvertsPow(conv: Conv) {
    forall b: real, c: real {:trigger conv.pow(b, c)} ::
      0.0 < b && b != 1.0 && conv.pow(b, c).Some? ==>
        conv.pow(b, c).value > 0.0 && conv.log(conv.pow(b, c).value, b) == c
  }

  /** A frequency placed on the axis by `freq_to_coord` is read back by
      `coord_to_freq`, as a click on a tick gives the tick's frequency. */
  lemma FreqCoordRoundTrip(freqs: seq<real>, freq: real, conv: Conv)
    requires PowInvertsLog(conv)
    requires FreqToCoord(freqs, freq, conv).Some?
    ensures CoordToFreq(freqs, FreqToCoord(freqs, freq, conv).value, conv) == Some(freq)
  {
    var step := freqs[1] / freqs[0];
    assert conv.pow(step, conv.log(freq, step)) == Some(freq);
  }

  /** A coordinate turned into a frequency by `coord_to_freq` goes back to the same
      coordinate under `freq_to_coord`. */
  lemma CoordFreqRoundTrip(freqs: seq<real>, coord: real, conv: Conv)
    requires LogInvertsPow(conv)
    requires CoordToFreq(freqs, coord, conv).Some?
    requires freqs[1] / freqs[0] > 0.0 && freqs[1] / freqs[0] != 1.0
    ensures FreqToCoord(freqs, CoordToFreq(freqs, coord, conv).value, conv) == Some(coord)
  {
    var step := freqs[1] / freqs[0];
    assert conv.pow(step, coord).Some?;
  }

  /** `coord_to_freq(float(x))` for an integer `x`. */
  function CoordToFreqAt(freqs: seq<real>, x: int, conv: Conv): Option<real> {
    CoordToFreq(freqs, x as real, conv)
  }

  datatype Extent = Extent(left: real, right: real, bottom: real, top: real)

  /** `get_extent`. */
  function GetExtent(freqs: seq<real>, ranges: seq<real>, conv: Conv): (r: Option<Extent>)
    ensures r.Some? <==> |freqs| >= 1 && |ranges| >= 1
                         && FreqToCoord(freqs, freqs[0], conv).Some?
                         && FreqToCoord(freqs, freqs[|freqs| - 1], conv).Some?
    ensures r.Some? ==>
      r.value.left == FreqToCoord(freqs, freqs[0], conv).value
      && r.value.right == FreqToCoord(freqs, freqs[|freqs| - 1], conv).value
      && r.value.bottom == ranges[0] && r.value.top == ranges[|ranges| - 1]
  {
    if |freqs| == 0 || |ranges| == 0 then None
    else
      match FreqToCoord(freqs, freqs[0], conv)
      case None => None
      case Some(left) =>
        match FreqToCoord(freqs, freqs[|freqs| - 1], conv)
        case None => None
        case Some(right) => Some(Extent(left, right, ranges[0], ranges[|ranges| - 1]))
  }

  /** On a loaded sounding the extent spans the first to the last frequency
      coordinate and the heights `z0` to `z0 + dz*(n_rang-1)`; with `dz > 0` and two
      or more heights the bottom lies below the top. */
  lemma LoadedExtent(freqs: seq<real>, z0: real, dz: real, nRang: nat, conv: Conv)
    requires nRang >= 1 && |freqs| >= 1
    requires FreqToCoord(freqs, freqs[0], conv).Some? && FreqToCoord(freqs, freqs[|freqs| - 1], conv).Some?
    ensures GetExtent(freqs, Ranges(z0, dz, nRang), conv)
            == Some(Extent(FreqToCoord(freqs, freqs[0], conv).value,
                           FreqToCoord(freqs, freqs[|freqs| - 1], conv).value,
                           z0, z0 + dz * ((nRang - 1) as real)))
    ensures dz > 0.0 && nRang >= 2 ==> z0 < z0 + dz * ((nRang - 1) as real)
  {
    var r := Ranges(z0, dz, nRang);
    assert r[0] == z0 + dz * (0 as real) == z0;
    assert r[nRang - 1] == z0 + dz * ((nRang - 1) as real);
    if dz > 0.0 && nRang >= 2 {
      assert dz * ((nRang - 1) as real) >= dz * 1.0;
    }
  }

  /** `['{:.0f}'.format(coord_to_freq(float(x))) for x in range(lo, hi)]`. */
  function LabelsFrom(freqs: seq<real>, lo: int, hi: int, conv: Conv): (r: Option<seq<string>>)
    ensures r.None? <==> exists x :: lo <= x < hi && CoordToFreqAt(freqs, x, conv).None?
    ensures r.Some? ==>
      |r.value| == Clamp(hi - lo)
      && forall k :: 0 <= k < |r.value| ==>
           CoordToFreqAt(freqs, lo + k, conv).Some?
           && r.value[k] == conv.fixed0(CoordToFreqAt(freqs, lo + k, conv).value)
    decreases hi - lo
  {
    if lo >= hi then Some([])
    else
      match CoordToFreqAt(freqs, lo, conv)
      case None => None
      case Some(f) =>
        match LabelsFrom(freqs, lo + 1, hi, conv)
        case None => None
        case Some(rest) => Some([conv.fixed0(f)] + rest)
  }

  /** `list(set(s))`: each element once. The order Python's set gives is not
      specified; this keeps the last occurrence of each element. */
  function Dedup(s: seq<string>): (r: seq<string>)
    ensures forall x :: x in r <==> x in s
    ensures forall i, j :: 0 <= i < j < |r| ==> r[i] != r[j]
  {
    if s == [] then []
    else if s[0] in s[1..] then Dedup(s[1..])
    else [s[0]] + Dedup(s[1..])
  }

  /** `get_freq_labels`: defined when the extent is and every integer coordinate from
      `int(left)` below `int(right)` has a frequency; no label twice. */
  function GetFreqLabels(freqs: seq<real>, ranges: seq<real>, conv: Conv): (r: Option<seq<string>>)
    ensures r.Some? <==>
      GetExtent(freqs, ranges, conv).Some?
      && var e := GetExtent(freqs, ranges, conv).value;
         forall x :: Trunc(e.left) <= x < Trunc(e.right) ==> CoordToFreqAt(freqs, x, conv).Some?
    ensures r.Some? ==> forall i, j :: 0 <= i < j < |r.value| ==> r.value[i] != r.value[j]
  {
    match GetExtent(freqs, ranges, conv)
    case None => None
    case Some(e) =>
      match LabelsFrom(freqs, Trunc(e.left), Trunc(e.right), conv)
      case None => None
      case Some(labels) => Some(Dedup(labels))
  }

  /** The tick labels have no duplicates, and they are exactly the rounded
      frequencies of the integer coordinates from `int(left)` up to, not including,
      `int(right)`. */
  lemma FreqLabelsDistinct(freqs: seq<real>, ranges: seq<real>, conv: Conv)
    requires GetFreqLabels(freqs, ranges, conv).Some?
    ensures var labels := GetFreqLabels(freqs, ranges, conv).value;
            var e := GetExtent(freqs, ranges, conv).value;
            (forall i, j :: 0 <= i < j < |labels| ==> labels[i] != labels[j])
            && (forall s :: s in labels <==>
                  exists x :: Trunc(e.left) <= x < Trunc(e.right)
                              && CoordToFreqAt(freqs, x, conv).Some?
                              && s == conv.fixed0(CoordToFreqAt(freqs, x, conv).value))
  {
    var e := GetExtent(freqs, ranges, conv).value;
    LabelsFromMembers(freqs, Trunc(e.left), Trunc(e.right), conv);
  }

  /** The labels of `LabelsFrom` are the rounded frequencies of `lo` up to `hi`. */
  lemma LabelsFromMembers(freqs: seq<real>, lo: int, hi: int, conv: Conv)
    requires LabelsFrom(freqs, lo, hi, conv).Some?
    ensures forall s :: s in LabelsFrom(freqs, lo, hi, conv).value <==>
              exists x :: lo <= x < hi && CoordToFreqAt(freqs, x, conv).Some?
                          && s == conv.fixed0(CoordToFreqAt(freqs, x, conv).value)
  {
    var raw := LabelsFrom(freqs, lo, hi, conv).value;
    forall s
      ensures s in raw <==>
                exists x :: lo <= x < hi && CoordToFreqAt(freqs, x, conv).Some?
                            && s == conv.fixed0(CoordToFreqAt(freqs, x, conv).value)
    {
      if s in raw {
        var k :| 0 <= k < |raw| && raw[k] == s;
        assert lo <= lo + k < hi;
      }
      if exists x :: lo <= x < hi && CoordToFreqAt(freqs, x, conv).Some?
                     && s == conv.fixed0(CoordToFreqAt(freqs, x, conv).value) {
        var x :| lo <= x < hi && CoordToFreqAt(freqs, x, conv).Some?
                 && s == conv.fixed0(CoordToFreqAt(freqs, x, conv).value);
        assert raw[x - lo] == s;
      }
    }
  }

  /** The position of one tick: `freq_to_coord` of the label read back as a float. */
  function TicOf(freqs: seq<real>, lbl: string, conv: Conv): Option<real> {
    match conv.toFloat(lbl)
    case None => None
    case Some(x) => FreqToCoord(freqs, x, conv)
  }

  /** `[freq_to_coord(x) for x in labels]`. */
  function TicsOf(freqs: seq<real>, labels: seq<string>, conv: Conv): (r: Option<seq<real>>)
    ensures r.Some? <==> forall i :: 0 <= i < |labels| ==> TicOf(freqs, labels[i], conv).Some?
    ensures r.Some? ==>
      |r.value| == |labels| && forall i :: 0 <= i < |labels| ==> TicOf(freqs, labels[i], conv) == Some(r.value[i])
  {
    if labels == [] then Some([])
    else
      match TicOf(freqs, labels[0], conv)
      case None => None
      case Some(t) =>
        match TicsOf(freqs, labels[1..], conv)
        case None =>
          assert exists i :: 0 <= i < |labels[1..]| && TicOf(freqs, labels[1..][i], conv).None?;
          None
        case Some(rest) => Some([t] + rest)
  }

  /** `get_freq_tics`: one tick position per label, each the label's frequency on the
      axis; `None` if the labels are, or if any label fails to convert. */
  function GetFreqTics(freqs: seq<real>, ranges: seq<real>, conv: Conv): (r: Option<seq<real>>)
    ensures r.Some? <==>
      GetFreqLabels(freqs, ranges, conv).Some?
      && forall i :: 0 <= i < |GetFreqLabels(freqs, ranges, conv).value| ==>
           TicOf(freqs, GetFreqLabels(freqs, ranges, conv).value[i], conv).Some?
    ensures r.Some? ==>
      var labels := GetFreqLabels(freqs, ranges, conv).value;
      |r.value| == |labels| && forall i :: 0 <= i < |labels| ==> TicOf(freqs, labels[i], conv) == Some(r.value[i])
  {
    match GetFreqLabels(freqs, ranges, conv)
    case None => None
    case Some(labels) => TicsOf(freqs, labels, conv)
  }
}
