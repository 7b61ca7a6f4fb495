/** The annotation side of the viewer window (app.py): the three layers E, F1
    and F2, each with a critical-frequency spin box and a list of clicked
    points; the layer mode that decides which of them a click edits; the `.STD`
    companion file that saves and restores them; and the navigation among the
    sounding files of a directory. Widgets are kept abstract: a spin box is its
    value, a list widget its item texts, and each has an enabled flag. */
module Viewer {
  import opened Wrappers
  import opened Text
  import opened Conversions
  import Iono

  const END: string := "END"
  /** What `save_std` writes for a critical frequency that is not set. */
  const UNSET: string := "99.0"

  // ---------------------------------------------------------------------------
  // Layers and modes

  datatype Layer = E | F1 | F2

  /** One value per layer (a spin box or a list widget for each of E, F1, F2). */
  datatype PerLayer<T> = PerLayer(e: T, f1: T, f2: T) {
    function Get(l: Layer): T {
      match l
      case E => e
      case F1 => f1
      case F2 => f2
    }

    /** The same values with layer `l`'s replaced by `v`. */
    function Set(l: Layer, v: T): (r: PerLayer<T>)
      ensures r.Get(l) == v
      ensures forall k :: k != l ==> r.Get(k) == Get(k)
    {
      match l
      case E => this.(e := v)
      case F1 => this.(f1 := v)
      case F2 => this.(f2 := v)
    }
  }

  /** The layer a mode edits: 0 is F2, 1 is F1, 2 is E; any other mode none. */
  function ActiveLayer(mode: int): (r: Option<Layer>)
    ensures r.Some? <==> 0 <= mode <= 2
    ensures r == Some(F2) <==> mode == 0
    ensures r == Some(F1) <==> mode == 1
    ensures r == Some(E) <==> mode == 2
  {
    if mode == 0 then Some(F2)
    else if mode == 1 then Some(F1)
    else if mode == 2 then Some(E)
    else None
  }

  /** `change_layer`'s choice of the next mode. */
  function NextMode(mode: int): (r: int)
    ensures 0 <= mode <= 2 ==> 0 <= r <= 2 && r != mode
  {
    if mode < 2 then mode + 1 else 0
  }

  /** Cycling the layer three times from any of the three modes returns to it,
      visiting F2, F1 and E in that order. */
  lemma ChangeLayerCycle(mode: int)
    requires 0 <= mode <= 2
    ensures NextMode(NextMode(NextMode(mode))) == mode
    ensures ActiveLayer(mode) == Some(F2) ==> ActiveLayer(NextMode(mode)) == Some(F1)
    ensures ActiveLayer(mode) == Some(F1) ==> ActiveLayer(NextMode(mode)) == Some(E)
    ensures ActiveLayer(mode) == Some(E) ==> ActiveLayer(NextMode(mode)) == Some(F2)
  {
  }

  /** Python truthiness of a mouse coordinate: absent and zero are both false. */
  predicate Truthy(x: Option<real>) {
    x.Some? && x.value != 0.0
  }

  // ---------------------------------------------------------------------------
  // The `.STD` file as written by `save_std`

  /** A critical frequency `save_std` writes as the "unset" sentinel. */
  predicate Unset(v: real) {
    Abs(v - 99.0) < 1.0 || Abs(v) < 0.1
  }

  /** A critical frequency read back that `load_text_info` applies to its spin box. */
  predicate Applies(fo: real) {
    Abs(fo - 99.0) > 1.0
  }

  /** The critical-frequency line of one layer. */
  function CriticalText(v: real, conv: Conv): string {
    if Unset(v) then UNSET else conv.show(v)
  }

  /** The coordinates line: latitude, longitude, gyrofrequency, dip and sunspot
      number separated by single spaces. */
  function CoordinatesLine(lat: real, lon: real, gyro: real, dip: real, sunspot: int, conv: Conv): string {
    JoinSpaces([conv.show(lat), conv.show(lon), conv.show(gyro), conv.show(dip), conv.showInt(sunspot)])
  }

  /** The texts separated by single spaces (`'{} {}'.format` and so on). */
  function JoinSpaces(ws: seq<string>): string {
    if ws == [] then []
    else if |ws| == 1 then ws[0]
    else ws[0] + " " + JoinSpaces(ws[1..])
  }

  /** One layer's block: the critical line, the point lines, then END. */
  function Block(v: real, items: seq<string>, conv: Conv): seq<string> {
    [CriticalText(v, conv)] + items + [END]
  }

  /** The lines of the `.STD` file: station, coordinates and date, then the
      blocks of E, F1 and F2. */
  function StdLines(station: string, coords: string, date: string,
                    crit: PerLayer<real>, points: PerLayer<seq<string>>, conv: Conv): (r: seq<string>)
    ensures |r| == 9 + |points.e| + |points.f1| + |points.f2|
    ensures r[..3] == [station, coords, date]
  {
    [station, coords, date]
    + Block(crit.e, points.e, conv) + Block(crit.f1, points.f1, conv) + Block(crit.f2, points.f2, conv)
  }

  /** Where each part of the `.STD` file sits: three header lines, then for E, F1
      and F2 in turn a critical line, the layer's points in list order and END;
      9 lines plus one per point in all. */
  lemma StdLayout(station: string, coords: string, date: string,
                  crit: PerLayer<real>, points: PerLayer<seq<string>>, conv: Conv)
    ensures var s := StdLines(station, coords, date, crit, points, conv);
      var i1 := 4 + |points.e|;
      var i2 := i1 + 2 + |points.f1|;
      var i3 := i2 + 2 + |points.f2|;
      && |s| == 9 + |points.e| + |points.f1| + |points.f2|
      && s[..3] == [station, coords, date]
      && s[3] == CriticalText(crit.e, conv) && s[4..i1] == points.e && s[i1] == END
      && s[i1 + 1] == CriticalText(crit.f1, conv) && s[i1 + 2..i2] == points.f1 && s[i2] == END
      && s[i2 + 1] == CriticalText(crit.f2, conv) && s[i2 + 2..i3] == points.f2 && s[i3] == END
  {
  }

  // ---------------------------------------------------------------------------
  // Reading the `.STD` file back (`load_text_info`)

  /** The critical frequencies and point lists of the three layers. */
  datatype Annotations = Annotations(critical: PerLayer<real>, points: PerLayer<seq<string>>)

  /** `readline()`: line `i`, or the empty string past the end of the file. */
  function LineAt(lines: seq<string>, i: nat): string {
    if i < |lines| then lines[i] else ""
  }

  /** One point line read back: its first two tokens as floats, formatted again
      as a point; `None` where there are fewer than two tokens or one of them is
      not a float. */
  function PointOf(line: string, conv: Conv): (r: Option<string>)
    ensures r.Some? <==>
      |Split(line)| >= 2 && conv.toFloat(Split(line)[0]).Some? && conv.toFloat(Split(line)[1]).Some?
    ensures r.Some? ==>
      r.value == conv.pointText(conv.toFloat(Split(line)[0]).value, conv.toFloat(Split(line)[1]).value)
  {
    var s := Split(line);
    if |s| < 2 then None
    else
      match conv.toFloat(s[0])
      case None => None
      case Some(f) =>
        match conv.toFloat(s[1])
        case None => None
        case Some(h) => Some(conv.pointText(f, h))
  }

  /** The point lines from line `i` up to the next END: the points read and the
      line after that END, or the points read before a malformed line or the end
      of the file (`None`). */
  function ReadPoints(lines: seq<string>, i: nat, conv: Conv): (r: (seq<string>, Option<nat>))
    ensures r.1.Some? ==> i < r.1.value <= |lines|
    decreases |lines| - i
  {
    if i >= |lines| then ([], None)   // readline() gives '', which has no tokens
    else
      var line := Strip(lines[i]);
      if line == END then ([], Some(i + 1))
      else
        match PointOf(line, conv)
        case None => ([], None)
        case Some(p) =>
          var rest := ReadPoints(lines, i + 1, conv);
          ([p] + rest.0, rest.1)
  }

  /** One layer's block from line `i`: the critical frequency (applied only when
      it is more than 1 away from the sentinel), then the points appended to the
      layer's list. The second component is the line after the block's END, or
      `None` where reading failed; the annotations then hold what was read before. */
  function ReadBlock(lines: seq<string>, i: nat, conv: Conv, a: Annotations, l: Layer): (r: (Annotations, Option<nat>))
    ensures r.1.Some? ==> i < r.1.value <= |lines|
    ensures Extends(a, r.0, [l])
  {
    match conv.toFloat(Strip(LineAt(lines, i)))
    case None => (a, None)
    case Some(fo) =>
      var c := if Applies(fo) then a.critical.Set(l, fo) else a.critical;
      var rp := ReadPoints(lines, i + 1, conv);
      (Annotations(c, a.points.Set(l, a.points.Get(l) + rp.0)), rp.1)
  }

  /** `load_text_info` on the lines of an existing `.STD` file, from annotations
      `a`: the description line is skipped, the coordinates line must hold exactly
      five tokens, the date line is skipped, then the E, F1 and F2 blocks are read
      in turn. The flag says whether all of it was read. */
  function ReadStd(lines: seq<string>, conv: Conv, a: Annotations): (r: (Annotations, bool))
    ensures |Split(Strip(LineAt(lines, 1)))| != 5 ==> r == (a, false)
    ensures Extends(a, r.0, [E, F1, F2])
  {
    if |Split(Strip(LineAt(lines, 1)))| != 5 then (a, false)
    else ReadBlocks(lines, 3, conv, a, [E, F1, F2])
  }

  /** The blocks of `layers` read one after the other from line `i`; reading
      stops at the first block that is cut short. */
  function ReadBlocks(lines: seq<string>, i: nat, conv: Conv, a: Annotations, layers: seq<Layer>): (r: (Annotations, bool))
    ensures Extends(a, r.0, layers)
    decreases |layers|
  {
    if layers == [] then (a, true)
    else
      var b := ReadBlock(lines, i, conv, a, layers[0]);
      if b.1.None? then (b.0, false)
      else
        var r := ReadBlocks(lines, b.1.value, conv, b.0, layers[1..]);
        ExtendsTrans(a, b.0, r.0, [layers[0]], layers[1..]);
        assert [layers[0]] + layers[1..] == layers;
        r
  }

  /** Reading blocks of `layers` only appends to the point lists, leaves the other
      layers alone, and changes a critical only to a value `load_text_info`
      applies. */
  predicate Extends(a: Annotations, b: Annotations, layers: seq<Layer>) {
    forall l ::
      && a.points.Get(l) <= b.points.Get(l)
      && (b.critical.Get(l) == a.critical.Get(l) || Applies(b.critical.Get(l)))
      && (l !in layers ==> b.points.Get(l) == a.points.Get(l) && b.critical.Get(l) == a.critical.Get(l))
  }

  lemma ExtendsTrans(a: Annotations, b: Annotations, c: Annotations, xs: seq<Layer>, ys: seq<Layer>)
    requires Extends(a, b, xs) && Extends(b, c, ys)
    ensures Extends(a, c, xs + ys)
  {
    forall l ensures a.points.Get(l) <= c.points.Get(l) {
      assert a.points.Get(l) <= b.points.Get(l) <= c.points.Get(l);
    }
  }

  // ---------------------------------------------------------------------------
  // The round trip

  /** Point texts that read back: none strips to END, and each has two float
      tokens. */
  predicate PointsReadBack(items: seq<string>, conv: Conv) {
    forall k :: 0 <= k < |items| ==> Strip(items[k]) != END && PointOf(Strip(items[k]), conv).Some?
  }

  /** The point texts as `load_text_info` formats them again. */
  function Reread(items: seq<string>, conv: Conv): (r: seq<string>)
    requires PointsReadBack(items, conv)
    ensures |r| == |items|
    ensures forall k :: 0 <= k < |items| ==> PointOf(Strip(items[k]), conv) == Some(r[k])
  {
    if items == [] then [] else [PointOf(Strip(items[0]), conv).value] + Reread(items[1..], conv)
  }

  /** Point lines followed by END read back as those points, reformatted, and
      reading resumes after the END. */
  lemma {:induction false} ReadPointsOfWritten(pre: seq<string>, items: seq<string>, post: seq<string>, conv: Conv)
    requires PointsReadBack(items, conv)
    ensures ReadPoints(pre + items + [END] + post, |pre|, conv) == (Reread(items, conv), Some(|pre| + |items| + 1))
    decreases |items|
  {
    var lines := pre + items + [END] + post;
    if items == [] {
      assert lines[|pre|] == END;
      assert Strip(END) == END;
    } else {
      assert lines[|pre|] == items[0];
      assert lines == (pre + [items[0]]) + items[1..] + [END] + post;
      ReadPointsOfWritten(pre + [items[0]], items[1..], post, conv);
    }
  }

  /** A critical frequency survives saving and loading exactly when it is more
      than 1 away from 99 and at least 0.1 in size. */
  predicate Restores(v: real) {
    !Unset(v) && Applies(v)
  }

  /** The critical values after reading a saved file over `prev`. */
  function Restored(prev: PerLayer<real>, crit: PerLayer<real>): PerLayer<real> {
    PerLayer(if Restores(crit.e) then crit.e else prev.e,
             if Restores(crit.f1) then crit.f1 else prev.f1,
             if Restores(crit.f2) then crit.f2 else prev.f2)
  }

  /** The float conversions the round trip relies on: the sentinel reads as 99.0
      and every critical that is written as itself reads back as itself. */
  predicate CriticalsReadBack(crit: PerLayer<real>, conv: Conv) {
    && conv.toFloat(UNSET) == Some(99.0)
    && ShownReadsBack(crit.e, conv) && ShownReadsBack(crit.f1, conv) && ShownReadsBack(crit.f2, conv)
  }

  /** A critical frequency that is written as a number reads back as itself. */
  predicate ShownReadsBack(v: real, conv: Conv) {
    !Unset(v) ==> conv.toFloat(Strip(conv.show(v))) == Some(v)
  }

  /** The critical line of a block reads back as the value written, or as 99.0
      for the sentinel. */
  lemma CriticalLineReadBack(v: real, conv: Conv)
    requires conv.toFloat(UNSET) == Some(99.0)
    requires ShownReadsBack(v, conv)
    ensures CriticalText(v, conv) == UNSET <==> Unset(v)
    ensures conv.toFloat(Strip(CriticalText(v, conv))) == Some(if Unset(v) then 99.0 else v)
    ensures Applies(conv.toFloat(Strip(CriticalText(v, conv))).value) <==> Restores(v)
  {
  }

  /** One written block (critical line, point lines, END) read back. */
  lemma ReadBlockOfWritten(lines: seq<string>, i: nat, pre: seq<string>, v: real, items: seq<string>, post: seq<string>,
                           conv: Conv, a: Annotations, l: Layer)
    requires lines == pre + Block(v, items, conv) + post && i == |pre|
    requires PointsReadBack(items, conv)
    requires conv.toFloat(UNSET) == Some(99.0)
    requires ShownReadsBack(v, conv)
    ensures ReadBlock(lines, i, conv, a, l) == (BlockRead(v, items, conv, a, l), Some(i + |items| + 2))
  {
    assert lines == (pre + [CriticalText(v, conv)]) + items + [END] + post;
    assert LineAt(lines, |pre|) == CriticalText(v, conv);
    CriticalLineReadBack(v, conv);
    var fo := conv.toFloat(Strip(LineAt(lines, |pre|)));
    assert fo == Some(if Unset(v) then 99.0 else v);
    ReadPointsOfWritten(pre + [CriticalText(v, conv)], items, post, conv);
    var rp := ReadPoints(lines, |pre| + 1, conv);
    assert rp == (Reread(items, conv), Some(|pre| + |items| + 2));
    var c := if Applies(fo.value) then a.critical.Set(l, fo.value) else a.critical;
    assert c == if Restores(v) then a.critical.Set(l, v) else a.critical;
  }

  /** The ways the four parts of the file can be grouped around one block. */
  lemma Regroup<T>(h: seq<T>, x: seq<T>, y: seq<T>, z: seq<T>)
    ensures h + x + y + z == h + x + (y + z) == (h + x) + y + z == (h + x + y) + z + []
  {
  }

  /** What reading back a block written from `v` and `items` makes of the
      annotations `a` on layer `l`. */
  function BlockRead(v: real, items: seq<string>, conv: Conv, a: Annotations, l: Layer): Annotations
    requires PointsReadBack(items, conv)
  {
    Annotations(if Restores(v) then a.critical.Set(l, v) else a.critical,
                a.points.Set(l, a.points.Get(l) + Reread(items, conv)))
  }

  /** The line at which the block of layer `l` starts in the `.STD` file. */
  function BlockStart(points: PerLayer<seq<string>>, l: Layer): nat {
    match l
    case E => 3
    case F1 => 3 + |points.e| + 2
    case F2 => 3 + |points.e| + 2 + |points.f1| + 2
  }

  /** Each layer's block of a written `.STD` file reads back on its own. */
  lemma StdBlockRead(station: string, coords: string, date: string,
                     crit: PerLayer<real>, points: PerLayer<seq<string>>, conv: Conv, a: Annotations, l: Layer, i: nat)
    requires CriticalsReadBack(crit, conv) && PointsReadBack(points.Get(l), conv)
    requires i == BlockStart(points, l)
    ensures ReadBlock(StdLines(station, coords, date, crit, points, conv), i, conv, a, l)
         == (BlockRead(crit.Get(l), points.Get(l), conv, a, l), Some(i + |points.Get(l)| + 2))
  {
    var head := [station, coords, date];
    var be, b1, b2 := Block(crit.e, points.e, conv), Block(crit.f1, points.f1, conv), Block(crit.f2, points.f2, conv);
    var s := StdLines(station, coords, date, crit, points, conv);
    Regroup(head, be, b1, b2);
    match l
    case E =>
      ReadBlockOfWritten(s, 3, head, crit.e, points.e, b1 + b2, conv, a, E);
    case F1 =>
      ReadBlockOfWritten(s, i, head + be, crit.f1, points.f1, b2, conv, a, F1);
    case F2 =>
      ReadBlockOfWritten(s, i, head + be + b1, crit.f2, points.f2, [], conv, a, F2);
  }

  /** Saving and then loading restores the three point lists in order (each
      point formatted again) and each critical frequency that `Restores`; the
      other criticals keep the value they had before loading. */
  lemma SaveLoadRoundTrip(station: string, coords: string, date: string,
                          crit: PerLayer<real>, points: PerLayer<seq<string>>, conv: Conv, a: Annotations)
    requires |Split(Strip(coords))| == 5
    requires CriticalsReadBack(crit, conv)
    requires PointsReadBack(points.e, conv) && PointsReadBack(points.f1, conv) && PointsReadBack(points.f2, conv)
    ensures ReadStd(StdLines(station, coords, date, crit, points, conv), conv, a)
         == (Annotations(Restored(a.critical, crit),
                         PerLayer(a.points.e + Reread(points.e, conv),
                                  a.points.f1 + Reread(points.f1, conv),
                                  a.points.f2 + Reread(points.f2, conv))),
             true)
  {
    StdBlockWritten(station, coords, date, crit, points, conv, E);
    StdBlockWritten(station, coords, date, crit, points, conv, F1);
    StdBlockWritten(station, coords, date, crit, points, conv, F2);
    assert LineAt(StdLines(station, coords, date, crit, points, conv), 1) == coords;
    ReadStdWritten(StdLines(station, coords, date, crit, points, conv), crit, points, conv, a);
    assert crit.Get(E) == crit.e && crit.Get(F1) == crit.f1 && crit.Get(F2) == crit.f2;
    assert points.Get(E) == points.e && points.Get(F1) == points.f1 && points.Get(F2) == points.f2;
    var x1 := BlockRead(crit.e, points.e, conv, a, E);
    var x2 := BlockRead(crit.f1, points.f1, conv, x1, F1);
    assert x2.critical.Get(E) == x1.critical.Get(E) && x2.points.e == x1.points.e;
  }

  /** Line `i` of `lines` starts a block written from `v` and `items`: whatever
      the annotations, reading it gives `BlockRead` and the line after its END. */
  ghost predicate BlockWrittenAt(lines: seq<string>, i: nat, v: real, items: seq<string>, conv: Conv, l: Layer) {
    && PointsReadBack(items, conv)
    && forall a :: ReadBlock(lines, i, conv, a, l) == (BlockRead(v, items, conv, a, l), Some(i + |items| + 2))
  }

  /** Each layer's block sits where `BlockStart` says. */
  lemma StdBlockWritten(station: string, coords: string, date: string,
                        crit: PerLayer<real>, points: PerLayer<seq<string>>, conv: Conv, l: Layer)
    requires CriticalsReadBack(crit, conv) && PointsReadBack(points.Get(l), conv)
    ensures BlockWrittenAt(StdLines(station, coords, date, crit, points, conv), BlockStart(points, l),
                           crit.Get(l), points.Get(l), conv, l)
  {
    var s, i := StdLines(station, coords, date, crit, points, conv), BlockStart(points, l);
    forall a: Annotations
      ensures ReadBlock(s, i, conv, a, l) == (BlockRead(crit.Get(l), points.Get(l), conv, a, l), Some(i + |points.Get(l)| + 2))
    {
      StdBlockRead(station, coords, date, crit, points, conv, a, l, i);
    }
  }

  /** Lines whose three blocks are written one after the other read back as
      those blocks, applied in the order E, F1, F2. */
  lemma ReadStdWritten(lines: seq<string>, crit: PerLayer<real>, points: PerLayer<seq<string>>, conv: Conv, a: Annotations)
    requires |Split(Strip(LineAt(lines, 1)))| == 5
    requires BlockWrittenAt(lines, BlockStart(points, E), crit.Get(E), points.Get(E), conv, E)
    requires BlockWrittenAt(lines, BlockStart(points, F1), crit.Get(F1), points.Get(F1), conv, F1)
    requires BlockWrittenAt(lines, BlockStart(points, F2), crit.Get(F2), points.Get(F2), conv, F2)
    ensures ReadStd(lines, conv, a)
         == (BlockRead(crit.Get(F2), points.Get(F2), conv,
               BlockRead(crit.Get(F1), points.Get(F1), conv, BlockRead(crit.Get(E), points.Get(E), conv, a, E), F1), F2),
             true)
  {
    var x1 := BlockRead(crit.Get(E), points.Get(E), conv, a, E);
    ReadTailWritten(lines, crit, points, conv, x1);
    assert ReadBlock(lines, 3, conv, a, E) == (x1, Some(BlockStart(points, F1)));
    assert [E, F1, F2][1..] == [F1, F2];
  }

  /** The F1 and F2 blocks, written one after the other, read back. */
  lemma ReadTailWritten(lines: seq<string>, crit: PerLayer<real>, points: PerLayer<seq<string>>, conv: Conv, x1: Annotations)
    requires BlockWrittenAt(lines, BlockStart(points, F1), crit.Get(F1), points.Get(F1), conv, F1)
    requires BlockWrittenAt(lines, BlockStart(points, F2), crit.Get(F2), points.Get(F2), conv, F2)
    ensures ReadBlocks(lines, BlockStart(points, F1), conv, x1, [F1, F2])
         == (BlockRead(crit.Get(F2), points.Get(F2), conv, BlockRead(crit.Get(F1), points.Get(F1), conv, x1, F1), F2), true)
  {
    var x2 := BlockRead(crit.Get(F1), points.Get(F1), conv, x1, F1);
    assert ReadBlock(lines, BlockStart(points, F1), conv, x1, F1) == (x2, Some(BlockStart(points, F2)));
    assert [F1, F2][1..] == [F2] && [F2][1..] == [];
  }

  /** Which critical frequencies come back: those more than 1 away from 99 and
      at least 0.1 in size. */
  lemma RestoredCritical(v: real)
    ensures Restores(v) <==> Abs(v - 99.0) > 1.0 && Abs(v) >= 0.1
  {
  }

  /** A critical of exactly 98.0 or 100.0 is written as itself, not as the
      sentinel, yet loading does not apply it. */
  lemma BoundaryCriticalLost(v: real, conv: Conv)
    requires v == 98.0 || v == 100.0
    ensures CriticalText(v, conv) == conv.show(v)
    ensures !Restores(v)
  {
  }

  /** Text `split()` keeps whole: non-empty and free of white space. */
  predicate IsToken(w: string) {
    w != [] && NoSpace(w)
  }

  /** `Word` of a token followed by white space or nothing is the token. */
  lemma {:induction false} WordOfToken(w: string, rest: string)
    requires NoSpace(w)
    requires rest == [] || IsSpace(rest[0])
    ensures Word(w + rest) == w
    decreases |w|
  {
    if w != [] {
      assert (w + rest)[1..] == w[1..] + rest;
      WordOfToken(w[1..], rest);
    } else {
      assert w + rest == rest;
    }
  }

  /** A token, one space, then more text: `split()` gives the token, then the
      tokens of the rest. */
  lemma SplitAfterToken(w: string, rest: string)
    requires IsToken(w)
    ensures Split(w + " " + rest) == [w] + Split(rest)
  {
    var s := w + " " + rest;
    WordOfToken(w, " " + rest);
    assert s == w + (" " + rest);
    assert s[|w|..] == " " + rest;
    assert (" " + rest)[1..] == rest;
  }

  /** A single token splits into itself. */
  lemma SplitToken(w: string)
    requires IsToken(w)
    ensures Split(w) == [w]
  {
    WordOfToken(w, []);
    assert w + [] == w;
  }

  /** Tokens joined by single spaces split back into those tokens. */
  lemma {:induction false} SplitJoinSpaces(ws: seq<string>)
    requires forall k :: 0 <= k < |ws| ==> IsToken(ws[k])
    ensures Split(JoinSpaces(ws)) == ws
  {
    if |ws| == 1 {
      SplitToken(ws[0]);
    } else if |ws| > 1 {
      SplitJoinSpaces(ws[1..]);
      SplitAfterToken(ws[0], JoinSpaces(ws[1..]));
    }
  }

  /** Texts joined by spaces begin with the first text's first character and end
      with the last text's last character. */
  lemma {:induction false} JoinSpacesEnds(ws: seq<string>)
    requires |ws| >= 1
    requires forall k :: 0 <= k < |ws| ==> ws[k] != []
    ensures var line := JoinSpaces(ws);
      && line != [] && line[0] == ws[0][0]
      && line[|line| - 1] == ws[|ws| - 1][|ws[|ws| - 1]| - 1]
  {
    if |ws| > 1 {
      JoinSpacesEnds(ws[1..]);
      assert ws[1..][|ws[1..]| - 1] == ws[|ws| - 1];
    }
  }

  /** The five fields of the coordinates line read back as five tokens when each
      is printed as a non-empty text without white space. */
  lemma CoordinatesTokens(lat: real, lon: real, gyro: real, dip: real, sunspot: int, conv: Conv)
    requires IsToken(conv.show(lat)) && IsToken(conv.show(lon)) && IsToken(conv.show(gyro))
    requires IsToken(conv.show(dip)) && IsToken(conv.showInt(sunspot))
    ensures Split(Strip(CoordinatesLine(lat, lon, gyro, dip, sunspot, conv)))
         == [conv.show(lat), conv.show(lon), conv.show(gyro), conv.show(dip), conv.showInt(sunspot)]
  {
    var ws := [conv.show(lat), conv.show(lon), conv.show(gyro), conv.show(dip), conv.showInt(sunspot)];
    SplitJoinSpaces(ws);
    JoinSpacesEnds(ws);
    StripTrims(JoinSpaces(ws));
  }

  // ---------------------------------------------------------------------------
  // Sounding file names and the directory list

  /** The sounding file name pattern of `open_file` and `get_filelist`. */
  const ION_PATTERN: string := "????????_????_iono.ion"

  /** `fnmatch` for a pattern whose only wildcard is `?`: every `?` matches one
      character, every other character itself. */
  predicate GlobMatch(s: string, pat: string)
    decreases |pat|
  {
    if pat == [] then s == []
    else s != [] && (pat[0] == '?' || pat[0] == s[0]) && GlobMatch(s[1..], pat[1..])
  }

  /** `GlobMatch` position by position. */
  lemma {:induction false} GlobMatchAt(s: string, pat: string)
    ensures GlobMatch(s, pat) <==> |s| == |pat| && forall i :: 0 <= i < |s| ==> pat[i] == '?' || s[i] == pat[i]
    decreases |pat|
  {
    if pat != [] && s != [] {
      GlobMatchAt(s[1..], pat[1..]);
      if |s| == |pat| && (forall i :: 0 <= i < |s| ==> pat[i] == '?' || s[i] == pat[i]) {
        forall i | 0 <= i < |s[1..]| ensures pat[1..][i] == '?' || s[1..][i] == pat[1..][i] {
          assert pat[i + 1] == '?' || s[i + 1] == pat[i + 1];
        }
      }
    }
  }

  /** `fnmatch(name, '????????_????_iono.ion')`: 22 characters, an underscore at
      position 8, and ending in `_iono.ion`. */
  predicate IsIonName(name: string) {
    |name| == 22 && name[8] == '_' && name[13..] == "_iono.ion"
  }

  /** The three conditions of `IsIonName` are exactly what the pattern asks. */
  lemma IonNamePattern(name: string)
    ensures IsIonName(name) <==> GlobMatch(name, ION_PATTERN)
  {
    GlobMatchAt(name, ION_PATTERN);
    IonNameAt(name, ION_PATTERN);
  }

  /** `IsIonName` position by position against the pattern. */
  lemma IonNameAt(name: string, pat: string)
    requires pat == ION_PATTERN
    ensures IsIonName(name) <==> |name| == |pat| && forall i :: 0 <= i < |name| ==> pat[i] == '?' || name[i] == pat[i]
  {
    var tail := "_iono.ion";
    assert |pat| == 22 && pat[8] == '_' && pat[13..] == tail;
    assert forall i :: 0 <= i < 13 ==> (pat[i] == '?' <==> i != 8);
    if |name| == 22 {
      assert forall i :: 13 <= i < 22 ==> pat[i] == tail[i - 13];
      assert name[13..] == tail <==> forall i :: 13 <= i < 22 ==> name[i] == tail[i - 13];
    }
  }

  /** `path.split(p)[-1]`: the part after the last slash. */
  function BaseName(p: string): string {
    AfterLast(p, '/')
  }

  /** The sounding files of a directory listing, in listing order. */
  function IonFiles(listing: seq<string>): seq<string> {
    if listing == [] then []
    else IonFiles(listing[..|listing| - 1])
         + (if IsIonName(listing[|listing| - 1]) then [listing[|listing| - 1]] else [])
  }

  /** The filter keeps exactly the sounding file names. */
  lemma {:induction false} IonFilesMembers(listing: seq<string>)
    ensures forall x :: x in IonFiles(listing) <==> x in listing && IsIonName(x)
  {
    if listing != [] {
      var init := listing[..|listing| - 1];
      IonFilesMembers(init);
      assert listing == init + [listing[|listing| - 1]];
    }
  }

  /** The filter works piecewise, so it keeps the listing's order. */
  lemma {:induction false} IonFilesAppend(a: seq<string>, b: seq<string>)
    ensures IonFiles(a + b) == IonFiles(a) + IonFiles(b)
    decreases |b|
  {
    if b == [] {
      assert a + b == a;
    } else {
      var init := b[..|b| - 1];
      assert a + b == (a + init) + [b[|b| - 1]];
      assert (a + b)[..|a + b| - 1] == a + init;
      IonFilesAppend(a, init);
    }
  }

  /** `get_filelist` over the directory listing `listing`. */
  method GetFileList(listing: seq<string>) returns (result: seq<string>)
    ensures result == IonFiles(listing)
  {
    result := [];
    for i := 0 to |listing|
      invariant result == IonFiles(listing[..i])
    {
      assert listing[..i + 1][..i] == listing[..i];
      if IsIonName(listing[i]) {
        result := result + [listing[i]];
      }
    }
    assert listing[..|listing|] == listing;
  }

  /** Which file a navigation action opens. */
  datatype Nav =
    | Stay                   // no file is open, or there is no file in that direction
    | NotListed              // `filenames.index` raises: the open file is not in the list
    | NoFiles                // `filenames[0]` or `filenames[-1]` raises: the list is empty
    | Open(name: string)     // `open_file` of this list entry in the same directory

  /** What the window does with `open_file`. */
  datatype OpenOutcome =
    | Rejected             // empty name, or a base name not of the sounding pattern
    | LoadFailed           // `RianIono.load` raised
    | PlotFailed           // the extent or the frequency ticks could not be computed
    | Opened(text: TextOutcome)

  /** What `load_text_info` found. */
  datatype TextOutcome = NoText | TextRead | TextMalformed

  /** The choice made in a list's context menu. */
  datatype MenuChoice = Dismissed | DeleteItem(row: int) | DeleteAll

  /** Zero criticals and empty point lists (`clear_all`). */
  const NO_ANNOTATIONS: Annotations := Annotations(PerLayer(0.0, 0.0, 0.0), PerLayer([], [], []))

  /** The `fohE`, `fohF1`, `fohF2` loops of `save_std`: one line per list item,
      in list order. */
  method PointBlock(items: seq<string>) returns (foh: seq<string>)
    ensures foh == items
  {
    foh := [];
    for i := 0 to |items|
      invariant foh == items[..i]
    {
      foh := foh + [items[i]];
    }
  }

  /** A fresh sounding loads from these lines. */
  predicate Loads(lines: seq<string>, table: seq<string>, conv: Conv) {
    Iono.LoadOk(lines, table, conv, Iono.Header(None, None, None, None, None), 0)
  }

  /** The main window's annotation state. */
  class MainWindow {
    var mode: int
    var spinOn: PerLayer<bool>            // doubleSpinBoxE/F1/F2 enabled
    var listOn: PerLayer<bool>            // listWidgetE/F1/F2 enabled
    var critical: PerLayer<real>          // doubleSpinBoxE/F1/F2 values
    var mBoxes: PerLayer<real>            // doubleSpinBoxEm/F1m/F2m: a frequency set by button 2
    var points: PerLayer<seq<string>>     // listWidgetE/F1/F2 item texts
    var fileName: string
    var iono: Iono.RianIono?

    function Annotated(): Annotations
      reads this`critical, this`points
    {
      Annotations(critical, points)
    }

    /** Exactly the spin box and the list of the layer of `m` are enabled. */
    ghost predicate EnabledFor(m: int)
      reads this`spinOn, this`listOn
    {
      forall l :: (spinOn.Get(l) <==> ActiveLayer(m) == Some(l)) && (listOn.Get(l) <==> ActiveLayer(m) == Some(l))
    }

    /** The state `clear_all` leaves: mode F2, no annotations, no file. */
    ghost predicate Cleared()
      reads this`mode, this`spinOn, this`listOn, this`critical, this`points, this`fileName, this`iono
    {
      mode == 0 && EnabledFor(0) && Annotated() == NO_ANNOTATIONS && fileName == [] && iono == null
    }

    /** `__init__`: mode F2 and everything cleared. */
    constructor ()
      ensures Cleared() && mBoxes == PerLayer(0.0, 0.0, 0.0)
      ensures 0 <= mode <= 2
    {
      mBoxes := PerLayer(0.0, 0.0, 0.0);
      new;
      ClearAll();
    }

    /** `change_mode`: every spin box and list disabled, then those of the
        layer of `m` enabled. */
    method ChangeMode(m: int)
      requires 0 <= m <= 2   // the three radio buttons and `clear_all` pass 0, 1 or 2
      modifies this`mode, this`spinOn, this`listOn
      ensures mode == m && EnabledFor(m)
      ensures 0 <= mode <= 2
    {
      mode := m;
      spinOn := PerLayer(false, false, false);
      listOn := PerLayer(false, false, false);
      if m == 0 {
        spinOn := spinOn.Set(F2, true);
        listOn := listOn.Set(F2, true);
      } else if m == 1 {
        spinOn := spinOn.Set(F1, true);
        listOn := listOn.Set(F1, true);
      } else if m == 2 {
        spinOn := spinOn.Set(E, true);
        listOn := listOn.Set(E, true);
      }
    }

    /** `change_layer`: checking the next radio button, whose `toggled` signal
        calls `change_mode` with the next mode. */
    method ChangeLayer()
      requires 0 <= mode <= 2
      modifies this`mode, this`spinOn, this`listOn
      ensures mode == NextMode(old(mode)) && EnabledFor(mode)
      ensures 0 <= mode <= 2
    {
      var m := if mode < 2 then mode + 1 else 0;
      ChangeMode(m);
    }

    /** `clear_all`. */
    method ClearAll()
      modifies this`mode, this`spinOn, this`listOn, this`critical, this`points, this`fileName, this`iono
      ensures Cleared() && 0 <= mode <= 2
    {
      iono := null;
      fileName := [];
      ChangeMode(0);
      critical := PerLayer(0.0, 0.0, 0.0);
      points := PerLayer([], [], []);
    }

    /** `close_file`. */
    method CloseFile()
      modifies this`mode, this`spinOn, this`listOn, this`critical, this`points, this`fileName, this`iono
      ensures Cleared()
    {
      ClearAll();
      iono := null;
      fileName := [];
    }

    /** The annotation effect of `onclick` at plot coordinates `x`, `y`: with
        both coordinates non-zero, the frequency of `x` rounded to two decimals
        goes to the active layer only, as a new point (left button), its
        critical frequency (right button) or its height box (middle button). */
    method OnClick(x: Option<real>, y: Option<real>, button: int, conv: Conv)
      modifies this`points, this`critical, this`mBoxes
      ensures var l := ActiveLayer(mode);
        var f := if Truthy(x) && Truthy(y) && iono != null
                 then Iono.CoordToFreq(iono.frequencies, x.value, conv) else None;
        var hit := f.Some? && l.Some?;
        && points == (if hit && button == 1
                      then old(points).Set(l.value, old(points).Get(l.value) + [conv.pointText(conv.round2(f.value), y.value)])
                      else old(points))
        && critical == (if hit && button == 3 then old(critical).Set(l.value, conv.round2(f.value)) else old(critical))
        && mBoxes == (if hit && button == 2 then old(mBoxes).Set(l.value, conv.round2(f.value)) else old(mBoxes))
      ensures forall k :: ActiveLayer(mode) != Some(k) ==>
        points.Get(k) == old(points).Get(k) && critical.Get(k) == old(critical).Get(k)
        && mBoxes.Get(k) == old(mBoxes).Get(k)
    {
      if !(Truthy(y) && Truthy(x)) || iono == null { return; }
      var c := Iono.CoordToFreq(iono.frequencies, x.value, conv);
      if c.None? { return; }
      var f := conv.round2(c.value);
      var s := conv.pointText(f, y.value);
      var l := ActiveLayer(mode);
      if l.None? { return; }
      if button == 1 {
        points := points.Set(l.value, points.Get(l.value) + [s]);
      } else if button == 3 {
        critical := critical.Set(l.value, f);
      } else if button == 2 {
        mBoxes := mBoxes.Set(l.value, f);
      }
    }

    /** The annotation effect of `delete_menu` on layer `l`'s list: the item at
        the clicked row removed, or all items removed, or nothing. */
    method DeleteMenu(l: Layer, choice: MenuChoice)
      modifies this`points
      ensures forall k :: k != l ==> points.Get(k) == old(points).Get(k)
      ensures var items := old(points).Get(l);
        points.Get(l) == match choice
          case DeleteAll => []
          case DeleteItem(row) => if 0 <= row < |items| then items[..row] + items[row + 1..] else items
          case Dismissed => items
    {
      var items := points.Get(l);
      if |items| != 0 {
        match choice
        case DeleteItem(row) =>
          if 0 <= row < |items| {   // `takeItem(-1)` where no item is under the mouse
            points := points.Set(l, items[..row] + items[row + 1..]);
          }
        case DeleteAll =>
          points := points.Set(l, []);
        case Dismissed =>
      }
    }

    /** `save_std`: the lines of the `.STD` file for the loaded sounding, or
        `None` where there is no sounding or it has no date. */
    method SaveStd(conv: Conv) returns (r: Option<seq<string>>)
      ensures r.None? <==> iono == null || iono.date.None?
      ensures r.Some? ==>
        r.value == StdLines(iono.stationName,
                            CoordinatesLine(iono.lat, iono.lon, iono.gyro, iono.dip, iono.sunspot, conv),
                            conv.stdDate(iono.date.value), critical, points, conv)
    {
      var foE := CriticalText(critical.e, conv);
      var fohE := PointBlock(points.e);
      var foF1 := CriticalText(critical.f1, conv);
      var fohF1 := PointBlock(points.f1);
      var foF2 := CriticalText(critical.f2, conv);
      var fohF2 := PointBlock(points.f2);
      if iono == null || iono.date.None? { return None; }
      var coordinates := CoordinatesLine(iono.lat, iono.lon, iono.gyro, iono.dip, iono.sunspot, conv);
      var date := conv.stdDate(iono.date.value);
      var station := iono.stationName;
      r := Some([station, coordinates, date]
                + [foE] + fohE + [END]
                + [foF1] + fohF1 + [END]
                + [foF2] + fohF2 + [END]);
    }

    /** One layer of `load_text_info` from line `start`: the critical line,
        then the point lines. */
    method ReadLayer(lines: seq<string>, start: nat, conv: Conv, l: Layer) returns (next: Option<nat>)
      modifies this`critical, this`points
      ensures (Annotated(), next) == ReadBlock(lines, start, conv, old(Annotated()), l)
    {
      var fo := conv.toFloat(Strip(LineAt(lines, start)));
      if fo.None? { return None; }
      if Applies(fo.value) {
        critical := critical.Set(l, fo.value);
      }
      next := ReadPointLines(lines, start + 1, conv, l);
    }

    /** The `while True` loop of one layer: point lines from line `start` are
        appended to layer `l`'s list until END. */
    method ReadPointLines(lines: seq<string>, start: nat, conv: Conv, l: Layer) returns (next: Option<nat>)
      modifies this`points
      ensures points == old(points).Set(l, old(points).Get(l) + ReadPoints(lines, start, conv).0)
      ensures next == ReadPoints(lines, start, conv).1
    {
      var read: seq<string> := [];
      var i := start;
      assert read + ReadPoints(lines, i, conv).0 == ReadPoints(lines, i, conv).0;
      while true
        invariant i >= start
        invariant ReadPoints(lines, start, conv)
               == (read + ReadPoints(lines, i, conv).0, ReadPoints(lines, i, conv).1)
        invariant points == old(points)
        decreases |lines| - i
      {
        var line := Strip(LineAt(lines, i));
        if line == END || PointOf(line, conv).None? {
          // the points read so far stay appended, also when a line is malformed
          assert ReadPoints(lines, i, conv).0 == [];
          assert read + [] == read;
          points := points.Set(l, points.Get(l) + read);
          return if line == END then Some(i + 1) else None;
        }
        var p := PointOf(line, conv).value;
        assert i < |lines|;   // past the end `line` is empty and has no point
        assert ReadPoints(lines, i, conv).0 == [p] + ReadPoints(lines, i + 1, conv).0;
        assert read + ([p] + ReadPoints(lines, i + 1, conv).0)
            == (read + [p]) + ReadPoints(lines, i + 1, conv).0;
        read := read + [p];
        i := i + 1;
      }
    }

    /** `load_text_info` on the lines of the `.STD` file, or `None` where the
        file cannot be opened (the `IOError` branch: nothing changes). */
    method LoadTextInfo(std: Option<seq<string>>, conv: Conv) returns (r: TextOutcome)
      modifies this`critical, this`points
      ensures std.None? ==> r == NoText && Annotated() == old(Annotated())
      ensures std.Some? ==>
                r != NoText && (Annotated(), r == TextRead) == ReadStd(std.value, conv, old(Annotated()))
    {
      if std.None? { return NoText; }
      var lines := std.value;
      var coordinates := Split(Strip(LineAt(lines, 1)));
      if |coordinates| != 5 { return TextMalformed; }
      var next := ReadLayer(lines, 3, conv, E);
      if next.None? { return TextMalformed; }
      next := ReadLayer(lines, next.value, conv, F1);
      if next.None? { return TextMalformed; }
      next := ReadLayer(lines, next.value, conv, F2);
      if next.None? { return TextMalformed; }
      return TextRead;
    }

    /** `RianIono()` followed by `load`. */
    static method LoadSounding(lines: seq<string>, table: seq<string>, conv: Conv)
      returns (sounding: Iono.RianIono, loaded: bool)
      ensures fresh(sounding)
      ensures loaded <==> Loads(lines, table, conv)
    {
      sounding := new Iono.RianIono();
      var r := sounding.Load(lines, table, conv);
      loaded := r == Iono.Loaded;
    }

    /** `open_file`: the window is closed, then a name whose base name has the
        sounding pattern is loaded from `lines` (with sunspot table `table`), its
        extent and frequency ticks computed, and its `.STD` file `std` read. */
    method OpenFile(name: string, lines: seq<string>, table: seq<string>, std: Option<seq<string>>, conv: Conv)
      returns (r: OpenOutcome)
      modifies this`mode, this`spinOn, this`listOn, this`critical, this`points, this`fileName, this`iono
      ensures mode == 0 && EnabledFor(0)
      ensures r == Rejected <==> name == [] || !IsIonName(BaseName(name))
      ensures r == Rejected ==> Cleared()
      ensures r != Rejected ==> iono != null && fresh(iono)
      ensures r == LoadFailed <==> r != Rejected && !Loads(lines, table, conv)
      ensures r == LoadFailed ==> fileName == [] && Annotated() == NO_ANNOTATIONS
      ensures r.PlotFailed? || r.Opened? ==> fileName == name
      ensures r == PlotFailed <==>
                r != Rejected && r != LoadFailed
                && (Iono.GetExtent(iono.frequencies, iono.ranges, conv).None?
                    || Iono.GetFreqTics(iono.frequencies, iono.ranges, conv).None?
                    || Iono.GetFreqLabels(iono.frequencies, iono.ranges, conv).None?)
      ensures r == PlotFailed ==> Annotated() == NO_ANNOTATIONS
      ensures r.Opened? && std.None? ==> r.text == NoText && Annotated() == NO_ANNOTATIONS
      ensures r.Opened? && std.Some? ==>
                (Annotated(), r.text == TextRead) == ReadStd(std.value, conv, NO_ANNOTATIONS)
    {
      CloseFile();
      if name == [] || !IsIonName(BaseName(name)) {
        return Rejected;
      }
      r := OpenSounding(name, lines, table, std, conv);
    }

    /** The part of `open_file` for an accepted name: `clear_all`, a new
        sounding loaded, and on success the plot and the `.STD` file. */
    method OpenSounding(name: string, lines: seq<string>, table: seq<string>, std: Option<seq<string>>, conv: Conv)
      returns (r: OpenOutcome)
      modifies this`mode, this`spinOn, this`listOn, this`critical, this`points, this`fileName, this`iono
      ensures mode == 0 && EnabledFor(0)
      ensures iono != null && fresh(iono) && r != Rejected
      ensures r == LoadFailed <==> !Loads(lines, table, conv)
      ensures r == LoadFailed ==> fileName == [] && Annotated() == NO_ANNOTATIONS
      ensures r.PlotFailed? || r.Opened? ==> fileName == name
      ensures r == PlotFailed <==>
                r != LoadFailed
                && (Iono.GetExtent(iono.frequencies, iono.ranges, conv).None?
                    || Iono.GetFreqTics(iono.frequencies, iono.ranges, conv).None?
                    || Iono.GetFreqLabels(iono.frequencies, iono.ranges, conv).None?)
      ensures r == PlotFailed ==> Annotated() == NO_ANNOTATIONS
      ensures r.Opened? && std.None? ==> r.text == NoText && Annotated() == NO_ANNOTATIONS
      ensures r.Opened? && std.Some? ==>
                (Annotated(), r.text == TextRead) == ReadStd(std.value, conv, NO_ANNOTATIONS)
    {
      ClearAll();
      r := LoadAndShow(name, lines, table, std, conv);
    }

    /** A new sounding loaded and, on success, plotted and annotated from the
        `.STD` file. */
    method LoadAndShow(name: string, lines: seq<string>, table: seq<string>, std: Option<seq<string>>, conv: Conv)
      returns (r: OpenOutcome)
      modifies this`critical, this`points, this`fileName, this`iono
      ensures iono != null && fresh(iono) && r != Rejected
      ensures r == LoadFailed <==> !Loads(lines, table, conv)
      ensures r == LoadFailed ==> fileName == old(fileName) && Annotated() == old(Annotated())
      ensures r.PlotFailed? || r.Opened? ==> fileName == name
      ensures r == PlotFailed <==>
                r != LoadFailed
                && (Iono.GetExtent(iono.frequencies, iono.ranges, conv).None?
                    || Iono.GetFreqTics(iono.frequencies, iono.ranges, conv).None?
                    || Iono.GetFreqLabels(iono.frequencies, iono.ranges, conv).None?)
      ensures r == PlotFailed ==> Annotated() == old(Annotated())
      ensures r.Opened? && std.None? ==> r.text == NoText && Annotated() == old(Annotated())
      ensures r.Opened? && std.Some? ==>
                (Annotated(), r.text == TextRead) == ReadStd(std.value, conv, old(Annotated()))
    {
      var sounding, loaded := LoadSounding(lines, table, conv);
      iono := sounding;
      if !loaded {
        return LoadFailed;
      }
      // a loaded grid has at least one row, so `if data:` holds
      r := ShowSounding(name, std, conv);
    }

    /** The part of `open_file` after a successful load: the file name is kept,
        the plot's extent, ticks and tick labels computed, and the `.STD` file
        read. */
    method ShowSounding(name: string, std: Option<seq<string>>, conv: Conv) returns (r: OpenOutcome)
      requires iono != null
      modifies this`fileName, this`critical, this`points
      ensures fileName == name && (r == PlotFailed || r.Opened?)
      ensures r == PlotFailed <==>
                Iono.GetExtent(iono.frequencies, iono.ranges, conv).None?
                || Iono.GetFreqTics(iono.frequencies, iono.ranges, conv).None?
                || Iono.GetFreqLabels(iono.frequencies, iono.ranges, conv).None?
      ensures r == PlotFailed ==> Annotated() == old(Annotated())
      ensures r.Opened? && std.None? ==> r.text == NoText && Annotated() == old(Annotated())
      ensures r.Opened? && std.Some? ==>
                (Annotated(), r.text == TextRead) == ReadStd(std.value, conv, old(Annotated()))
    {
      fileName := name;
      var extent := Iono.GetExtent(iono.frequencies, iono.ranges, conv);
      var tics := Iono.GetFreqTics(iono.frequencies, iono.ranges, conv);
      var labels := Iono.GetFreqLabels(iono.frequencies, iono.ranges, conv);
      if extent.None? || tics.None? || labels.None? {
        return PlotFailed;
      }
      var text := LoadTextInfo(std, conv);
      return Opened(text);
    }

    /** `open_next_file` over the listing of the open file's directory: the
        entry after the open file's first occurrence among the sounding files,
        where there is one. */
    method OpenNextFile(listing: seq<string>) returns (r: Nav)
      ensures var files := IonFiles(listing);
        var base := BaseName(fileName);
        && (r == NotListed <==> fileName != [] && base !in files)
        && (r.Open? <==> fileName != [] && exists i :: IsFirst(files, i, base) && i + 1 < |files|)
        && (forall i :: r.Open? && IsFirst(files, i, base) ==> i + 1 < |files| && r.name == files[i + 1])
        && (r.Open? ==> IsIonName(r.name) && r.name in listing)
      ensures r != NoFiles
    {
      if fileName == [] { return Stay; }
      var filenames := GetFileList(listing);
      IonFilesMembers(listing);
      var index := IndexOf(filenames, BaseName(fileName));
      if index.None? {
        return NotListed;
      }
      forall i | IsFirst(filenames, i, BaseName(fileName)) ensures i == index.value {
        IsFirstUnique(filenames, i, index.value, BaseName(fileName));
      }
      if index.value + 1 < |filenames| {
        return Open(filenames[index.value + 1]);
      }
      return Stay;
    }

    /** `open_prev_file`: the entry before the open file's first occurrence
        among the sounding files, where there is one. */
    method OpenPrevFile(listing: seq<string>) returns (r: Nav)
      ensures var files := IonFiles(listing);
        var base := BaseName(fileName);
        && (r == NotListed <==> fileName != [] && base !in files)
        && (r.Open? <==> fileName != [] && exists i :: IsFirst(files, i, base) && i - 1 >= 0)
        && (forall i :: r.Open? && IsFirst(files, i, base) ==> i - 1 >= 0 && r.name == files[i - 1])
        && (r.Open? ==> IsIonName(r.name) && r.name in listing)
      ensures r != NoFiles
    {
      if fileName == [] { return Stay; }
      var filenames := GetFileList(listing);
      IonFilesMembers(listing);
      var index := IndexOf(filenames, BaseName(fileName));
      if index.None? {
        return NotListed;
      }
      forall i | IsFirst(filenames, i, BaseName(fileName)) ensures i == index.value {
        IsFirstUnique(filenames, i, index.value, BaseName(fileName));
      }
      var k: int := index.value;
      if k - 1 >= 0 {
        return Open(filenames[k - 1]);
      }
      return Stay;
    }

    /** `open_first_file`: the first sounding file of the listing. */
    method OpenFirstFile(listing: seq<string>) returns (r: Nav)
      ensures fileName == [] ==> r == Stay
      ensures r == NoFiles <==> fileName != [] && forall x :: x in listing ==> !IsIonName(x)
      ensures r.Open? <==> fileName != [] && IonFiles(listing) != []
      ensures r.Open? ==> r.name == IonFiles(listing)[0] && IsIonName(r.name) && r.name in listing
    {
      if fileName == [] { return Stay; }
      var filenames := GetFileList(listing);
      IonFilesMembers(listing);
      if |filenames| == 0 { return NoFiles; }
      assert filenames[0] in filenames;
      return Open(filenames[0]);
    }

    /** `open_last_file`: the last sounding file of the listing. */
    method OpenLastFile(listing: seq<string>) returns (r: Nav)
      ensures fileName == [] ==> r == Stay
      ensures r == NoFiles <==> fileName != [] && forall x :: x in listing ==> !IsIonName(x)
      ensures r.Open? <==> fileName != [] && IonFiles(listing) != []
      ensures r.Open? ==> r.name == IonFiles(listing)[|IonFiles(listing)| - 1] && IsIonName(r.name) && r.name in listing
    {
      if fileName == [] { return Stay; }
      var filenames := GetFileList(listing);
      IonFilesMembers(listing);
      if |filenames| == 0 { return NoFiles; }
      assert filenames[|filenames| - 1] in filenames;
      return Open(filenames[|filenames| - 1]);
    }
  }
}
