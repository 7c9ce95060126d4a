/** Gsw/SimTrace.swift: a recorded 2D particle simulation. Each text line is
    one frame, `x y x y ... ` with a trailing blank; the trace keeps the
    frames and the bounds of every coordinate it has read. Reading the file
    is not modelled: the trace is read from its lines. */
module SimTraces {
  import opened Wrappers
  import opened Gpu

  /** `Float.greatestFiniteMagnitude`. */
  const FMax: real := 340282346638528859811704183484516925440.0

  /** Where in z a 2D trace is placed. */
  const InitialZ: real := 0.0

  datatype Particle = Particle(position: Vec3)

  type Frame = seq<Particle>

  /** `components(separatedBy:)` for a one-character separator. */
  function Split(s: string, sep: char): (r: seq<string>)
    ensures |r| >= 1
    ensures forall k :: 0 <= k < |r| ==> sep !in r[k]
    decreases |s|
  {
    if s == [] then [[]]
    else
      var rest := Split(s[1..], sep);
      if s[0] == sep then [[]] + rest else [[s[0]] + rest[0]] + rest[1..]
  }

  /** The parts put back together, separated by `sep`. */
  function Join(parts: seq<string>, sep: char): string
    requires |parts| >= 1
    decreases |parts|
  {
    if |parts| == 1 then parts[0] else parts[0] + [sep] + Join(parts[1..], sep)
  }

  /** Splitting loses nothing: joining the tokens gives back the line. */
  lemma {:induction false} JoinSplit(s: string, sep: char)
    ensures Join(Split(s, sep), sep) == s
    decreases |s|
  {
    if s != [] {
      JoinSplit(s[1..], sep);
      var rest := Split(s[1..], sep);
      if s[0] == sep {
        assert Split(s, sep) == [[]] + rest;
        assert ([[]] + rest)[1..] == rest;
      } else {
        var r := [[s[0]] + rest[0]] + rest[1..];
        assert Split(s, sep) == r;
        if |rest| == 1 {
          assert Join(rest, sep) == rest[0];
        } else {
          assert r[1..] == rest[1..];
          assert Join(rest, sep) == rest[0] + [sep] + Join(rest[1..], sep);
        }
      }
    }
  }

  /** And the tokens are exactly the parts, when no part holds the separator. */
  lemma {:induction false} SplitJoin(parts: seq<string>, sep: char)
    requires |parts| >= 1 && forall k :: 0 <= k < |parts| ==> sep !in parts[k]
    ensures Split(Join(parts, sep), sep) == parts
    decreases |parts|, |parts[0]|
  {
    if |parts| == 1 {
      SplitPart(parts[0], sep);
    } else {
      var tail := Join(parts[1..], sep);
      SplitJoin(parts[1..], sep);
      SplitPrefix(parts[0], tail, sep);
      assert Join(parts, sep) == parts[0] + [sep] + tail;
      assert [parts[0]] + parts[1..] == parts;
    }
  }

  /** A string without the separator is one token. */
  lemma {:induction false} SplitPart(s: string, sep: char)
    requires sep !in s
    ensures Split(s, sep) == [s]
    decreases |s|
  {
    if s != [] {
      SplitPart(s[1..], sep);
      assert [s[0]] + s[1..] == s;
    }
  }

  /** A token followed by the separator comes first, before the tokens of the rest. */
  lemma {:induction false} SplitPrefix(a: string, b: string, sep: char)
    requires sep !in a
    ensures Split(a + [sep] + b, sep) == [a] + Split(b, sep)
    decreases |a|
  {
    if a == [] {
      assert a + [sep] + b == [sep] + b;
      assert ([sep] + b)[1..] == b;
    } else {
      SplitPrefix(a[1..], b, sep);
      assert (a + [sep] + b)[1..] == a[1..] + [sep] + b;
      assert [a[0]] + a[1..] == a;
    }
  }

  /** The first `n` particles of a line's tokens, or `None` when one of
      their coordinates is not a number. */
  function FrameOf(coords: seq<string>, n: nat, parseFloat: string -> Option<real>): (r: Option<Frame>)
    requires 2 * n <= |coords|
    ensures r.Some? ==> |r.value| == n
  {
    if n == 0 then Some([])
    else
      var prev := FrameOf(coords, n - 1, parseFloat);
      var x := parseFloat(coords[2 * n - 2]);
      var y := parseFloat(coords[2 * n - 1]);
      if prev.None? || x.None? || y.None? then None
      else Some(prev.value + [Particle(Vec3(x.value, y.value, InitialZ))])
  }

  /** A pair that does not parse spoils every longer frame. */
  lemma {:induction false} FrameOfFailureStays(coords: seq<string>, m: nat, n: nat, parseFloat: string -> Option<real>)
    requires m <= n && 2 * n <= |coords| && FrameOf(coords, m, parseFloat).None?
    ensures FrameOf(coords, n, parseFloat).None?
    decreases n - m
  {
    if m < n {
      FrameOfFailureStays(coords, m, n - 1, parseFloat);
    }
  }

  /** A parsed frame holds particle k at the k-th coordinate pair, at z = 0,
      and a frame parses exactly when every one of its coordinates does. */
  lemma {:induction false} FrameOfParticles(coords: seq<string>, n: nat, parseFloat: string -> Option<real>)
    requires 2 * n <= |coords|
    ensures FrameOf(coords, n, parseFloat).Some? <==>
      forall k :: 0 <= k < 2 * n ==> parseFloat(coords[k]).Some?
    ensures FrameOf(coords, n, parseFloat).Some? ==> forall k :: 0 <= k < n ==>
      FrameOf(coords, n, parseFloat).value[k] ==
        Particle(Vec3(parseFloat(coords[2 * k]).value, parseFloat(coords[2 * k + 1]).value, InitialZ))
    decreases n
  {
    if n > 0 {
      FrameOfParticles(coords, n - 1, parseFloat);
      var r := FrameOf(coords, n, parseFloat);
      if r.Some? {
        var prev := FrameOf(coords, n - 1, parseFloat).value;
        assert r.value == prev + [r.value[n - 1]];
        forall k | 0 <= k < n - 1
          ensures r.value[k] == prev[k]
        {
        }
      }
    }
  }

  /** One more pair parsed. */
  lemma FrameOfNext(coords: seq<string>, n: nat, parseFloat: string -> Option<real>, frame: Frame, x: real, y: real)
    requires 2 * n + 2 <= |coords| && FrameOf(coords, n, parseFloat) == Some(frame)
    requires parseFloat(coords[2 * n]) == Some(x) && parseFloat(coords[2 * n + 1]) == Some(y)
    ensures FrameOf(coords, n + 1, parseFloat) == Some(frame + [Particle(Vec3(x, y, InitialZ))])
  {
  }

  /** The bounds of the coordinates read so far. */
  datatype Box = Box(min: Vec2, max: Vec2)

  const NoBounds: Box := Box(Vec2(FMax, FMax), Vec2(-FMax, -FMax))

  /** The bounds after one more point, the maximum tracked against itself:
      the smallest box holding the old one and the point. */
  function Track(b: Box, x: real, y: real): (r: Box)
    ensures r.min.x <= x <= r.max.x && r.min.y <= y <= r.max.y
    ensures r.min.x <= b.min.x && r.min.y <= b.min.y && b.max.x <= r.max.x && b.max.y <= r.max.y
    ensures (r.min.x == b.min.x || r.min.x == x) && (r.min.y == b.min.y || r.min.y == y)
    ensures (r.max.x == b.max.x || r.max.x == x) && (r.max.y == b.max.y || r.max.y == y)
  {
    var minX := if b.min.x <= x then b.min.x else x;
    var minY := if b.min.y <= y then b.min.y else y;
    var maxX := if b.max.x >= x then b.max.x else x;
    var maxY := if b.max.y >= y then b.max.y else y;
    Box(Vec2(minX, minY), Vec2(maxX, maxY))
  }

  /** The bounds after one more point as written: the new maximum is the
      larger of the just-updated minimum and the point. That minimum never
      exceeds the point, so the maximum is always the latest point, whatever
      came before; the minimum is the intended one. */
  function TrackAsWritten(b: Box, x: real, y: real): (r: Box)
    ensures r.max == Vec2(x, y)
    ensures r.min == Track(b, x, y).min
  {
    var minX := if b.min.x <= x then b.min.x else x;
    var minY := if b.min.y <= y then b.min.y else y;
    var maxX := if minX >= x then minX else x;
    var maxY := if minY >= y then minY else y;
    Box(Vec2(minX, minY), Vec2(maxX, maxY))
  }

  function BoundsOf(b: Box, ps: Frame): Box
    decreases |ps|
  {
    if ps == [] then b
    else var p := ps[|ps| - 1].position; Track(BoundsOf(b, ps[..|ps| - 1]), p.x, p.y)
  }

  lemma BoundsOfNext(b: Box, ps: Frame, p: Particle)
    ensures BoundsOf(b, ps + [p]) == Track(BoundsOf(b, ps), p.position.x, p.position.y)
  {
    assert (ps + [p])[..|ps|] == ps;
  }

  function BoundsOfAsWritten(b: Box, ps: Frame): Box
    decreases |ps|
  {
    if ps == [] then b
    else var p := ps[|ps| - 1].position; TrackAsWritten(BoundsOfAsWritten(b, ps[..|ps| - 1]), p.x, p.y)
  }

  function BoundsOfFrames(b: Box, fs: seq<Frame>): Box
    decreases |fs|
  {
    if fs == [] then b else BoundsOf(BoundsOfFrames(b, fs[..|fs| - 1]), fs[|fs| - 1])
  }

  ghost predicate Inside(b: Box, p: Vec3) {
    b.min.x <= p.x <= b.max.x && b.min.y <= p.y <= b.max.y
  }

  /** The tracked bounds only widen and hold every point of the frame. */
  lemma {:induction false} BoundsOfContains(b: Box, ps: Frame)
    ensures var r := BoundsOf(b, ps);
      && r.min.x <= b.min.x && r.min.y <= b.min.y && r.max.x >= b.max.x && r.max.y >= b.max.y
      && forall k :: 0 <= k < |ps| ==> Inside(r, ps[k].position)
    decreases |ps|
  {
    if ps != [] {
      var init := ps[..|ps| - 1];
      BoundsOfContains(b, init);
      forall k | 0 <= k < |ps| - 1
        ensures ps[k] == init[k]
      {
      }
    }
  }

  /** ... and the bounds of all frames hold every point of every frame. */
  lemma {:induction false} BoundsOfFramesContains(b: Box, fs: seq<Frame>)
    ensures var r := BoundsOfFrames(b, fs);
      && r.min.x <= b.min.x && r.min.y <= b.min.y && r.max.x >= b.max.x && r.max.y >= b.max.y
      && forall f, k :: 0 <= f < |fs| && 0 <= k < |fs[f]| ==> Inside(r, fs[f][k].position)
    decreases |fs|
  {
    if fs != [] {
      var init := fs[..|fs| - 1];
      BoundsOfFramesContains(b, init);
      var mid := BoundsOfFrames(b, init);
      BoundsOfContains(mid, fs[|fs| - 1]);
      forall f, k | 0 <= f < |fs| && 0 <= k < |fs[f]|
        ensures Inside(BoundsOfFrames(b, fs), fs[f][k].position)
      {
        if f < |fs| - 1 {
          assert fs[f] == init[f];
        }
      }
    }
  }

  /** As written, the points (3, 0) and then (1, 0) leave a maximum x of 1,
      so the first point lies outside the bounds and the box is 0 wide
      instead of 2. */
  lemma MaximumLostAsWritten()
    ensures var ps := [Particle(Vec3(3.0, 0.0, 0.0)), Particle(Vec3(1.0, 0.0, 0.0))];
      && BoundsOfAsWritten(NoBounds, ps).max.x == 1.0
      && !Inside(BoundsOfAsWritten(NoBounds, ps), ps[0].position)
      && BoundsOf(NoBounds, ps).max.x - BoundsOf(NoBounds, ps).min.x == 2.0
  {
    var ps := [Particle(Vec3(3.0, 0.0, 0.0)), Particle(Vec3(1.0, 0.0, 0.0))];
    assert ps[..1] == [ps[0]] && ps[..1][..0] == [];
  }

  /** The number of particles a line holds. */
  function ParticleCount(line: string): nat {
    |Split(line, ' ')| / 2
  }

  function FirstCount(lines: seq<string>): nat {
    if lines == [] then 0 else ParticleCount(lines[0])
  }

  /** A line that is read without trapping: an even number of coordinates
      before the trailing token, `n` particles, and every coordinate a number. */
  ghost predicate LineAccepted(line: string, n: nat, parseFloat: string -> Option<real>) {
    var coords := Split(line, ' ');
    (|coords| - 1) % 2 == 0 && |coords| / 2 == n && FrameOf(coords, n, parseFloat).Some?
  }

  /** The frames of accepted lines. */
  ghost function FramesOf(lines: seq<string>, n: nat, parseFloat: string -> Option<real>): (r: seq<Frame>)
    requires forall k :: 0 <= k < |lines| ==> LineAccepted(lines[k], n, parseFloat)
    ensures |r| == |lines|
    decreases |lines|
  {
    if lines == [] then []
    else
      assert LineAccepted(lines[|lines| - 1], n, parseFloat);
      FramesOf(lines[..|lines| - 1], n, parseFloat)
      + [FrameOf(Split(lines[|lines| - 1], ' '), n, parseFloat).value]
  }

  lemma FramesOfNext(lines: seq<string>, i: nat, n: nat, parseFloat: string -> Option<real>)
    requires i < |lines| && forall k :: 0 <= k <= i ==> LineAccepted(lines[k], n, parseFloat)
    ensures LineAccepted(lines[i], n, parseFloat)
    ensures FramesOf(lines[..i + 1], n, parseFloat) ==
      FramesOf(lines[..i], n, parseFloat) + [FrameOf(Split(lines[i], ' '), n, parseFloat).value]
  {
    assert lines[..i + 1][..i] == lines[..i];
    assert lines[..i + 1][i] == lines[i];
  }

  lemma BoundsOfFramesNext(b: Box, fs: seq<Frame>, f: Frame)
    ensures BoundsOfFrames(b, fs + [f]) == BoundsOf(BoundsOfFrames(b, fs), f)
  {
    assert (fs + [f])[..|fs|] == fs;
  }

  /** Every frame read from accepted lines has `n` particles. */
  lemma {:induction false} FramesOfShape(lines: seq<string>, n: nat, parseFloat: string -> Option<real>)
    requires forall k :: 0 <= k < |lines| ==> LineAccepted(lines[k], n, parseFloat)
    ensures forall f :: 0 <= f < |lines| ==>
      FramesOf(lines, n, parseFloat)[f] == FrameOf(Split(lines[f], ' '), n, parseFloat).value
      && |FramesOf(lines, n, parseFloat)[f]| == n
    decreases |lines|
  {
    if lines != [] {
      var init := lines[..|lines| - 1];
      FramesOfShape(init, n, parseFloat);
      forall f | 0 <= f < |lines| - 1
        ensures lines[f] == init[f]
      {
      }
    }
  }

  /** What scaling does to one particle. */
  function ScaleParticle(p: Particle, factor: Vec3): Particle {
    Particle(Vec3(p.position.x * factor.x, p.position.y * factor.y, p.position.z * factor.z))
  }

  function ScaledFrame(frame: Frame, factor: Vec3): (r: Frame)
    ensures |r| == |frame| && forall k :: 0 <= k < |r| ==> r[k] == ScaleParticle(frame[k], factor)
  {
    seq(|frame|, k requires 0 <= k < |frame| => ScaleParticle(frame[k], factor))
  }

  /** The scale that maps the effective simulation box onto the display box. */
  function VizScale(vizBoxSize: Vec2, simBoxSize: Vec2): (f: Vec3)
    requires simBoxSize.x != 0.0 && simBoxSize.y != 0.0
    ensures f.x * simBoxSize.x == vizBoxSize.x && f.y * simBoxSize.y == vizBoxSize.y && f.z == 1.0
  {
    Vec3(vizBoxSize.x / simBoxSize.x, vizBoxSize.y / simBoxSize.y, 1.0)
  }

  /** As written, scaling works on a copy; scaling really moves the particles. */
  lemma ScalingACopyKeepsFrames()
    ensures var frame := [Particle(Vec3(1.0, 1.0, 0.0))];
      ScaledFrame(frame, VizScale(Vec2(2.0, 2.0), Vec2(1.0, 1.0))) != frame
  {
    var frame := [Particle(Vec3(1.0, 1.0, 0.0))];
    assert ScaledFrame(frame, VizScale(Vec2(2.0, 2.0), Vec2(1.0, 1.0)))[0].position.x == 2.0;
  }

  class SimTrace {
    var numParticles: int
    var frames: seq<Frame>
    var minPos: Vec2
    var maxPos: Vec2
    var simBoxSize: Vec2

    constructor ()
      ensures numParticles == 0 && frames == [] && simBoxSize == Vec2(0.0, 0.0)
      ensures Box(minPos, maxPos) == NoBounds
    {
      numParticles := 0;
      frames := [];
      minPos := Vec2(FMax, FMax);
      maxPos := Vec2(-FMax, -FMax);
      simBoxSize := Vec2(0.0, 0.0);
    }

    /** The pairs loop of one line: parse the first `n` coordinate pairs,
        widen the bounds with each, and collect the particles. */
    method ParsePairs(coords: seq<string>, n: nat, parseFloat: string -> Option<real>) returns (ok: bool, frame: Frame)
      requires 2 * n <= |coords|
      modifies this`minPos, this`maxPos
      ensures ok <==> FrameOf(coords, n, parseFloat).Some?
      ensures ok ==> frame == FrameOf(coords, n, parseFloat).value
      ensures ok ==> Box(minPos, maxPos) == BoundsOf(old(Box(minPos, maxPos)), frame)
    {
      frame := [];
      var idx := 0;
      ghost var pairs: nat := 0;
      while idx < 2 * n
        invariant idx == 2 * pairs && pairs <= n
        invariant FrameOf(coords, pairs, parseFloat) == Some(frame)
        invariant Box(minPos, maxPos) == BoundsOf(old(Box(minPos, maxPos)), frame)
      {
        var x := parseFloat(coords[idx]);
        var y := parseFloat(coords[idx + 1]);
        if x.None? || y.None? {
          FrameOfFailureStays(coords, pairs + 1, n, parseFloat);
          return false, frame;
        }
        var b := Track(Box(minPos, maxPos), x.value, y.value);
        minPos := b.min;
        maxPos := b.max;
        var particle := Particle(Vec3(x.value, y.value, InitialZ));
        FrameOfNext(coords, pairs, parseFloat, frame, x.value, y.value);
        BoundsOfNext(old(Box(minPos, maxPos)), frame, particle);
        frame := frame + [particle];
        idx := idx + 2;
        pairs := pairs + 1;
      }
      ok := true;
    }

    /** One line of `read2DFrom`: its token count less the trailing one must
        be even, the first line fixes the particle count and every later line
        must match it; the line's frame is appended. */
    method AddLine(line: string, isFirst: bool, parseFloat: string -> Option<real>, ghost n: nat) returns (status: Status)
      requires isFirst ==> n == ParticleCount(line)
      requires !isFirst ==> numParticles == n
      modifies this`numParticles, this`frames, this`minPos, this`maxPos
      ensures status.Completed? <==> LineAccepted(line, n, parseFloat)
      ensures status.Completed? ==>
        var frame := FrameOf(Split(line, ' '), n, parseFloat).value;
        && numParticles == n
        && frames == old(frames) + [frame]
        && Box(minPos, maxPos) == BoundsOf(old(Box(minPos, maxPos)), frame)
    {
      var coords := Split(line, ' ');
      var numCoords := |coords| - 1;
      if numCoords % 2 != 0 {
        return Stopped("Error: Odd number of coordinates on line");
      }
      var count := |coords| / 2;
      if isFirst {
        numParticles := count;
      } else if count != numParticles {
        return Stopped("Inconsistent number of coordinates on line");
      }
      var ok, frame := ParsePairs(coords, count, parseFloat);
      if !ok {
        return Stopped("Unexpectedly found nil while unwrapping an Optional value");
      }
      frames := frames + [frame];
      status := Completed;
    }

    /** The state after the first `i` lines were read: each was accepted,
        their frames were appended and the bounds widened over them. */
    ghost predicate ReadSoFar(lines: seq<string>, i: nat, n: nat, parseFloat: string -> Option<real>,
                              frames0: seq<Frame>, b0: Box, count0: int)
      reads this`numParticles, this`frames, this`minPos, this`maxPos
    {
      && i <= |lines|
      && (i == 0 ==> numParticles == count0)
      && (i > 0 ==> numParticles == n)
      && (forall k :: 0 <= k < i ==> LineAccepted(lines[k], n, parseFloat))
      && frames == frames0 + FramesOf(lines[..i], n, parseFloat)
      && Box(minPos, maxPos) == BoundsOfFrames(b0, FramesOf(lines[..i], n, parseFloat))
    }

    /** One turn of the `read2DFrom` loop. */
    method ReadLine(lines: seq<string>, i: nat, parseFloat: string -> Option<real>,
                    ghost frames0: seq<Frame>, ghost b0: Box, ghost count0: int) returns (status: Status)
      requires i < |lines| && ReadSoFar(lines, i, FirstCount(lines), parseFloat, frames0, b0, count0)
      modifies this`numParticles, this`frames, this`minPos, this`maxPos
      ensures status.Completed? <==> LineAccepted(lines[i], FirstCount(lines), parseFloat)
      ensures status.Completed? ==> ReadSoFar(lines, i + 1, FirstCount(lines), parseFloat, frames0, b0, count0)
    {
      ghost var n := FirstCount(lines);
      ghost var before := FramesOf(lines[..i], n, parseFloat);
      status := AddLine(lines[i], i == 0, parseFloat, n);
      if status.Completed? {
        FramesOfNext(lines, i, n, parseFloat);
        BoundsOfFramesNext(b0, before, FrameOf(Split(lines[i], ' '), n, parseFloat).value);
      }
    }

    /** `read2DFrom`, on the file's lines: every line must be accepted, each
        adds one frame of the first line's particle count, and the effective
        box is the span of the bounds of every coordinate read. */
    method Read2DFrom(lines: seq<string>, parseFloat: string -> Option<real>) returns (status: Status)
      modifies this`numParticles, this`frames, this`minPos, this`maxPos, this`simBoxSize
      ensures status.Completed? <==> forall k :: 0 <= k < |lines| ==> LineAccepted(lines[k], FirstCount(lines), parseFloat)
      ensures status.Completed? ==>
        && frames == old(frames) + FramesOf(lines, FirstCount(lines), parseFloat)
        && numParticles == (if lines == [] then old(numParticles) else FirstCount(lines))
        && Box(minPos, maxPos) == BoundsOfFrames(old(Box(minPos, maxPos)), FramesOf(lines, FirstCount(lines), parseFloat))
        && simBoxSize == Vec2(maxPos.x - minPos.x, maxPos.y - minPos.y)
    {
      ghost var frames0, b0, count0 := frames, Box(minPos, maxPos), numParticles;
      assert lines[..0] == [];
      var lineNum := 0;
      while lineNum < |lines|
        invariant ReadSoFar(lines, lineNum, FirstCount(lines), parseFloat, frames0, b0, count0)
        invariant unchanged(this`simBoxSize)
      {
        status := ReadLine(lines, lineNum, parseFloat, frames0, b0, count0);
        if status.Stopped? {
          return;
        }
        lineNum := lineNum + 1;
      }
      assert lines[..lineNum] == lines;
      simBoxSize := Vec2(maxPos.x - minPos.x, maxPos.y - minPos.y);
      status := Completed;
    }

    /** `scaleToVizBox` as written: each particle is scaled in a local copy,
        so the stored frames stay as they are. The loops follow the source's
        and deliberately change nothing but locals; that is the defect. */
    method ScaleToVizBoxAsWritten(vizBoxSize: Vec2)
      requires simBoxSize.x != 0.0 && simBoxSize.y != 0.0
      ensures frames == old(frames)
    {
      var frameIdx := 0;
      while frameIdx < |frames|
        invariant 0 <= frameIdx <= |frames|
      {
        var scale := VizScale(vizBoxSize, simBoxSize);
        var frame := frames[frameIdx];
        var particleIdx := 0;
        while particleIdx < |frame|
          invariant 0 <= particleIdx <= |frame|
        {
          var particle := frame[particleIdx];
          particle := ScaleParticle(particle, scale);
          particleIdx := particleIdx + 1;
        }
        frameIdx := frameIdx + 1;
      }
    }

    /** `scaleToVizBox` storing what it scales: every particle of every frame
        is scaled by the ratio of the display box to the effective box. */
    method ScaleToVizBox(vizBoxSize: Vec2)
      requires simBoxSize.x != 0.0 && simBoxSize.y != 0.0
      modifies this`frames
      ensures |frames| == |old(frames)|
      ensures forall f :: 0 <= f < |frames| ==> frames[f] == ScaledFrame(old(frames)[f], VizScale(vizBoxSize, simBoxSize))
    {
      var frameIdx := 0;
      while frameIdx < |frames|
        invariant 0 <= frameIdx <= |frames| == |old(frames)|
        invariant forall f :: 0 <= f < frameIdx ==> frames[f] == ScaledFrame(old(frames)[f], VizScale(vizBoxSize, simBoxSize))
        invariant forall f :: frameIdx <= f < |frames| ==> frames[f] == old(frames)[f]
      {
        var scale := VizScale(vizBoxSize, simBoxSize);
        var frame := frames[frameIdx];
        var particleIdx := 0;
        while particleIdx < |frame|
          invariant 0 <= particleIdx <= |frame| == |old(frames)[frameIdx]|
          invariant forall k :: 0 <= k < particleIdx ==> frame[k] == ScaleParticle(old(frames)[frameIdx][k], scale)
          invariant forall k :: particleIdx <= k < |frame| ==> frame[k] == old(frames)[frameIdx][k]
        {
          frame := frame[particleIdx := ScaleParticle(frame[particleIdx], scale)];
          particleIdx := particleIdx + 1;
        }
        frames := frames[frameIdx := frame];
        frameIdx := frameIdx + 1;
      }
    }

    function NumSimFrames(): (n: nat)
      reads this`frames
      ensures n == |frames|
    {
      |frames|
    }

    /** `getParticlePosition(frameIndex:particleIndex:)`: an index out of
        range traps. */
    function GetParticlePosition(frameIndex: int, particleIndex: int): (r: Result<Vec3>)
      reads this`frames
      ensures r.Ok? <==> 0 <= frameIndex < |frames| && 0 <= particleIndex < |frames[frameIndex]|
      ensures r.Ok? ==> r.value == frames[frameIndex][particleIndex].position
    {
      if 0 <= frameIndex < |frames| && 0 <= particleIndex < |frames[frameIndex]|
      then Ok(frames[frameIndex][particleIndex].position)
      else Fatal("Index out of range")
    }
  }

  /** A trace read from accepted lines has one frame per line, each with the
      first line's particle count, and every position it stores lies inside
      the bounds it tracked. */
  lemma ReadTraceShape(lines: seq<string>, parseFloat: string -> Option<real>, b0: Box)
    requires forall k :: 0 <= k < |lines| ==> LineAccepted(lines[k], FirstCount(lines), parseFloat)
    ensures var fs := FramesOf(lines, FirstCount(lines), parseFloat);
      && |fs| == |lines|
      && (forall f :: 0 <= f < |fs| ==> |fs[f]| == FirstCount(lines))
      && (forall f, k :: 0 <= f < |fs| && 0 <= k < |fs[f]| ==> Inside(BoundsOfFrames(b0, fs), fs[f][k].position))
  {
    FramesOfShape(lines, FirstCount(lines), parseFloat);
    BoundsOfFramesContains(b0, FramesOf(lines, FirstCount(lines), parseFloat));
  }
}
