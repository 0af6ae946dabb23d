/** The frame-statistics counter: it counts frames and, on every 60th, reports
    the frame rate and mean frame time over the last 60 frames together with the
    renderer's draw statistics and the heap size.
 */
module PerformanceCollector {
  import opened Numerics

  datatype Option<T> = None | Some(value: T)

  /** One report. `fps` is a `Float` because a zero interval gives +Infinity. */
  datatype Report = Report(fps: Float, frameTime: real, drawCalls: nat, triangles: nat, memoryUsage: int)

  /** `Math.round(60000 / delta)`: 60 frames over delta milliseconds. */
  function Fps(delta: real): (f: Float)
    ensures delta == 0.0 ==> f == PosInf
    ensures delta != 0.0 ==> f.Finite? && Abs(f.value - 60000.0 / delta) <= 0.5
  {
    if delta == 0.0 then PosInf else Finite(Round(60000.0 / delta) as real)
  }

  /** `Number((delta / 60).toFixed(2))`: the mean frame time to two decimals. */
  function FrameTime(delta: real): (t: real)
    ensures Abs(t - delta / 60.0) <= 0.005
  {
    ToFixed2(delta / 60.0)
  }

  /** The used heap in whole MiB, or 0 when the host reports none (absent or 0). */
  function MemoryUsage(heap: Option<real>): (mb: int)
    ensures heap.None? || heap.value == 0.0 ==> mb == 0
    ensures heap.Some? && heap.value != 0.0 ==> Abs(mb as real - heap.value / 1048576.0) <= 0.5
  {
    if heap.Some? && heap.value != 0.0 then Round(heap.value / 1024.0 / 1024.0) else 0
  }

  /** The report over an interval of delta milliseconds: the statistics are
      passed through and the three derived figures keep their bounds. */
  function MakeReport(delta: real, drawCalls: nat, triangles: nat, heap: Option<real>): (r: Report)
    ensures r.drawCalls == drawCalls && r.triangles == triangles
    ensures r.fps == PosInf <==> delta == 0.0
    ensures delta != 0.0 ==> r.fps.Finite? && Abs(r.fps.value - 60000.0 / delta) <= 0.5
    ensures Abs(r.frameTime - delta / 60.0) <= 0.005
    ensures heap.None? || heap.value == 0.0 ==> r.memoryUsage == 0
    ensures heap.Some? && heap.value != 0.0 ==> Abs(r.memoryUsage as real - heap.value / 1048576.0) <= 0.5
  {
    Report(Fps(delta), FrameTime(delta), drawCalls, triangles, MemoryUsage(heap))
  }

  /** The counter's state between frames. */
  class Collector {
    var frameCount: nat
    var lastTime: real

    constructor (now: real)
      ensures frameCount == 0 && lastTime == now
    {
      frameCount := 0;
      lastTime := now;
    }

    /** One frame: the count goes up by one; on a multiple of 60 a report over
        the time since the last report is returned and the reference time moves
        to now; on any other frame nothing is reported and it stays. The host
        reads (clock, draw statistics, heap size) are parameters. */
    method Tick(now: real, drawCalls: nat, triangles: nat, heap: Option<real>) returns (report: Option<Report>)
      modifies this
      ensures frameCount == old(frameCount) + 1
      ensures report.Some? <==> frameCount % 60 == 0
      ensures report.Some? ==>
        report.value == MakeReport(now - old(lastTime), drawCalls, triangles, heap) && lastTime == now
      ensures report.None? ==> lastTime == old(lastTime)
    {
      frameCount := frameCount + 1;
      var deltaTime := now - lastTime;
      if frameCount % 60 == 0 {
        report := Some(MakeReport(deltaTime, drawCalls, triangles, heap));
        lastTime := now;
      } else {
        report := None;
      }
    }
  }

  /** Of any 60 consecutive frames exactly one reports: the frame counts
      c + 1, ..., c + 60 hold exactly one multiple of 60. */
  lemma OneReportPerSixty(c: nat, i: nat, j: nat)
    requires 1 <= i <= 60 && 1 <= j <= 60
    requires (c + i) % 60 == 0 && (c + j) % 60 == 0
    ensures i == j
  {
    ReportOffset(c, i);
    ReportOffset(c, j);
  }

  /** After frame count c, the next reporting frame is c + (60 - c % 60). */
  lemma ReportOffset(c: nat, i: nat)
    requires 1 <= i <= 60 && (c + i) % 60 == 0
    ensures i == 60 - c % 60
  {
    var q, r := c / 60, c % 60;
    assert c + i == 60 * q + (r + i);
    assert 1 <= r + i < 120;
    var q' := (c + i) / 60;
    assert 60 * q' == 60 * q + (r + i);
    assert r + i == 60 * (q' - q);
  }
}
