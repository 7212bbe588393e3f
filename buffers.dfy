/**
 * The guidance screen's buffers: a bounded FIFO of recent target points and
 * a circular buffer of positions.
 */
module BufferTypes {
  import opened Wrappers
  import opened Geometry
  import opened Window

  /** Keeps at most `maxSize` points, dropping the oldest ones first. */
  class ObjectBuffer {
    var buffer: seq<Point>
    const maxSize: int

    ghost predicate Valid()
      reads this`buffer
    {
      0 <= maxSize && |buffer| <= maxSize
    }

    /** A negative size would make the first trim remove more points than exist. */
    constructor(maxSize: int)
      requires maxSize >= 0
      ensures this.maxSize == maxSize && buffer == [] && Valid()
    {
      this.maxSize := maxSize;
      buffer := [];
    }

    method AddToBuffer(point: Point)
      requires Valid()
      modifies this
      ensures Valid()
      ensures buffer == Newest(old(buffer) + [point], maxSize)
    {
      buffer := buffer + [point];
      if |buffer| > maxSize {
        buffer := buffer[|buffer| - maxSize..];
      }
    }

    method ClearBuffer()
      requires Valid()
      modifies this
      ensures Valid() && buffer == []
    {
      buffer := [];
    }

    function Count(): (n: int)
      reads this
      ensures n == |buffer|
      ensures Valid() ==> 0 <= n <= maxSize
    {
      |buffer|
    }
  }

  datatype Position = Position(x: real, y: real)

  function SumX(ps: seq<Position>): real
    decreases |ps|
  {
    if |ps| == 0 then 0.0 else SumX(ps[..|ps| - 1]) + ps[|ps| - 1].x
  }

  function SumY(ps: seq<Position>): real
    decreases |ps|
  {
    if |ps| == 0 then 0.0 else SumY(ps[..|ps| - 1]) + ps[|ps| - 1].y
  }

  /**
   * A fixed-capacity buffer: it appends until full, then overwrites slot
   * `index` and advances `index` around the ring.
   */
  class PositionBuffer {
    const maxSize: int
    var positions: seq<Position>
    var index: int

    ghost predicate Valid()
      reads this
    {
      0 <= index && (maxSize > 0 ==> index < maxSize) && (|positions| <= maxSize || |positions| == 0)
    }

    constructor(maxSize: int)
      ensures this.maxSize == maxSize && positions == [] && index == 0 && Valid()
    {
      this.maxSize := maxSize;
      positions := [];
      index := 0;
    }

    /** With no capacity the first overwrite would index an empty array, so a positive size is needed. */
    method AddPosition(position: Position)
      requires Valid() && maxSize > 0
      modifies this
      ensures Valid()
      ensures old(|positions|) < maxSize ==> positions == old(positions) + [position] && index == old(index)
      ensures old(|positions|) >= maxSize ==>
        |positions| == maxSize && positions == old(positions)[old(index) := position]
        && index == (old(index) + 1) % maxSize
    {
      if |positions| < maxSize {
        positions := positions + [position];
      } else {
        positions := positions[index := position];
        index := (index + 1) % maxSize;
      }
    }

    function GetAllPositions(): (r: seq<Position>)
      reads this
      ensures |r| == |positions| && forall i :: 0 <= i < |r| ==> r[i] == positions[i]
    {
      positions
    }

    /** The last slot of the array, which after wrap-around is not necessarily the newest position. */
    function GetLastPosition(): (r: Option<Position>)
      reads this
      ensures r.None? <==> |positions| == 0
      ensures r.Some? ==> r.value == positions[|positions| - 1]
    {
      if |positions| == 0 then None else Some(positions[|positions| - 1])
    }

    /** Empties the buffer; the ring index is kept. */
    method Clear()
      requires Valid()
      modifies this
      ensures Valid() && positions == [] && index == old(index)
    {
      positions := [];
    }

    /**
     * The mean of the x and of the y coordinates, which the standard
     * deviation estimate is centred on; nothing for an empty buffer.
     */
    function EstimateMean(): (r: Option<Position>)
      reads this
      ensures r.None? <==> |positions| == 0
      ensures r.Some? ==> r.value.x * |positions| as real == SumX(positions)
      ensures r.Some? ==> r.value.y * |positions| as real == SumY(positions)
    {
      if |positions| == 0 then None
      else Some(Position(SumX(positions) / |positions| as real, SumY(positions) / |positions| as real))
    }
  }

  /**
   * Once the ring has wrapped, `GetLastPosition` reports the old last slot
   * while the newest position sits at the slot before `index`.
   */
  method LastAfterWrap() returns (last: Option<Position>, newest: Position)
    ensures last == Some(Position(2.0, 0.0)) && newest == Position(3.0, 0.0)
  {
    var b := new PositionBuffer(3);
    b.AddPosition(Position(0.0, 0.0));
    b.AddPosition(Position(1.0, 0.0));
    b.AddPosition(Position(2.0, 0.0));
    newest := Position(3.0, 0.0);
    b.AddPosition(newest);
    last := b.GetLastPosition();
  }

  /** A buffer of identical positions has that position as its mean. */
  lemma {:induction false} MeanOfConstant(ps: seq<Position>, p: Position)
    requires forall i :: 0 <= i < |ps| ==> ps[i] == p
    ensures SumX(ps) == |ps| as real * p.x && SumY(ps) == |ps| as real * p.y
    decreases |ps|
  {
    if |ps| > 0 {
      MeanOfConstant(ps[..|ps| - 1], p);
    }
  }
}
