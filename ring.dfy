/**
 * The bounded single-producer/single-consumer ring buffer that carries both
 * parameter messages and bridged audio, seen as the sequence of queued items.
 */
module Ring {
  import opened Wrappers

  class Fifo<T> {
    /** Queued items, oldest first. */
    var items: seq<T>
    /** Fixed at creation; a push into a full queue fails. */
    const capacity: nat

    ghost predicate Valid()
      reads this
    {
      |items| <= capacity
    }

    constructor (capacity: nat)
      ensures Valid() && this.capacity == capacity && items == []
    {
      this.capacity := capacity;
      items := [];
    }

    /** Free slots, as the producer sees them. */
    function Slots(): (n: nat)
      reads this
      requires Valid()
      ensures n + |items| == capacity
    {
      capacity - |items|
    }

    /** Appends `x`, or hands it back when the queue is full. */
    method Push(x: T) returns (r: Result<(), T>)
      requires Valid()
      modifies this
      ensures Valid()
      ensures old(|items|) < capacity ==> r == Ok(()) && items == old(items) + [x]
      ensures old(|items|) == capacity ==> r == Err(x) && items == old(items)
    {
      if |items| < capacity {
        items := items + [x];
        r := Ok(());
      } else {
        r := Err(x);
      }
    }

    /** Removes the oldest item, or reports that the queue is empty. */
    method Pop() returns (r: Option<T>)
      requires Valid()
      modifies this
      ensures Valid()
      ensures old(items) == [] ==> r == None && items == []
      ensures old(items) != [] ==> r == Some(old(items)[0]) && items == old(items)[1..]
    {
      if items == [] {
        r := None;
      } else {
        r := Some(items[0]);
        items := items[1..];
      }
    }
  }

  // ---------------------------------------------------------------- ring size

  /** Smallest ring a bridge or a device sink gets, in samples. */
  const MinRingSize: nat := 8192

  ghost predicate IsPowerOfTwo(n: nat)
  {
    n == 1 || (n >= 2 && n % 2 == 0 && IsPowerOfTwo(n / 2))
  }

  /** The first power of two at or above `x`, searching upwards from `p`. */
  function PowerAtLeast(x: nat, p: nat): (r: nat)
    requires IsPowerOfTwo(p) && (p == 1 || p / 2 < x)
    ensures IsPowerOfTwo(r) && r >= x
    ensures r == 1 || r / 2 < x
    decreases x - p
  {
    if p >= x then p else PowerAtLeast(x, 2 * p)
  }

  /** The least power of two not below `x` (1 for 0). */
  function NextPowerOfTwo(x: nat): (p: nat)
    ensures IsPowerOfTwo(p) && p >= x
    ensures p == 1 || p / 2 < x
  {
    PowerAtLeast(x, 1)
  }

  lemma MinRingSizeIsPowerOfTwo()
    ensures IsPowerOfTwo(MinRingSize)
  {
    assert IsPowerOfTwo(1);
    assert IsPowerOfTwo(2);
    assert IsPowerOfTwo(4);
    assert IsPowerOfTwo(8);
    assert IsPowerOfTwo(16);
    assert IsPowerOfTwo(32);
    assert IsPowerOfTwo(64);
    assert IsPowerOfTwo(128);
    assert IsPowerOfTwo(256);
    assert IsPowerOfTwo(512);
    assert IsPowerOfTwo(1024);
    assert IsPowerOfTwo(2048);
    assert IsPowerOfTwo(4096);
  }

  /**
   * Ring capacity of a bridge: a tenth of a second of interleaved samples,
   * rounded up to a power of two, never below 8192.
   */
  function RingSize(rate: nat, channels: nat): (size: nat)
    ensures IsPowerOfTwo(size)
    ensures size >= MinRingSize && size >= (rate / 10) * channels
    ensures size == MinRingSize || size / 2 < (rate / 10) * channels
  {
    MinRingSizeIsPowerOfTwo();
    var wanted := NextPowerOfTwo((rate / 10) * channels);
    if wanted < MinRingSize then MinRingSize else wanted
  }
}
