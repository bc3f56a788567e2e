/** The partition router: which queue a message event goes to. */
module Routing {
  import opened Messages

  const MIN_INT := -0x8000_0000_0000_0000
  const MAX_INT := 0x7FFF_FFFF_FFFF_FFFF

  function Pow2(k: nat): (p: int)
    ensures p > 0
  {
    if k == 0 then 1 else 2 * Pow2(k - 1)
  }

  /** Bitwise and of two's complement integers of any width. */
  function And(a: int, b: int): int
    decreases if a < 0 then -a else a
  {
    if a == 0 then 0
    else if a == -1 then b
    else (if a % 2 == 1 && b % 2 == 1 then 1 else 0) + 2 * And(a / 2, b / 2)
  }

  /** A 64-bit decrement. */
  function Decrement(val: int): int {
    if val == MIN_INT then MAX_INT else val - 1
  }

  /** isPowerOfTwo on a 64-bit int. */
  predicate IsPowerOfTwo(val: int) {
    val != 0 && And(val, Decrement(val)) == 0
  }

  lemma {:induction false} AndSelf(a: nat)
    ensures And(a, a) == a
  {
    if a > 0 {
      AndSelf(a / 2);
    }
  }

  lemma {:induction false} ClearsOfPow2(k: nat)
    ensures And(Pow2(k), Pow2(k) - 1) == 0
  {
    if k > 0 {
      var p := Pow2(k - 1);
      assert 2 * p / 2 == p && (2 * p - 1) / 2 == p - 1 && 2 * p % 2 == 0;
      ClearsOfPow2(k - 1);
    }
  }

  /** Of an odd number the test clears the lowest bit only. */
  lemma {:induction false} Pow2OfClears(n: nat) returns (k: nat)
    requires n > 0 && And(n, n - 1) == 0
    ensures n == Pow2(k)
  {
    if n % 2 == 1 {
      assert (n - 1) / 2 == n / 2;
      AndSelf(n / 2);
      k := 0;
    } else {
      assert (n - 1) / 2 == n / 2 - 1;
      k := Pow2OfClears(n / 2);
      k := k + 1;
    }
  }

  lemma {:induction false} AndPow2(k: nat)
    ensures And(-Pow2(k), Pow2(k) - 1) == 0
  {
    if k > 0 {
      var p := Pow2(k - 1);
      assert -(2 * p) / 2 == -p && (2 * p - 1) / 2 == p - 1 && -(2 * p) % 2 == 0;
      AndPow2(k - 1);
    }
  }

  /** A negative number whose low bits are not all clear, or that has a bit besides the sign, fails the test. */
  lemma {:induction false} AndNegative(n: int)
    requires n < 0
    ensures And(n, n - 1) != 0
    decreases -n
  {
    if n != -1 {
      if n % 2 == 0 {
        assert (n - 1) / 2 == n / 2 - 1;
        AndNegative(n / 2);
      } else {
        assert (n - 1) / 2 == n / 2;
        AndSelfNegative(n / 2);
      }
    }
  }

  lemma {:induction false} AndSelfNegative(a: int)
    requires a < 0
    ensures And(a, a) == a
    decreases -a
  {
    if a != -1 {
      AndSelfNegative(a / 2);
    }
  }

  lemma Pow2Of63()
    ensures Pow2(63) == 0x8000_0000_0000_0000
  {
    assert Pow2(8) == 0x100;
    assert Pow2(16) == 0x1_0000;
    assert Pow2(24) == 0x100_0000;
    assert Pow2(32) == 0x1_0000_0000;
    assert Pow2(40) == 0x100_0000_0000;
    assert Pow2(48) == 0x1_0000_0000_0000;
    assert Pow2(56) == 0x100_0000_0000_0000;
  }

  /** The test passes exactly for the powers of two and for the least integer. */
  lemma PowerOfTwoTest(val: int)
    requires MIN_INT <= val <= MAX_INT
    ensures IsPowerOfTwo(val) <==> val == MIN_INT || exists k: nat :: val == Pow2(k)
  {
    if val == MIN_INT {
      Pow2Of63();
      AndPow2(63);
    } else if val > 0 {
      if k: nat :| val == Pow2(k) {
        ClearsOfPow2(k);
      }
      if And(val, val - 1) == 0 {
        var k := Pow2OfClears(val);
      }
    } else if val < 0 {
      AndNegative(val);
    }
  }

  /** The number that the k lowest bits of h make. */
  function LowBits(h: nat, k: nat): nat {
    if k == 0 then 0 else h % 2 + 2 * LowBits(h / 2, k - 1)
  }

  lemma {:induction false} AndIsLowBits(h: nat, k: nat)
    ensures And(h, Pow2(k) - 1) == LowBits(h, k)
  {
    if k == 0 {
      AndZero(h);
    } else {
      AndOdd(h, Pow2(k - 1) - 1);
      AndIsLowBits(h / 2, k - 1);
    }
  }

  lemma {:induction false} LowBitsIsModulo(h: nat, k: nat)
    ensures LowBits(h, k) == h % Pow2(k)
  {
    if k > 0 {
      LowBitsIsModulo(h / 2, k - 1);
      ModTwice(h, Pow2(k - 1));
    }
  }

  /** Masking with all ones below a power of two is reduction modulo that power. */
  lemma AndMask(h: nat, k: nat)
    ensures And(h, Pow2(k) - 1) == h % Pow2(k)
  {
    AndIsLowBits(h, k);
    LowBitsIsModulo(h, k);
  }

  lemma AndOdd(h: nat, m: nat)
    ensures And(h, 2 * m + 1) == h % 2 + 2 * And(h / 2, m)
  {
    assert (2 * m + 1) / 2 == m && (2 * m + 1) % 2 == 1;
  }

  lemma {:induction false} AndZero(h: nat)
    ensures And(h, 0) == 0
  {
    if h > 0 {
      AndZero(h / 2);
    }
  }

  lemma ModTwice(h: nat, p: nat)
    requires p > 0
    ensures h % (2 * p) == h % 2 + 2 * (h / 2 % p)
  {
    var q, r := h / 2 / p, h / 2 % p;
    assert h == 2 * (q * p + r) + h % 2;
    assert h == q * (2 * p) + (h % 2 + 2 * r);
    ModUnique(h, 2 * p, q, h % 2 + 2 * r);
  }

  lemma Scales(d: int, m: int)
    requires m > 0
    ensures d >= 1 ==> d * m >= m
    ensures d <= -1 ==> d * m <= -m
  {
  }

  lemma ModUnique(h: int, m: nat, q: int, r: nat)
    requires h == q * m + r && r < m
    ensures h % m == r
  {
    var d := h / m - q;
    assert h == (h / m) * m + h % m;
    assert d * m == r - h % m;
    Scales(d, m);
  }

  /** The number of the bit that math.Log2 finds, rounded down. */
  function Log2(n: nat): nat
    requires n > 0
  {
    if n == 1 then 0 else 1 + Log2(n / 2)
  }

  lemma {:induction false} Log2OfPow2(k: nat)
    ensures Log2(Pow2(k)) == k
  {
    if k > 0 {
      assert Pow2(k) / 2 == Pow2(k - 1);
      Log2OfPow2(k - 1);
    }
  }

  /** mask<<1 | 1 on a non-negative mask. */
  function ShiftInOne(mask: int): int {
    2 * mask + 1
  }

  method HashMask(partitionCount: nat) returns (mask: int)
    requires partitionCount > 0
    ensures mask == Pow2(Log2(partitionCount)) - 1
  {
    var maskSize := Log2(partitionCount);
    mask := 0;
    for i := 0 to maskSize
      invariant mask == Pow2(i) - 1
    {
      mask := ShiftInOne(mask);
    }
  }

  /** The mask loop then yields the count less one. */
  lemma MaskOfCount(count: nat)
    requires 0 < count <= MAX_INT && IsPowerOfTwo(count)
    ensures Pow2(Log2(count)) == count
  {
    PowerOfTwoTest(count);
    var k: nat :| count == Pow2(k);
    Log2OfPow2(k);
  }

  /** For every count the test accepts, the masked hash is the hash modulo the count, a valid queue index. */
  lemma PartitionIsModulo(hash: nat, count: nat)
    requires 0 < count <= MAX_INT && IsPowerOfTwo(count)
    ensures And(hash, Pow2(Log2(count)) - 1) == hash % count
    ensures 0 <= hash % count < count
  {
    PowerOfTwoTest(count);
    var k: nat :| count == Pow2(k);
    Log2OfPow2(k);
    AndMask(hash, k);
  }

  /** The queue of an original message id, given the 32-bit checksum of its bytes. */
  function Partition(checksum: string -> bv32, count: nat, id: MsgId): (p: nat)
    requires 0 < count <= MAX_INT && IsPowerOfTwo(count)
    ensures p == checksum(id.channel + id.timestamp) as nat % count
  {
    PartitionIsModulo(checksum(id.channel + id.timestamp) as nat, count);
    And(checksum(id.channel + id.timestamp) as nat, Pow2(Log2(count)) - 1)
  }

  /** A CRC-32 hasher: what was written since the last reset determines the sum. */
  class Hasher {
    const checksum: string -> bv32
    var written: string

    constructor (checksum: string -> bv32)
      ensures this.checksum == checksum && written == ""
    {
      this.checksum := checksum;
      written := "";
    }

    method Reset()
      modifies this
      ensures written == ""
    {
      written := "";
    }

    method Write(bytes: string)
      modifies this
      ensures written == old(written) + bytes
    {
      written := written + bytes;
    }

    method Sum32() returns (sum: bv32)
      ensures sum == checksum(written)
    {
      sum := checksum(written);
    }
  }

  class PartitionRouter {
    const count: nat
    const capacity: nat
    const hasher: Hasher
    const hashMask: int
    // The buffered events of each queue.
    var messageQueues: seq<seq<MessageEvent>>

    ghost predicate Valid()
      reads this
    {
      && 0 < count <= MAX_INT && IsPowerOfTwo(count)
      && |messageQueues| == count
      && hashMask == count - 1
    }

    constructor (partitionCount: nat, queueBufferSize: nat, checksum: string -> bv32)
      requires 0 < partitionCount <= MAX_INT && IsPowerOfTwo(partitionCount)
      ensures Valid() && fresh(hasher) && hasher.checksum == checksum
      ensures count == partitionCount && capacity == queueBufferSize
      ensures forall q <- messageQueues :: q == []
    {
      count := partitionCount;
      capacity := queueBufferSize;
      hasher := new Hasher(checksum);
      var mask := HashMask(partitionCount);
      MaskOfCount(partitionCount);
      hashMask := mask;
      messageQueues := seq(partitionCount, i => []);
    }

    method PartitionForMsgId(msgId: MsgId) returns (partition: nat)
      requires Valid()
      modifies hasher
      ensures partition == Partition(hasher.checksum, count, msgId) < count
    {
      hasher.Reset();
      hasher.Write(msgId.channel);
      hasher.Write(msgId.timestamp);
      var res := hasher.Sum32();
      assert hasher.written == msgId.channel + msgId.timestamp;
      PartitionIsModulo(res as nat, count);
      MaskOfCount(count);
      partition := And(res as nat, hashMask);
    }

    /** One attempt at the send: a full queue takes nothing, and the send waits for its worker. */
    method RouteMessageEvent(msgEvent: MessageEvent) returns (sent: bool)
      requires Valid()
      modifies this, hasher
      ensures Valid()
      ensures var p := Partition(hasher.checksum, count, msgEvent.OriginalId());
        && sent == (|old(messageQueues)[p]| < capacity)
        && messageQueues
          == if sent then old(messageQueues)[p := old(messageQueues)[p] + [msgEvent]] else old(messageQueues)
    {
      var partition := PartitionForMsgId(msgEvent.OriginalId());
      sent := |messageQueues[partition]| < capacity;
      if sent {
        messageQueues := messageQueues[partition := messageQueues[partition] + [msgEvent]];
      }
    }
  }

  /**
   newPartitionRouter: an error for a count that fails the test, and a crash for one that passes it if that many queues
   cannot be made or have such a buffer; a slice has at most maxLength elements, a channel at most maxBuffer.
   */
  method NewPartitionRouter(partitionCount: int, queueBufferSize: int, checksum: string -> bv32, maxLength: nat,
                            maxBuffer: nat)
    returns (router: PartitionRouter?, crashed: bool)
    requires MIN_INT <= partitionCount <= MAX_INT
    ensures router != null <==>
      && (exists k: nat :: partitionCount == Pow2(k))
      && partitionCount <= maxLength && 0 <= queueBufferSize <= maxBuffer
    ensures router != null ==>
      && fresh(router) && router.Valid() && router.count == partitionCount && router.capacity == queueBufferSize
    ensures crashed <==>
      router == null && (partitionCount == MIN_INT || exists k: nat :: partitionCount == Pow2(k))
  {
    PowerOfTwoTest(partitionCount);
    if !IsPowerOfTwo(partitionCount) {
      return null, false;
    }
    if partitionCount < 0 || partitionCount > maxLength || queueBufferSize < 0 || queueBufferSize > maxBuffer {
      return null, true;
    }
    router := new PartitionRouter(partitionCount, queueBufferSize, checksum);
    crashed := false;
  }
}
