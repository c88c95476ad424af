/** The provided-buffer ring of buffer_ring.rs: receive buffers that the worker publishes to the kernel through
    a ring of descriptors with a 16-bit tail, and that the kernel lends back one completion at a time. */
module BufferRing {
  import opened Common

  const WORD: nat := 0x1_0000

  predicate IsPowerOfTwo(n: nat) { n == 1 || (n > 1 && n % 2 == 0 && IsPowerOfTwo(n / 2)) }

  /** The numbers of entries that a ring can have. */
  predicate IsRingSize(n: nat) { n <= 32_768 && IsPowerOfTwo(n) }

  /** What `register` accepts. */
  predicate CanRegister(entryCount: nat, bufferSize: nat) {
    IsRingSize(entryCount) && 0 < bufferSize <= 0xFFFF_FFFF
  }

  /** For each of the sixteen sizes the source's `tail & mask` is the remainder used below. */
  lemma MaskIsRemainder(tail: bv16)
    ensures tail & 0 == tail % 1 && tail & 1 == tail % 2 && tail & 3 == tail % 4 && tail & 7 == tail % 8
    ensures tail & 15 == tail % 16 && tail & 31 == tail % 32 && tail & 63 == tail % 64 && tail & 127 == tail % 128
    ensures tail & 255 == tail % 256 && tail & 511 == tail % 512 && tail & 1023 == tail % 1024
    ensures tail & 2047 == tail % 2048 && tail & 4095 == tail % 4096 && tail & 8191 == tail % 8192
    ensures tail & 16383 == tail % 16384 && tail & 32767 == tail % 32768
  {
  }

  lemma WordIsPowerOfTwo()
    ensures IsPowerOfTwo(WORD)
  {
    assert IsPowerOfTwo(16);
    assert IsPowerOfTwo(256);
    assert IsPowerOfTwo(4096);
  }

  /** How often a ring fits into the range of the tail: a whole number of times. */
  ghost function RingLaps(n: nat): (laps: nat)
    requires IsPowerOfTwo(n) && n <= WORD
    ensures n * laps == WORD && IsPowerOfTwo(laps)
  {
    WordIsPowerOfTwo();
    if n == 1 then WORD else RingLaps(n / 2) / 2
  }

  lemma SplitRemainder(k: int, n: int, m: int)
    requires n >= 0 && m >= 0 && n * m > 0
    ensures k % (n * m) % n == k % n
  {
    var q, r := k / (n * m), k % (n * m);
    assert k == q * (n * m) + r && q * (n * m) == (q * m) * n;
    assert r == r / n * n + r % n;
    assert k == (q * m + r / n) * n + r % n;
    Remainder(k, q * m + r / n, r % n, n);
  }

  /** A 16-bit counter and the unbounded count behind it select the same ring entry. */
  lemma WrappedIndex(count: nat, n: nat)
    requires IsRingSize(n)
    ensures n > 0 && count % WORD % n == count % n
  {
    SplitRemainder(count, n, RingLaps(n));
  }

  /** Two counts less than a ring apart select different entries. */
  lemma DistinctIndex(a: nat, b: nat, n: nat)
    requires n > 0 && a < b < a + n
    ensures a % n != b % n
  {
    EqualRemainders(a, b, n);
    SmallRemainder(b - a, n);
  }

  predicate NoDuplicates(s: seq<nat>) { forall i, j | 0 <= i < j < |s| :: s[i] != s[j] }

  /** The buffer ids of a ring of `n` entries. */
  ghost function Ids(n: nat): (ids: set<nat>)
    ensures |ids| == n && forall i: nat :: i in ids <==> i < n
  {
    if n == 0 then {} else Ids(n - 1) + {n - 1}
  }

  /** The same, lowest first. */
  ghost function Ascending(n: nat): (ids: seq<nat>)
    ensures |ids| == n
  {
    if n == 0 then [] else Ascending(n - 1) + [n - 1]
  }

  ghost function Elements(s: seq<nat>): (r: set<nat>)
    ensures forall x: nat :: x in r <==> x in s
  {
    if s == [] then {} else
      assert s == s[..|s| - 1] + [s[|s| - 1]];
      Elements(s[..|s| - 1]) + {s[|s| - 1]}
  }

  lemma {:induction false} ElementCount(s: seq<nat>)
    requires NoDuplicates(s)
    ensures |Elements(s)| == |s|
  {
    if s != [] {
      ElementCount(s[..|s| - 1]);
    }
  }

  lemma {:induction false} SubsetSize(a: set<nat>, b: set<nat>)
    requires a <= b
    ensures |a| <= |b|
  {
    if a != {} {
      var x :| x in a;
      SubsetSize(a - {x}, b - {x});
    }
  }

  /** Distinct numbers below `n`, one of which is missing, are fewer than `n`. */
  lemma Pigeonhole(s: seq<nat>, n: nat, missing: nat)
    requires NoDuplicates(s) && missing < n
    requires forall x | x in s :: x < n && x != missing
    ensures |s| < n
  {
    ElementCount(s);
    SubsetSize(Elements(s), Ids(n) - {missing});
  }

  function Zeroes(n: nat): (r: Bytes)
    ensures |r| == n
  {
    seq(n, _ => 0 as char)
  }

  /** Every buffer of a ring of `n` is either published once or lent, and never both. */
  ghost predicate Shared(queue: seq<nat>, lent: set<nat>, n: nat) {
    && NoDuplicates(queue)
    && (forall id | id in queue :: id < n && id !in lent)
    && (forall id | id in lent :: id < n)
    && (forall id | 0 <= id < n :: id in queue || id in lent)
  }

  /** The kernel-visible window, oldest descriptor first. */
  ghost function Window(entries: seq<nat>, taken: nat, published: nat): (q: seq<nat>)
    requires entries != [] && taken <= published
    ensures |q| == published - taken
    decreases published - taken
  {
    if taken == published then [] else [entries[taken % |entries|]] + Window(entries, taken + 1, published)
  }

  /** Storing the next descriptor extends the window and changes nothing in it, as long as it has room. */
  lemma {:induction false} StoreExtendsWindow(entries: seq<nat>, taken: nat, published: nat, id: nat)
    requires entries != [] && taken <= published < taken + |entries|
    ensures Window(entries[published % |entries| := id], taken, published + 1) == Window(entries, taken, published)
      + [id]
    decreases published - taken
  {
    var stored := entries[published % |entries| := id];
    if taken == published {
      assert Window(stored, taken + 1, published + 1) == [];
    } else {
      DistinctIndex(taken, published, |entries|);
      StoreExtendsWindow(entries, taken + 1, published, id);
    }
  }

  lemma SharedAfterPublish(queue: seq<nat>, lent: set<nat>, n: nat, id: nat)
    requires Shared(queue, lent, n) && id in lent
    ensures Shared(queue + [id], lent - {id}, n)
  {
  }

  lemma NextTail(published: nat)
    ensures (published % WORD + 1) % WORD == (published + 1) % WORD
  {
    NextRemainder(published, WORD);
    if published % WORD + 1 < WORD {
      SmallRemainder(published % WORD + 1, WORD);
    }
  }

  /** Publishing in terms of the descriptors and the 16-bit tail. */
  lemma PublishedWindow(entries: seq<nat>, tail: nat, taken: nat, published: nat, lent: set<nat>, id: nat)
    requires IsRingSize(|entries|) && tail == published % WORD && taken <= published
    requires Shared(Window(entries, taken, published), lent, |entries|) && id in lent
    ensures published < taken + |entries| && (tail + 1) % WORD == (published + 1) % WORD
    ensures var window := Window(entries[tail % |entries| := id], taken, published + 1);
            window == Window(entries, taken, published) + [id] && Shared(window, lent - {id}, |entries|)
  {
    WrappedIndex(published, |entries|);
    NextTail(published);
    RoomForOneMore(entries, taken, published, lent, id);
  }

  lemma RoomForOneMore(entries: seq<nat>, taken: nat, published: nat, lent: set<nat>, id: nat)
    requires entries != [] && taken <= published
    requires Shared(Window(entries, taken, published), lent, |entries|) && id in lent
    ensures published < taken + |entries|
    ensures var window := Window(entries[published % |entries| := id], taken, published + 1);
            window == Window(entries, taken, published) + [id] && Shared(window, lent - {id}, |entries|)
  {
    Pigeonhole(Window(entries, taken, published), |entries|, id);
    StoreExtendsWindow(entries, taken, published, id);
    SharedAfterPublish(Window(entries, taken, published), lent, |entries|, id);
  }

  lemma SharedAfterTake(queue: seq<nat>, lent: set<nat>, n: nat)
    requires Shared(queue, lent, n) && queue != []
    ensures Shared(queue[1..], lent + {queue[0]}, n)
  {
    forall id | id in queue[1..] ensures id in queue && id != queue[0] {
      var i :| 0 <= i < |queue| - 1 && queue[1..][i] == id;
      assert queue[i + 1] == id;
    }
    forall id | id in queue && id != queue[0] ensures id in queue[1..] {
      var i :| 0 <= i < |queue| && queue[i] == id;
      assert queue[1..][i - 1] == id;
    }
  }

  class ProvidedBufferRing {
    /** The descriptor ring shared with the kernel: the buffer id of each entry. */
    const entries: array<nat>
    var buffers: seq<Bytes>
    const bufferLen: nat
    /** The 16-bit tail as the kernel sees it. */
    var tail: nat

    /** How many descriptors the kernel has taken, and how many were ever published. */
    var taken: nat
    var published: nat
    /** Buffers the kernel has filled and handed to the worker in completions not yet handled. */
    ghost var lent: set<nat>

    ghost function Size(): nat { entries.Length }

    ghost predicate Shape()
      reads this
    {
      && IsRingSize(entries.Length) && |buffers| == entries.Length
      && (forall i | 0 <= i < |buffers| :: |buffers[i]| == bufferLen)
      && tail == published % WORD
      && taken <= published <= taken + entries.Length
    }

    ghost function Queue(): (q: seq<nat>)
      reads this, entries
      requires Shape()
      ensures |q| == published - taken
    {
      Window(entries[..], taken, published)
    }

    ghost predicate Valid()
      reads this, entries
    {
      Shape() && Shared(Queue(), lent, Size())
    }

    constructor Published(entryCount: nat, bufferSize: nat)
      requires CanRegister(entryCount, bufferSize)
      ensures Valid() && fresh(entries)
      ensures Size() == entryCount && bufferLen == bufferSize && lent == {}
      ensures Queue() == Ascending(entryCount)
    {
      entries := new nat[entryCount];
      buffers := seq(entryCount, _ => Zeroes(bufferSize));
      bufferLen := bufferSize;
      tail := 0;
      published, taken := 0, 0;
      lent := Ids(entryCount);
      new;
      assert Queue() == [];
      PublishAll();
    }

    /** A ring exactly for the sizes that its descriptors can name, if the kernel takes it. */
    static method Register(entryCount: nat, bufferSize: nat, accepted: bool) returns (r: Option<ProvidedBufferRing>)
      ensures r.Some? <==> CanRegister(entryCount, bufferSize) && accepted
      ensures r.Some? ==> fresh(r.value) && fresh(r.value.entries) && r.value.Valid() && r.value.lent == {}
      ensures r.Some? ==> r.value.Size() == entryCount && r.value.bufferLen == bufferSize
      ensures r.Some? ==> r.value.Queue() == Ascending(entryCount)
    {
      if !IsRingSize(entryCount) || bufferSize > 0xFFFF_FFFF || bufferSize == 0 {
        return None;
      }
      var ring := new ProvidedBufferRing.Published(entryCount, bufferSize);
      r := if accepted then Some(ring) else None;
    }

    /** The loop of `register`: every buffer is handed to the kernel, in order. */
    method PublishAll()
      requires Valid() && Queue() == [] && lent == Ids(Size())
      modifies this`tail, this`published, this`lent, entries
      ensures Valid() && lent == {} && Queue() == Ascending(Size())
    {
      for id := 0 to entries.Length
        invariant Valid() && Queue() == Ascending(id) && lent == Ids(Size()) - Ids(id)
      {
        Publish(id);
      }
    }

    /** Publishing appends one descriptor to the window and disturbs none that the kernel has yet to take. */
    method Publish(id: nat)
      requires Valid() && id in lent
      modifies this`tail, this`published, this`lent, entries
      ensures Valid()
      ensures Queue() == old(Queue()) + [id] && lent == old(lent) - {id}
      ensures published == old(published) + 1
    {
      var index := tail % entries.Length;
      ghost var stored := entries[..];
      PublishedWindow(stored, tail, taken, published, lent, id);
      entries[index] := id;
      tail := (tail + 1) % WORD;
      published := published + 1;
      lent := lent - {id};
      assert entries[..] == stored[index := id];
    }

    /** The worker's half of a receive: copy the bytes out and give the buffer back, even when the completion
        claims more bytes than the buffer holds. */
    method CopyAndRelease(id: nat, length: nat) returns (r: Option<Bytes>)
      requires Valid() && (id < Size() ==> id in lent)
      modifies this`tail, this`published, this`lent, entries
      ensures Valid()
      ensures lent == old(lent) - {id}
      ensures Queue() == if id < Size() then old(Queue()) + [id] else old(Queue())
      ensures r == if id < Size() && length <= bufferLen then Some(buffers[id][..length]) else None
    {
      if id >= |buffers| {
        return None;
      }
      if length > |buffers[id]| {
        Publish(id);
        return None;
      }
      var bytes := buffers[id][..length];
      Publish(id);
      r := Some(bytes);
    }

    /** What a receive of `result` bytes delivers; nothing if the completion is impossible. */
    ghost function Payload(result: int, id: Option<nat>): (r: Option<Bytes>)
      reads this
      requires Shape()
      ensures r.Some? && result > 0 ==> |r.value| == result
    {
      if result <= 0 then Some("")
      else if id.None? || id.value >= Size() || result > bufferLen then None
      else Some(buffers[id.value][..result])
    }

    /** The kernel's half: a receive fills the buffer at the head of the window. */
    method KernelTake(data: Bytes) returns (id: nat)
      requires Valid() && Queue() != [] && |data| <= bufferLen
      modifies this`taken, this`lent, this`buffers
      ensures Valid()
      ensures id == old(Queue())[0] && Queue() == old(Queue())[1..]
      ensures lent == old(lent) + {id}
      ensures buffers[id][..|data|] == data
      ensures forall other | 0 <= other < Size() && other != id :: buffers[other] == old(buffers)[other]
    {
      ghost var window := Queue();
      id := entries[taken % entries.Length];
      assert id == window[0] && id in window && window[1..] == Window(entries[..], taken + 1, published);
      buffers := buffers[id := data + buffers[id][|data|..]];
      taken := taken + 1;
      lent := lent + {id};
      assert Queue() == window[1..];
      SharedAfterTake(window, old(lent), entries.Length);
    }
  }

  ghost function Copies(q: seq<nat>, id: nat): nat { multiset(q)[id] }

  /** What is not lent is published. */
  lemma QueueAndLent(queue: seq<nat>, lent: set<nat>, n: nat)
    requires Shared(queue, lent, n)
    ensures |queue| + |lent| == n
  {
    ElementCount(queue);
    assert Elements(queue) + lent == Ids(n) && Elements(queue) * lent == {};
  }

  /** With nothing lent, the kernel can see every buffer exactly once. */
  lemma AllBack(ring: ProvidedBufferRing)
    requires ring.Valid() && ring.lent == {}
    ensures |ring.Queue()| == ring.Size()
    ensures forall id: nat :: Copies(ring.Queue(), id) == if id < ring.Size() then 1 else 0
  {
    var q := ring.Queue();
    ElementCount(q);
    assert Elements(q) == Ids(ring.Size());
    forall id: nat ensures Copies(q, id) == if id < ring.Size() then 1 else 0 {
      OnceEach(q, id);
    }
  }

  lemma {:induction false} OnceEach(q: seq<nat>, x: nat)
    requires NoDuplicates(q)
    ensures Copies(q, x) == if x in q then 1 else 0
  {
    if q != [] {
      assert q == q[..|q| - 1] + [q[|q| - 1]];
      OnceEach(q[..|q| - 1], x);
    }
  }
}
