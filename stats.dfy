/**
 * The statistics engine of the dmp target: the four counters of a
 * `struct dmp_stats` (stats.h), how a request updates them (update_stats in
 * mod.c), the six read-only attributes derived from them, the show/store
 * callbacks, and the creation and destruction of a statistics object
 * (stats.c).
 */
module Stats {
  import opened Kernel

  /** The direction of a bio as update_stats classifies it. */
  datatype Op = Read | Write | Other

  /** What update_stats reads from a bio: its operation and its byte count. */
  datatype Request = Request(op: Op, size: U32)

  /** The values of the four counters of one statistics object. */
  datatype Counters = Counters(readReqs: nat, readTotalSize: nat, writeReqs: nat, writeTotalSize: nat)

  /** A freshly kzalloc'd statistics object. */
  const ZERO: Counters := Counters(0, 0, 0, 0)

  // ---------------------------------------------------------------------------
  // Counting requests

  /** The effect of one request on the counters. */
  function Step(c: Counters, op: Op, size: U32): Counters
  {
    match op
    case Read => c.(readReqs := c.readReqs + 1, readTotalSize := c.readTotalSize + size)
    case Write => c.(writeReqs := c.writeReqs + 1, writeTotalSize := c.writeTotalSize + size)
    case Other => c
  }

  /** The counters after a whole sequence of requests, oldest first. */
  function Accumulate(c: Counters, rs: seq<Request>): Counters
    decreases |rs|
  {
    if rs == [] then c else Accumulate(Step(c, rs[0].op, rs[0].size), rs[1..])
  }

  /** How many requests of `rs` have operation `op`. */
  function Count(rs: seq<Request>, op: Op): nat
    decreases |rs|
  {
    if rs == [] then 0 else (if rs[0].op == op then 1 else 0) + Count(rs[1..], op)
  }

  /** The sum of the sizes of the requests of `rs` that have operation `op`. */
  function SizeSum(rs: seq<Request>, op: Op): nat
    decreases |rs|
  {
    if rs == [] then 0 else (if rs[0].op == op then rs[0].size else 0) + SizeSum(rs[1..], op)
  }

  /** Counters `d` are, field by field, at least counters `c`. */
  predicate NoneDecreased(c: Counters, d: Counters)
  {
    c.readReqs <= d.readReqs && c.readTotalSize <= d.readTotalSize &&
    c.writeReqs <= d.writeReqs && c.writeTotalSize <= d.writeTotalSize
  }

  /**
   * After any sequence of requests, each request counter has grown by the
   * number of requests in its direction and each size counter by the sum of
   * their sizes; requests of any other operation leave no trace.
   */
  lemma {:induction false} AccumulateCounts(c: Counters, rs: seq<Request>)
    ensures Accumulate(c, rs) == Counters(
              c.readReqs + Count(rs, Read), c.readTotalSize + SizeSum(rs, Read),
              c.writeReqs + Count(rs, Write), c.writeTotalSize + SizeSum(rs, Write))
    decreases |rs|
  {
    if rs != [] {
      AccumulateCounts(Step(c, rs[0].op, rs[0].size), rs[1..]);
    }
  }

  /** No counter ever decreases, whatever the requests. */
  lemma {:induction false} AccumulateMonotone(c: Counters, rs: seq<Request>)
    ensures NoneDecreased(c, Accumulate(c, rs))
  {
    AccumulateCounts(c, rs);
  }

  /** Recording one more request extends the history by that request. */
  lemma {:induction false} AccumulateSnoc(c: Counters, rs: seq<Request>, r: Request)
    ensures Accumulate(c, rs + [r]) == Step(Accumulate(c, rs), r.op, r.size)
    decreases |rs|
  {
    if rs == [] {
      assert rs + [r] == [r];
    } else {
      assert (rs + [r])[1..] == rs[1..] + [r];
      AccumulateSnoc(Step(c, rs[0].op, rs[0].size), rs[1..], r);
    }
  }

  /** Every request is a read, a write or something else. */
  lemma {:induction false} CountPartition(rs: seq<Request>)
    ensures Count(rs, Read) + Count(rs, Write) + Count(rs, Other) == |rs|
    decreases |rs|
  {
    if rs != [] {
      CountPartition(rs[1..]);
    }
  }

  // ---------------------------------------------------------------------------
  // The six attributes (ATTR_SHOW in stats.c)

  /** read_reqs: the read-request counter. */
  function ReadReqs(c: Counters): nat
  {
    c.readReqs
  }

  /** write_reqs: the write-request counter. */
  function WriteReqs(c: Counters): nat
  {
    c.writeReqs
  }

  /** total_reqs: all counted requests. */
  function TotalReqs(c: Counters): (r: nat)
    ensures r == ReadReqs(c) + WriteReqs(c)
    ensures ReadReqs(c) <= r && WriteReqs(c) <= r
  {
    c.readReqs + c.writeReqs
  }

  /**
   * read_avg_size: the read bytes divided by the read requests, rounded
   * down. The source divides without checking the divisor, so the attribute
   * is defined only once a read has been counted.
   */
  function ReadAvgSize(c: Counters): (r: nat)
    requires c.readReqs > 0
    ensures r * c.readReqs <= c.readTotalSize < (r + 1) * c.readReqs
  {
    c.readTotalSize / c.readReqs
  }

  /** write_avg_size: as read_avg_size, for writes; defined once a write has been counted. */
  function WriteAvgSize(c: Counters): (r: nat)
    requires c.writeReqs > 0
    ensures r * c.writeReqs <= c.writeTotalSize < (r + 1) * c.writeReqs
  {
    c.writeTotalSize / c.writeReqs
  }

  /** total_avg_size: all counted bytes over all counted requests, rounded down. */
  function TotalAvgSize(c: Counters): (r: nat)
    requires c.readReqs + c.writeReqs > 0
    ensures r * TotalReqs(c) <= c.readTotalSize + c.writeTotalSize < (r + 1) * TotalReqs(c)
  {
    (c.readTotalSize + c.writeTotalSize) / (c.readReqs + c.writeReqs)
  }

  /**
   * After a history of requests, the three request attributes show how many
   * reads and writes there were, and the total leaves out every other request.
   */
  lemma ShowHistory(rs: seq<Request>)
    ensures ReadReqs(Accumulate(ZERO, rs)) == Count(rs, Read)
    ensures WriteReqs(Accumulate(ZERO, rs)) == Count(rs, Write)
    ensures TotalReqs(Accumulate(ZERO, rs)) == |rs| - Count(rs, Other)
  {
    AccumulateCounts(ZERO, rs);
    CountPartition(rs);
  }

  /** The sizes of requests that all have the same size add up to that size times their number. */
  lemma {:induction false} UniformSizeSum(rs: seq<Request>, op: Op, size: U32)
    requires forall i :: 0 <= i < |rs| && rs[i].op == op ==> rs[i].size == size
    ensures SizeSum(rs, op) == size * Count(rs, op)
    decreases |rs|
  {
    if rs != [] {
      UniformSizeSum(rs[1..], op, size);
    }
  }

  /** When every read has the same size, read_avg_size shows exactly that size. */
  lemma UniformReadAverage(rs: seq<Request>, size: U32)
    requires forall i :: 0 <= i < |rs| && rs[i].op == Read ==> rs[i].size == size
    requires Count(rs, Read) > 0
    ensures Accumulate(ZERO, rs).readReqs > 0
    ensures ReadAvgSize(Accumulate(ZERO, rs)) == size
  {
    AccumulateCounts(ZERO, rs);
    UniformSizeSum(rs, Read, size);
    QuotientUnique(size * Count(rs, Read), Count(rs, Read), size);
  }

  /** The quotient is the one number whose multiples bracket the dividend. */
  lemma QuotientUnique(m: nat, d: nat, q: nat)
    requires d > 0
    requires q * d <= m < (q + 1) * d
    ensures m / d == q
  {
    QuotientAtLeast(m, d, q);
    QuotientAtMost(m, d, q);
  }

  lemma QuotientAtLeast(m: nat, d: nat, n: nat)
    requires d > 0 && n * d <= m
    ensures n <= m / d
  {
    var t := m / d;
    if t < n {
      MulMonotone(t + 1, n, d);
    }
  }

  lemma QuotientAtMost(m: nat, d: nat, n: nat)
    requires d > 0 && m < (n + 1) * d
    ensures m / d <= n
  {
    var t := m / d;
    if n < t {
      MulMonotone(n + 1, t, d);
    }
  }

  lemma MulMonotone(a: nat, b: nat, d: nat)
    requires a <= b
    ensures a * d <= b * d
  {
  }

  lemma MulDistributes(n: nat, b: nat, y: nat)
    ensures n * (b + y) == n * b + n * y
  {
  }

  /**
   * total_avg_size lies between read_avg_size and write_avg_size whenever both
   * are defined: it is the rounded-down mediant of the two ratios.
   */
  lemma TotalAvgBetween(c: Counters)
    requires c.readReqs > 0 && c.writeReqs > 0
    ensures ReadAvgSize(c) <= WriteAvgSize(c) ==>
              ReadAvgSize(c) <= TotalAvgSize(c) <= WriteAvgSize(c)
    ensures WriteAvgSize(c) <= ReadAvgSize(c) ==>
              WriteAvgSize(c) <= TotalAvgSize(c) <= ReadAvgSize(c)
  {
    if ReadAvgSize(c) <= WriteAvgSize(c) {
      MediantBounds(c.readTotalSize, c.readReqs, c.writeTotalSize, c.writeReqs);
    }
    if WriteAvgSize(c) <= ReadAvgSize(c) {
      MediantBounds(c.writeTotalSize, c.writeReqs, c.readTotalSize, c.readReqs);
      assert c.writeTotalSize + c.readTotalSize == c.readTotalSize + c.writeTotalSize;
      assert c.writeReqs + c.readReqs == c.readReqs + c.writeReqs;
    }
  }

  lemma MediantBounds(a: nat, b: nat, x: nat, y: nat)
    requires b > 0 && y > 0
    requires a / b <= x / y
    ensures a / b <= (a + x) / (b + y) <= x / y
  {
    var p, q := a / b, x / y;
    QuotientBracket(a, b);
    QuotientBracket(x, y);
    MediantLower(a, b, x, y, p, q);
    QuotientAtLeast(a + x, b + y, p);
    MediantUpper(a, b, x, y, p, q);
    QuotientAtMost(a + x, b + y, q);
  }

  lemma QuotientBracket(m: nat, d: nat)
    requires d > 0
    ensures (m / d) * d <= m < (m / d + 1) * d
  {
  }

  lemma MediantLower(a: nat, b: nat, x: nat, y: nat, p: nat, q: nat)
    requires p <= q && p * b <= a && q * y <= x
    ensures p * (b + y) <= a + x
  {
    MulMonotone(p, q, y);
    MulDistributes(p, b, y);
  }

  lemma MediantUpper(a: nat, b: nat, x: nat, y: nat, p: nat, q: nat)
    requires p <= q && a < (p + 1) * b && x < (q + 1) * y
    ensures a + x < (q + 1) * (b + y)
  {
    MulMonotone(p + 1, q + 1, b);
    MulDistributes(q + 1, b, y);
  }

  // ---------------------------------------------------------------------------
  // The attribute table and its sysfs callbacks

  /** The show callbacks ATTR_SHOW generates. */
  datatype ShowFn =
    | ShowReadReqs | ShowWriteReqs | ShowReadAvgSize
    | ShowWriteAvgSize | ShowTotalReqs | ShowTotalAvgSize

  /** Whether a show callback's division, if it has one, has a non-zero divisor. */
  predicate Defined(f: ShowFn, c: Counters)
  {
    match f
    case ShowReadAvgSize => c.readReqs > 0
    case ShowWriteAvgSize => c.writeReqs > 0
    case ShowTotalAvgSize => c.readReqs + c.writeReqs > 0
    case _ => true
  }

  /** The value a show callback formats. */
  function Eval(f: ShowFn, c: Counters): nat
    requires Defined(f, c)
  {
    match f
    case ShowReadReqs => ReadReqs(c)
    case ShowWriteReqs => WriteReqs(c)
    case ShowReadAvgSize => ReadAvgSize(c)
    case ShowWriteAvgSize => WriteAvgSize(c)
    case ShowTotalReqs => TotalReqs(c)
    case ShowTotalAvgSize => TotalAvgSize(c)
  }

  /** A `struct stats_attr`: a sysfs attribute name and an optional show callback. */
  datatype Attribute = Attribute(name: string, show: Option<ShowFn>)

  /** stats_default_attrs: the six read-only attributes of every statistics object. */
  const DEFAULT_ATTRS: seq<Attribute> := [
    Attribute("read_reqs", Some(ShowReadReqs)),
    Attribute("write_reqs", Some(ShowWriteReqs)),
    Attribute("read_avg_size", Some(ShowReadAvgSize)),
    Attribute("write_avg_size", Some(ShowWriteAvgSize)),
    Attribute("total_reqs", Some(ShowTotalReqs)),
    Attribute("total_avg_size", Some(ShowTotalAvgSize))
  ]

  /** The outcome of a show: the value emitted, or a negative error number. */
  datatype ShowResult = Emitted(value: nat) | Failed(code: int)

  /**
   * stats_attr_show: an attribute without a show callback fails with -EIO;
   * otherwise the callback's value of the current counters is emitted.
   */
  function AttrShow(attr: Attribute, c: Counters): (r: ShowResult)
    requires attr.show.Some? ==> Defined(attr.show.value, c)
    ensures r.Failed? <==> attr.show.None?
    ensures r.Failed? ==> r.code == -EIO
    ensures r.Emitted? ==> r.value == Eval(attr.show.value, c)
  {
    match attr.show
    case None => Failed(-EIO)
    case Some(f) => Emitted(Eval(f, c))
  }

  /**
   * Every attribute of the default table has a show callback, so a show on it
   * never fails; it emits the value its name promises.
   */
  lemma DefaultAttrsShow(i: nat, c: Counters)
    requires i < |DEFAULT_ATTRS|
    requires Defined(DEFAULT_ATTRS[i].show.value, c)
    ensures AttrShow(DEFAULT_ATTRS[i], c).Emitted?
    ensures DEFAULT_ATTRS[i].name == "read_reqs" ==>
              AttrShow(DEFAULT_ATTRS[i], c).value == c.readReqs
    ensures DEFAULT_ATTRS[i].name == "write_reqs" ==>
              AttrShow(DEFAULT_ATTRS[i], c).value == c.writeReqs
    ensures DEFAULT_ATTRS[i].name == "read_avg_size" ==>
              c.readReqs > 0 && AttrShow(DEFAULT_ATTRS[i], c).value == ReadAvgSize(c)
    ensures DEFAULT_ATTRS[i].name == "write_avg_size" ==>
              c.writeReqs > 0 && AttrShow(DEFAULT_ATTRS[i], c).value == WriteAvgSize(c)
    ensures DEFAULT_ATTRS[i].name == "total_reqs" ==>
              AttrShow(DEFAULT_ATTRS[i], c).value == ReadReqs(c) + WriteReqs(c)
    ensures DEFAULT_ATTRS[i].name == "total_avg_size" ==>
              c.readReqs + c.writeReqs > 0 && AttrShow(DEFAULT_ATTRS[i], c).value == TotalAvgSize(c)
  {
  }

  // ---------------------------------------------------------------------------
  // The statistics object

  /** A `struct dmp_stats`: a named kobject under a kset, and four counters. */
  class DmpStats {
    const name: string
    const kset: nat
    var readReqs: nat
    var readTotalSize: nat
    var writeReqs: nat
    var writeTotalSize: nat

    /** The current values of the four counters. */
    function Value(): Counters
      reads this
    {
      Counters(readReqs, readTotalSize, writeReqs, writeTotalSize)
    }

    /** A zeroed allocation, placed in `kset` and named `name`. */
    constructor (name: string, kset: nat)
      ensures this.name == name && this.kset == kset
      ensures Value() == ZERO
    {
      this.name := name;
      this.kset := kset;
      readReqs, readTotalSize, writeReqs, writeTotalSize := 0, 0, 0, 0;
    }

    /**
     * update_stats: a read counts one read request and its size, a write one
     * write request and its size; any other operation is not counted.
     */
    method Record(op: Op, size: U32)
      modifies this
      ensures op == Read ==>
                readReqs == old(readReqs) + 1 && readTotalSize == old(readTotalSize) + size &&
                writeReqs == old(writeReqs) && writeTotalSize == old(writeTotalSize)
      ensures op == Write ==>
                writeReqs == old(writeReqs) + 1 && writeTotalSize == old(writeTotalSize) + size &&
                readReqs == old(readReqs) && readTotalSize == old(readTotalSize)
      ensures op == Other ==> Value() == old(Value())
      ensures Value() == Step(old(Value()), op, size)
    {
      match op
      case Read =>
        readReqs := readReqs + 1;
        readTotalSize := readTotalSize + size;
      case Write =>
        writeReqs := writeReqs + 1;
        writeTotalSize := writeTotalSize + size;
      case Other =>
    }

    /** stats_attr_store: every store is refused with -EIO and no counter changes. */
    method Store(attr: Attribute, buf: string) returns (r: int)
      ensures r == -EIO
      ensures Value() == old(Value())
    {
      r := -EIO;
    }
  }

  /** What the kernel calls inside dmp_create_stats return. */
  datatype CreateOutcomes = CreateOutcomes(
    alloc: bool,     // kzalloc found memory
    addRet: int,     // kobject_init_and_add; 0 is success
    ueventRet: int)  // kobject_uevent; 0 is success

  predicate Created(env: CreateOutcomes)
  {
    env.alloc && env.addRet == 0 && env.ueventRet == 0
  }

  /**
   * dmp_create_stats: a zeroed, named statistics object, or null. When
   * registration or the uevent fails the object is put, which frees it.
   */
  method CreateStats(name: string, kset: nat, env: CreateOutcomes, ledger: Ledger)
    returns (stats: DmpStats?)
    modifies ledger
    ensures stats != null <==> Created(env)
    ensures stats != null ==> fresh(stats) && stats.Value() == ZERO && stats.name == name && stats.kset == kset
    ensures !env.alloc ==> ledger.log == old(ledger.log)
    ensures env.alloc && !Created(env) ==>
              ledger.log == old(ledger.log) + [Acquire(StatsObject), Release(StatsObject)]
    ensures Created(env) ==> ledger.log == old(ledger.log) + [Acquire(StatsObject)]
  {
    if !env.alloc {
      return null;
    }
    stats := new DmpStats(name, kset);
    ledger.log := ledger.log + [Acquire(StatsObject)];
    if env.addRet != 0 || env.ueventRet != 0 {
      DestroyStats(stats, ledger);
      return null;
    }
  }

  /** dmp_destroy_stats: drops the only reference, which frees the object. */
  method DestroyStats(stats: DmpStats, ledger: Ledger)
    modifies ledger
    ensures ledger.log == old(ledger.log) + [Release(StatsObject)]
  {
    ledger.log := ledger.log + [Release(StatsObject)];
  }
}
