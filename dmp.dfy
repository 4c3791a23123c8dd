/**
 * The dmp device-mapper target (mod.c): a constructor that checks its
 * arguments and acquires a proxy context, the underlying device and a
 * statistics object, unwinding in reverse order on failure; a destructor
 * that releases all three; and a map callback that retargets each bio to the
 * underlying device and counts it.
 */
module Dmp {
  import opened Kernel
  import opened Stats

  /** DM_MAPIO_REMAPPED (include/linux/device-mapper.h): the bio was retargeted, dispatch it. */
  const DM_MAPIO_REMAPPED: int := 1

  /** A block device, identified by number. */
  datatype BlockDevice = BlockDevice(id: nat)

  /** A bio: its operation and byte count, and the device it is aimed at. */
  class Bio {
    const op: Op
    const size: U32
    var dev: BlockDevice

    constructor (op: Op, size: U32, dev: BlockDevice)
      ensures this.op == op && this.size == size && this.dev == dev
    {
      this.op, this.size, this.dev := op, size, dev;
    }
  }

  /** A `struct dm_dev`: the device-mapper reference to an underlying block device. */
  class DmDev {
    const bdev: BlockDevice

    constructor (bdev: BlockDevice)
      ensures this.bdev == bdev
    {
      this.bdev := bdev;
    }
  }

  /** A `struct dmp_c`: the per-instance context. */
  class DmpContext {
    var dev: DmDev?
    var stats: DmpStats?

    /** A zeroed allocation. */
    constructor ()
      ensures dev == null && stats == null
    {
      dev, stats := null, null;
    }
  }

  /**
   * A `struct dm_target`, reduced to what dmp uses: the name of the device its
   * table creates, the error message slot, the private pointer, and the
   * ledger of what this instance holds.
   */
  class Target {
    const deviceName: string
    const ledger: Ledger
    var error: string
    var private: DmpContext?

    constructor (deviceName: string)
      ensures this.deviceName == deviceName && error == "" && private == null
      ensures fresh(ledger) && ledger.log == []
    {
      this.deviceName := deviceName;
      ledger := new Ledger();
      error, private := "", null;
    }
  }

  /**
   * A constructed, not yet destroyed instance: its context holds a device and
   * a statistics object, and the instance holds exactly its three resources.
   */
  ghost predicate Active(ti: Target)
    reads ti, ti.private, ti.ledger
  {
    ti.private != null && ti.private.dev != null && ti.private.stats != null &&
    Held(ti.ledger.log) == Some(ALL_HELD)
  }

  /** What the kernel calls inside dmp_ctr return. */
  datatype CtorOutcomes = CtorOutcomes(
    contextAlloc: bool,      // kzalloc of the struct dmp_c found memory
    lookupRet: int,          // dm_get_device; 0 is success, otherwise a negative error number
    device: BlockDevice,     // the block device a successful lookup resolves to
    stats: CreateOutcomes)   // the calls inside dmp_create_stats

  /** The order in which dmp_ctr acquires and holds its resources. */
  const ALL_HELD: seq<Resource> := [ProxyContext, UnderlyingDevice, StatsObject]

  /** The stages of dmp_ctr: what each one has acquired, and how it is unwound. */
  lemma Stages()
    ensures Distinct(ALL_HELD[..1]) && Distinct(ALL_HELD[..2]) && Distinct(ALL_HELD)
    ensures Acquires(ALL_HELD[..1]) + Unwind(ALL_HELD[..1]) ==
              [Acquire(ProxyContext), Release(ProxyContext)]
    ensures Acquires(ALL_HELD[..2]) + Unwind(ALL_HELD[..2]) ==
              [Acquire(ProxyContext), Acquire(UnderlyingDevice), Release(UnderlyingDevice), Release(ProxyContext)]
    ensures Acquires(ALL_HELD) == [Acquire(ProxyContext), Acquire(UnderlyingDevice), Acquire(StatsObject)]
    ensures Unwind(ALL_HELD) == [Release(StatsObject), Release(UnderlyingDevice), Release(ProxyContext)]
  {
    assert ALL_HELD[..2][..1] == ALL_HELD[..1];
    assert ALL_HELD[..1][..0] == [];
  }

  /**
   * dmp_ctr: exactly one argument is accepted. The context, the device and
   * the statistics object are acquired in that order; a failure releases what
   * is already held in reverse order and returns the error, so that a failed
   * construction holds nothing, and a successful one holds exactly the three.
   */
  method Ctr(ti: Target, argv: seq<string>, statsKset: nat, env: CtorOutcomes) returns (ret: int)
    requires Held(ti.ledger.log) == Some([])
    modifies ti, ti.ledger
    ensures |argv| != 1 ==>
              ret == -EINVAL && ti.error == "Invalid argument count" && ti.ledger.log == old(ti.ledger.log)
    ensures |argv| == 1 && !env.contextAlloc ==>
              ret == -ENOMEM && ti.error == "Cannot allocate proxy context" &&
              ti.ledger.log == old(ti.ledger.log)
    ensures |argv| == 1 && env.contextAlloc && env.lookupRet != 0 ==>
              ret == env.lookupRet && ti.error == "Device lookup failed" &&
              ti.ledger.log == old(ti.ledger.log) + [Acquire(ProxyContext), Release(ProxyContext)]
    ensures |argv| == 1 && env.contextAlloc && env.lookupRet == 0 && !Created(env.stats) ==>
              ret == -ENOMEM && ti.error == old(ti.error) &&
              ti.ledger.log == old(ti.ledger.log) + [Acquire(ProxyContext), Acquire(UnderlyingDevice)] +
                (if env.stats.alloc then [Acquire(StatsObject), Release(StatsObject)] else []) +
                [Release(UnderlyingDevice), Release(ProxyContext)]
    ensures ret == 0 <==> |argv| == 1 && env.contextAlloc && env.lookupRet == 0 && Created(env.stats)
    ensures ret == 0 ==>
              ti.ledger.log == old(ti.ledger.log) +
                [Acquire(ProxyContext), Acquire(UnderlyingDevice), Acquire(StatsObject)]
    ensures ret != 0 ==> Held(ti.ledger.log) == Some([]) && ti.private == old(ti.private)
    ensures ret == 0 ==> Held(ti.ledger.log) == Some(ALL_HELD)
    ensures ret == 0 ==>
              Active(ti) && fresh(ti.private) && fresh(ti.private.dev) && fresh(ti.private.stats) &&
              ti.private.dev.bdev == env.device && ti.error == old(ti.error) &&
              ti.private.stats.Value() == ZERO && ti.private.stats.name == ti.deviceName
  {
    var ledger := ti.ledger;
    ghost var start := ledger.log;
    Stages();

    if |argv| != 1 {
      ti.error := "Invalid argument count";
      return -EINVAL;
    }

    if !env.contextAlloc {
      ti.error := "Cannot allocate proxy context";
      return -ENOMEM;
    }
    var pc := new DmpContext();
    ledger.log := ledger.log + [Acquire(ProxyContext)];

    ret := env.lookupRet;
    if ret != 0 {
      ti.error := "Device lookup failed";
      // err_free_pc
      ledger.log := ledger.log + [Release(ProxyContext)];
      assert ledger.log == start + (Acquires(ALL_HELD[..1]) + Unwind(ALL_HELD[..1]));
      AcquireThenUnwind(start, ALL_HELD[..1]);
      return;
    }
    pc.dev := new DmDev(env.device);
    ledger.log := ledger.log + [Acquire(UnderlyingDevice)];

    pc.stats := CreateStats(ti.deviceName, statsKset, env.stats, ledger);
    if pc.stats == null {
      ret := -ENOMEM;
      // err_put_device, then err_free_pc
      ledger.log := ledger.log + [Release(UnderlyingDevice), Release(ProxyContext)];
      if env.stats.alloc {
        assert ledger.log == start + (Acquires(ALL_HELD) + Unwind(ALL_HELD));
        AcquireThenUnwind(start, ALL_HELD);
      } else {
        assert ledger.log == start + (Acquires(ALL_HELD[..2]) + Unwind(ALL_HELD[..2]));
        AcquireThenUnwind(start, ALL_HELD[..2]);
      }
      return;
    }
    AcquiresAfterNothing(start, ALL_HELD);

    ti.private := pc;
    ret := 0;
  }

  /** dmp_dtr: releases the statistics object, then the device, then the context. */
  method Dtr(ti: Target)
    requires Active(ti)
    modifies ti.ledger
    ensures ti.ledger.log ==
              old(ti.ledger.log) + [Release(StatsObject), Release(UnderlyingDevice), Release(ProxyContext)]
    ensures Held(ti.ledger.log) == Some([])
    ensures !Active(ti)
  {
    var pc := ti.private;
    ghost var start := ti.ledger.log;
    DestroyStats(pc.stats, ti.ledger);
    // dm_put_device, then kfree of the context
    ti.ledger.log := ti.ledger.log + [Release(UnderlyingDevice), Release(ProxyContext)];
    Stages();
    UnwindReleasesAll(ALL_HELD);
    ReplayConcat([], start, Unwind(ALL_HELD));
  }

  /**
   * dmp_map: the bio is retargeted to the underlying device and counted in
   * this instance's statistics; its operation and size are untouched, and the
   * answer is always DM_MAPIO_REMAPPED. Only an active instance is mapped
   * through, so no bio is counted into released statistics, and mapping keeps
   * the instance active.
   */
  method Map(ti: Target, bio: Bio) returns (r: int)
    requires Active(ti)
    modifies bio, ti.private.stats
    ensures Active(ti)
    ensures r == DM_MAPIO_REMAPPED
    ensures bio.dev == ti.private.dev.bdev
    ensures ti.private.stats.Value() == Step(old(ti.private.stats.Value()), bio.op, bio.size)
  {
    var pc := ti.private;
    bio.dev := pc.dev.bdev;
    pc.stats.Record(bio.op, bio.size);
    r := DM_MAPIO_REMAPPED;
  }
}
