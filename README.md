# dmp: a device-mapper passthrough target with request statistics

dmp is a Linux device-mapper target that forwards every bio to one
underlying block device and counts, per target instance, how many read and
write requests passed through and how many bytes they carried. The counts are
exposed as six read-only sysfs attributes of a kobject: `read_reqs`,
`write_reqs`, `total_reqs`, `read_avg_size`, `write_avg_size` and
`total_avg_size`.

This Dafny project models that core in three modules:

- `Kernel` (kernel.dfy): the error numbers the target returns, the 32-bit
  size of a bio, and a ghost `Ledger` that records which resources a target
  instance acquires and releases. `Replay` runs such a record against a
  stack of held resources. It yields `None` as soon as an event breaks the
  acquire/release discipline. There are two ways to break it: acquiring a
  resource that is already held, or releasing anything but the most recently
  acquired resource still held. A record that replays to
  `Some([])` is therefore both leak-free and unwound in reverse order.
- `Stats` (stats.dfy): `struct dmp_stats` as the class `DmpStats`, with the
  four counters as fields. `Record` is `update_stats`. The six attribute
  accessors are pure functions of the counters (`Counters`). `AttrShow` and
  `DmpStats.Store` are the sysfs show and store callbacks. `CreateStats` and
  `DestroyStats` are `dmp_create_stats` and `dmp_destroy_stats`. A history of
  requests is folded with `Accumulate`. It is compared with an independent
  count (`Count`) and size sum (`SizeSum`) per direction.
- `Dmp` (dmp.dfy): `dmp_ctr`, `dmp_dtr` and `dmp_map` as `Ctr`, `Dtr` and
  `Map`, over classes for the target, its `struct dmp_c` context, the
  `dm_dev` reference and the bio.

Kernel calls are not modelled; each one becomes an input that says whether it
succeeded. These calls are `kzalloc`, `dm_get_device`,
`kobject_init_and_add` and `kobject_uevent`.

The three averages divide without checking the divisor (stats.c:58, 61,
67-69). The model therefore defines them only for a positive divisor; see
"## Left out".

Also following the code: when the statistics object cannot be created,
`dmp_ctr` returns -ENOMEM without setting `ti->error`. `Ctr` states that the
error slot is left as it was on that path.

## Model

| member | source | states |
|---|---|---|
| `Kernel.UnwindReleasesAll` | mod.c:50-54 | releasing the held resources newest first never breaks the acquire/release discipline and leaves nothing held |
| `Stats.DmpStats.constructor` | stats.c:99-103 | a new statistics object has all four counters zero and carries its name and kset |
| `Stats.DmpStats.Record` | mod.c:66-81 | a read adds 1 to `read_reqs` and its size to `read_total_size` and leaves the write pair alone; a write does the same to the write pair; any other operation changes nothing |
| `Stats.DmpStats.Store` | stats.c:32-37 | every store returns -EIO and leaves the four counters unchanged |
| `Stats.AccumulateCounts` | mod.c:66-81 | after any request sequence each request counter has grown by the number of requests in its direction and each size counter by the sum of their sizes |
| `Stats.AccumulateMonotone` | mod.c:66-81 | no counter ever decreases, whatever the requests |
| `Stats.AccumulateSnoc` | mod.c:66-81 | recording one more request gives the counters of the history extended by that request |
| `Stats.CountPartition` | mod.c:69-80 | every request is counted as exactly one of read, write or other |
| `Stats.TotalReqs` | stats.c:64 | `total_reqs` is `read_reqs + write_reqs`, so it is at least each of them |
| `Stats.ReadAvgSize` | stats.c:58 | defined only when `read_reqs > 0`; the result is the rounded-down quotient: its multiple by `read_reqs` is at most `read_total_size`, the next multiple exceeds it |
| `Stats.WriteAvgSize` | stats.c:61 | defined only when `write_reqs > 0`; rounded-down quotient of `write_total_size` by `write_reqs` |
| `Stats.TotalAvgSize` | stats.c:67-69 | defined only when `read_reqs + write_reqs > 0`; rounded-down quotient of all bytes by `total_reqs` |
| `Stats.ShowHistory` | stats.c:52-65 | after any request history, `read_reqs` and `write_reqs` show the number of reads and writes, and `total_reqs` shows all requests except those of other operations |
| `Stats.UniformReadAverage` | stats.c:58 | when every read had the same size and there was at least one, `read_avg_size` shows exactly that size |
| `Stats.TotalAvgBetween` | stats.c:58-69 | when both averages are defined, `total_avg_size` lies between `read_avg_size` and `write_avg_size` |
| `Stats.AttrShow` | stats.c:20-30 | a show fails with -EIO exactly when the attribute has no show callback; otherwise it emits that callback's value of the counters |
| `Stats.DefaultAttrsShow` | stats.c:52-80 | every attribute of the default table has a show callback, so a show on it never fails, and each emits the value its name stands for: `read_reqs` and `write_reqs` the request counters, `total_reqs` their sum, and the three `*_avg_size` attributes the matching average, defined only when its divisor is positive |
| `Stats.CreateStats` | stats.c:95-119 | returns a fresh, zeroed object named `name` in `kset` exactly when allocation, registration and uevent all succeed; if registration or the uevent fails the allocated object is released again, and if allocation fails nothing is acquired |
| `Stats.DestroyStats` | stats.c:121-124 | releases the statistics object |
| `Dmp.Ctr` | mod.c:18-55 | argument count other than 1: -EINVAL and nothing acquired; context allocation failure: -ENOMEM and nothing acquired; lookup failure: the lookup's error after freeing the context; statistics failure: -ENOMEM after releasing the device, then the context; any failure leaves nothing held and `ti->private` untouched; 0 exactly when every step succeeds, and then the context, device and statistics object are held in that order, the context holds the looked-up device and a zeroed statistics object named after the device |
| `Dmp.Dtr` | mod.c:57-64 | releases the statistics object, then the device, then the context, leaving nothing held; afterwards the instance is no longer active, so no bio can be mapped through it |
| `Dmp.Map` | mod.c:83-91 | on an active instance, which holds exactly its context, device and statistics object: always returns DM_MAPIO_REMAPPED, retargets the bio to the instance's underlying device, counts it in the instance's statistics as `update_stats` does, and leaves the instance active |

## Left out

- Stats.ReadAvgSize: requires `read_reqs > 0`. In the code (stats.c:58), a zero divisor is a kernel divide error. Example input: reading `read_avg_size` on a freshly created target, before any read.
- Stats.WriteAvgSize: requires `write_reqs > 0`. In the code (stats.c:61), a zero divisor is a kernel divide error. Example input: reading `write_avg_size` before any write.
- Stats.TotalAvgSize: requires `read_reqs + write_reqs > 0`. In the code (stats.c:67-69), a zero divisor is a kernel divide error. Example input: reading `total_avg_size` on a freshly created target.
- Stats.AttrShow: for the three average attributes it requires a positive divisor. A show with a zero divisor divides by zero in the code and is not modelled.
- Concurrency: the `atomic64_*` operations are modelled as one sequential step per `update_stats`. Torn reads between the two counters of a pair, and an average computed while a request is being counted, are outside a sequential model.
- Stats.DmpStats.Record: does not model wrap-around of the signed 64-bit counters; counters are unbounded naturals.
- Stats.AttrShow: emits the attribute's value as a number; the decimal text and the byte count that `sysfs_emit` returns are not modelled.
- Stats.CreateStats: kobject registration, the kobject name and the uevent are only success/failure inputs. Reference counting is reduced to the single reference dmp holds, so `kobject_put` releases the object at once.
- Stats.DestroyStats: the same reduction; a sysfs reader still holding the kobject, which would defer the free, is not modelled.
- Dmp.Ctr: `dm_get_device` is an outcome input (its return value and the device it resolves to). The table mode and the text of the device argument are not modelled. `stats_kset` is passed in as a number.
- Module init and exit and target registration (mod.c:93-131): kernel plumbing that creates `stats_kset` and registers the target type.
- A process-wide aggregate counter: the code has none. `dmp_map` counts only into the instance's own statistics.
- dmp.c, an earlier passthrough without statistics, is not part of this model.
- The bio is reduced to its operation, its 32-bit size and the device it targets. `bio_set_dev` is an assignment of that device.
