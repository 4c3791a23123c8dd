/**
 * The parts of the Linux kernel that the dmp target leans on, reduced to what
 * the model needs: error numbers, the width of a bio's size field, and a ledger
 * that records, as ghost state, which resources one target instance acquires
 * and releases and in what order.
 */
module Kernel {

  datatype Option<T> = None | Some(value: T)

  // Error numbers (include/uapi/asm-generic/errno-base.h); callers return them negated.
  const EIO: int := 5
  const ENOMEM: int := 12
  const EINVAL: int := 22

  /** An unsigned 32-bit value, the type of a bio's byte count. */
  type U32 = x: int | 0 <= x < 0x1_0000_0000

  /** The resources one dmp instance holds while it is alive. */
  datatype Resource =
    | ProxyContext      // the kzalloc'd struct dmp_c
    | UnderlyingDevice  // the reference taken by dm_get_device
    | StatsObject       // the kzalloc'd, kobject-registered struct dmp_stats

  datatype Event = Acquire(res: Resource) | Release(res: Resource)

  /**
   * One event applied to the stack of held resources (oldest first). An
   * acquire of a resource already held, or a release of anything but the most
   * recently acquired one, breaks the discipline and yields None.
   */
  function Transition(held: seq<Resource>, e: Event): Option<seq<Resource>>
  {
    match e
    case Acquire(r) => if r in held then None else Some(held + [r])
    case Release(r) =>
      if held != [] && held[|held| - 1] == r then Some(held[..|held| - 1]) else None
  }

  /** Replays a trace of events, starting from the stack `held`. */
  function Replay(held: seq<Resource>, t: seq<Event>): Option<seq<Resource>>
    decreases |t|
  {
    if t == [] then Some(held)
    else match Transition(held, t[0])
      case None => None
      case Some(next) => Replay(next, t[1..])
  }

  /** What a trace leaves held when it starts from nothing held. */
  function Held(t: seq<Event>): Option<seq<Resource>>
  {
    Replay([], t)
  }

  /** The releases that unwind a stack of held resources, newest first. */
  function Unwind(held: seq<Resource>): seq<Event>
    decreases |held|
  {
    if held == [] then [] else [Release(held[|held| - 1])] + Unwind(held[..|held| - 1])
  }

  /** Replaying two traces one after the other is replaying their concatenation. */
  lemma {:induction false} ReplayConcat(held: seq<Resource>, a: seq<Event>, b: seq<Event>)
    ensures Replay(held, a + b) ==
              match Replay(held, a)
              case None => None
              case Some(mid) => Replay(mid, b)
    decreases |a|
  {
    if a == [] {
      assert a + b == b;
    } else {
      assert (a + b)[0] == a[0];
      assert (a + b)[1..] == a[1..] + b;
      match Transition(held, a[0])
      case None =>
      case Some(next) => ReplayConcat(next, a[1..], b);
    }
  }

  /** Appending one event to a trace applies that event to what the trace holds. */
  lemma HeldSnoc(t: seq<Event>, e: Event, held: seq<Resource>)
    requires Held(t) == Some(held)
    ensures Held(t + [e]) == Transition(held, e)
  {
    ReplayConcat([], t, [e]);
  }

  /**
   * Releasing held resources in the reverse order of their acquisition is
   * always within the discipline and leaves nothing held.
   */
  lemma {:induction false} UnwindReleasesAll(held: seq<Resource>)
    ensures Replay(held, Unwind(held)) == Some([])
    decreases |held|
  {
    if held != [] {
      var older := held[..|held| - 1];
      assert Transition(held, Unwind(held)[0]) == Some(older);
      assert Unwind(held)[1..] == Unwind(older);
      UnwindReleasesAll(older);
    }
  }

  /** The acquisitions of `rs`, in the order of `rs`. */
  function Acquires(rs: seq<Resource>): seq<Event>
    decreases |rs|
  {
    if rs == [] then [] else Acquires(rs[..|rs| - 1]) + [Acquire(rs[|rs| - 1])]
  }

  /** No resource occurs twice in `rs`. */
  predicate Distinct(rs: seq<Resource>)
  {
    forall i, j :: 0 <= i < j < |rs| ==> rs[i] != rs[j]
  }

  /** Acquiring distinct resources one after the other holds exactly them, in that order. */
  lemma {:induction false} AcquiresHeld(rs: seq<Resource>)
    requires Distinct(rs)
    ensures Held(Acquires(rs)) == Some(rs)
    decreases |rs|
  {
    if rs != [] {
      var older, last := rs[..|rs| - 1], rs[|rs| - 1];
      AcquiresHeld(older);
      HeldSnoc(Acquires(older), Acquire(last), older);
      assert last !in older by {
        forall i | 0 <= i < |older| ensures older[i] != last {
          assert rs[i] != rs[|rs| - 1];
        }
      }
      assert older + [last] == rs;
    }
  }

  /**
   * Whatever was acquired in order, unwinding it newest first releases it all:
   * a trace shaped like this, appended to one that holds nothing, holds nothing.
   */
  lemma AcquireThenUnwind(t: seq<Event>, rs: seq<Resource>)
    requires Held(t) == Some([])
    requires Distinct(rs)
    ensures Held(t + (Acquires(rs) + Unwind(rs))) == Some([])
  {
    AcquiresHeld(rs);
    ReplayConcat([], Acquires(rs), Unwind(rs));
    UnwindReleasesAll(rs);
    ReplayConcat([], t, Acquires(rs) + Unwind(rs));
  }

  /** Appending the acquisitions of distinct resources to a trace that holds nothing holds exactly them. */
  lemma AcquiresAfterNothing(t: seq<Event>, rs: seq<Resource>)
    requires Held(t) == Some([])
    requires Distinct(rs)
    ensures Held(t + Acquires(rs)) == Some(rs)
  {
    AcquiresHeld(rs);
    ReplayConcat([], t, Acquires(rs));
  }

  /**
   * The ghost record of one target instance's acquisitions and releases, in
   * the order the code performs them.
   */
  class Ledger {
    ghost var log: seq<Event>

    constructor ()
      ensures log == []
    {
      log := [];
    }
  }
}
