/** One driver shared by reference count: the pattern of openPcmOut_l/closePcmOut_l and of
  * openMixer_l/closeMixer_l, with the invariant that ties the count to its holders.
  *
  * A handle is the serial number of the open that produced it, so a handle kept across a
  * close and a re-open differs from the new one.
  */
module RefCounts {
  import opened Options

  type Handle = nat
  type Holdings = map<nat, Option<Handle>>

  datatype Driver = Driver(handle: Option<Handle>, cnt: nat)

  const CLOSED := Driver(None, 0)

  /** Opens the driver on the first reference; fails only then. */
  function Grab(d: Driver, ready: bool, serial: Handle): (Driver, Option<Handle>) {
    if d.cnt != 0 then (d.(cnt := d.cnt + 1), d.handle)
    else if d.handle.Some? then (d, None)
    else if ready then (Driver(Some(serial), 1), Some(serial))
    else (d, None)
  }

  /** Closes the driver on the last reference; a surplus release is ignored. */
  function Drop(d: Driver): Driver {
    if d.cnt == 0 then d
    else if d.cnt == 1 then CLOSED
    else d.(cnt := d.cnt - 1)
  }

  function Holders(m: Holdings): set<nat> { set k | k in m && m[k].Some? }

  function One(b: bool): nat { if b then 1 else 0 }

  /** Every reference is counted (`others` of them are held outside `m`), the driver is open
    * exactly while it is referenced, and every handle in `m` is the one now open. */
  ghost predicate Refs(d: Driver, m: Holdings, others: nat) {
    && d.cnt == |Holders(m)| + others
    && (d.handle.Some? <==> d.cnt > 0)
    && forall k :: k in m && m[k].Some? ==> m[k] == d.handle
  }

  lemma HolderCount(m: Holdings, k: nat, h: Option<Handle>)
    ensures |Holders(m[k := h])| + One(k in m && m[k].Some?) == |Holders(m)| + One(h.Some?)
  {
    var rest := Holders(m) - {k};
    assert Holders(m[k := h]) == if h.Some? then rest + {k} else rest;
    assert Holders(m) == if k in m && m[k].Some? then rest + {k} else rest;
  }

  lemma NoHolders(m: Holdings)
    requires |Holders(m)| == 0
    ensures forall k :: k in m ==> m[k].None?
  {
    forall k | k in m ensures m[k].None? { assert k !in Holders(m); }
  }

  lemma GrabKeeps(d: Driver, m: Holdings, others: nat, k: nat, ready: bool, serial: Handle)
    requires Refs(d, m, others) && k in m && m[k].None?
    ensures var (d', h) := Grab(d, ready, serial);
            Refs(d', m[k := h], others) && (h.Some? <==> ready || d.cnt > 0)
  {
    var (d', h) := Grab(d, ready, serial);
    HolderCount(m, k, h);
    if d.cnt == 0 { NoHolders(m); }
  }

  lemma GrabElsewhere(d: Driver, m: Holdings, others: nat, ready: bool, serial: Handle)
    requires Refs(d, m, others)
    ensures var (d', h) := Grab(d, ready, serial);
            Refs(d', m, others + One(h.Some?)) && (h.Some? <==> ready || d.cnt > 0)
  {
    if d.cnt == 0 { NoHolders(m); }
  }

  lemma DropKeeps(d: Driver, m: Holdings, others: nat, k: nat)
    requires Refs(d, m, others) && k in m && m[k].Some?
    ensures Refs(Drop(d), m[k := None], others)
  {
    HolderCount(m, k, None);
    assert k in Holders(m);
    if d.cnt == 1 { NoHolders(m[k := None]); }
  }

  /** A release by somebody who holds nothing breaks the count unless nothing was open. */
  lemma DropElsewhere(d: Driver, m: Holdings, others: nat)
    requires Refs(d, m, others)
    ensures others > 0 ==> Refs(Drop(d), m, others - 1)
    ensures Refs(Drop(d), m, others) <==> d.cnt == 0
  {
    if others > 0 && d.cnt == 1 { NoHolders(m); }
  }
}
