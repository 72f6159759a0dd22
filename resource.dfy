/**
 * The wavelength inventory of one network element. The repository has two
 * identical copies of this class, Node and Link, and the graph carries a
 * Link on every vertex; both are modelled by the single class `Resource`.
 */
module Resources {

  /** The sentinel wavelength "no wavelength available". */
  const NONE: nat := 0

  /** The wavelengths a resource built from a count `n` carries: 1..n. */
  function Range(n: nat): (r: set<nat>)
    ensures forall wl :: wl in r <==> 1 <= wl <= n
  {
    if n == 0 then {} else Range(n - 1) + {n}
  }

  /** A count-built resource has `n` wavelengths, and NONE is not one of them. */
  lemma {:induction false} RangeCard(n: nat)
    ensures |Range(n)| == n
    ensures NONE !in Range(n)
  {
    if n > 0 {
      RangeCard(n - 1);
    }
  }

  /**
   * `can_use` of resource `r` evaluated against the locked set `used`. The
   * wavelengths and the converter flag never change, so this is `CanUse` at
   * any moment at which `r` has exactly `used` locked.
   */
  function Usable(r: Resource, used: set<nat>, wl: nat): bool
  {
    if wl !in r.wavelengths then false
    else if r.hasConverter && |used| < |r.wavelengths| then true
    else wl !in used
  }

  class Resource {
    /** Every wavelength this resource supports. */
    const wavelengths: set<nat>
    /** Wavelengths currently locked by connections. */
    var used: set<nat>
    /** Whether the resource has a wavelength converter. */
    const hasConverter: bool

    /** A resource never holds a lock on a wavelength it does not have. */
    ghost predicate Valid()
      reads this
    {
      used <= wavelengths
    }

    /** Built from a count: the wavelengths 1..n, none locked. */
    constructor (n: nat, hasConverter: bool)
      ensures Valid()
      ensures wavelengths == Range(n) && used == {} && this.hasConverter == hasConverter
    {
      var ws: set<nat> := {};
      var i: nat := 1;
      while i <= n
        invariant 1 <= i <= n + 1
        invariant ws == Range(i - 1)
      {
        assert Range(i) == Range(i - 1) + {i};
        ws := ws + {i};
        i := i + 1;
      }
      wavelengths := ws;
      used := {};
      this.hasConverter := hasConverter;
    }

    /** Built from an explicit collection of wavelengths, none locked. */
    constructor FromSet(ws: set<nat>, hasConverter: bool)
      ensures Valid()
      ensures wavelengths == ws && used == {} && this.hasConverter == hasConverter
    {
      wavelengths := ws;
      used := {};
      this.hasConverter := hasConverter;
    }

    /**
     * Whether `wl` can be carried: it must be one of the wavelengths; a
     * converter then only needs spare capacity, otherwise `wl` itself must
     * be unlocked.
     */
    predicate CanUse(wl: nat)
      reads this
      ensures CanUse(wl) ==> wl in wavelengths
      ensures wl in wavelengths - used ==> CanUse(wl)
    {
      Usable(this, used, wl)
    }

    /** Locks `wl` when it can be used; reports whether it could. */
    method Lock(wl: nat) returns (ok: bool)
      requires Valid()
      modifies this
      ensures Valid()
      ensures ok == old(CanUse(wl))
      ensures used == if ok then old(used) + {wl} else old(used)
    {
      if !CanUse(wl) {
        return false;
      }
      used := used + {wl};
      return true;
    }

    /** Unlocks `wl`; nothing happens when it is not locked. */
    method Release(wl: nat)
      requires Valid()
      modifies this
      ensures Valid()
      ensures used == old(used) - {wl}
    {
      used := used - {wl};
    }

    /** The wavelengths that are not locked. */
    method AvailableWavelengths() returns (available: set<nat>)
      ensures available == wavelengths - used
    {
      available := {};
      var rest := wavelengths;
      while rest != {}
        invariant rest <= wavelengths
        invariant available == (wavelengths - rest) - used
        decreases rest
      {
        var wl :| wl in rest;
        if wl !in used {
          available := available + {wl};
        }
        rest := rest - {wl};
      }
    }
  }

  /**
   * `can_use` is false for anything outside the wavelength set; with a
   * converter it asks for spare capacity or an unlocked `wl`, which for a
   * resource keeping its invariant is spare capacity alone.
   */
  lemma CanUseRule(r: Resource, wl: nat)
    ensures wl !in r.wavelengths ==> !r.CanUse(wl)
    ensures !r.hasConverter ==> (r.CanUse(wl) <==> wl in r.wavelengths && wl !in r.used)
    ensures r.hasConverter ==>
      (r.CanUse(wl) <==> wl in r.wavelengths && (|r.used| < |r.wavelengths| || wl !in r.used))
    ensures r.Valid() && r.hasConverter ==> (r.CanUse(wl) <==> wl in r.wavelengths && |r.used| < |r.wavelengths|)
  {
    if r.Valid() && r.hasConverter && wl in r.wavelengths && wl !in r.used {
      SubsetCard(r.used, r.wavelengths - {wl});
    }
  }

  /** With a converter and spare capacity a locked wavelength still reads as usable. */
  lemma ConverterUsesLocked(r: Resource, wl: nat)
    requires r.hasConverter && wl in r.used && r.Valid() && |r.used| < |r.wavelengths|
    ensures r.CanUse(wl)
  {
  }

  /** No count-built resource can carry NONE. */
  lemma NoneNeverUsable(r: Resource, n: nat)
    requires r.wavelengths == Range(n)
    ensures !r.CanUse(NONE)
  {
    RangeCard(n);
  }

  /** The lock invariant bounds the number of locks by the number of wavelengths. */
  lemma CapacityBound(r: Resource)
    requires r.Valid()
    ensures |r.used| <= |r.wavelengths|
  {
    SubsetCard(r.used, r.wavelengths);
  }

  lemma {:induction false} SubsetCard<T>(a: set<T>, b: set<T>)
    requires a <= b
    ensures |a| <= |b|
  {
    if a != {} {
      var x :| x in a;
      SubsetCard(a - {x}, b - {x});
    }
  }

  /** Without a converter the second of two locks of one wavelength fails. */
  method LockTwiceWithoutConverter(r: Resource, wl: nat) returns (first: bool, second: bool)
    requires r.Valid() && !r.hasConverter
    modifies r
    ensures first == old(r.CanUse(wl)) && !second
    ensures r.used == if first then old(r.used) + {wl} else old(r.used)
  {
    first := r.Lock(wl);
    second := r.Lock(wl);
  }

  /**
   * With a converter and spare capacity, locking an already locked
   * wavelength succeeds without recording a further lock.
   */
  method RelockWithConverter(r: Resource, wl: nat) returns (ok: bool)
    requires r.Valid() && r.hasConverter && wl in r.used && |r.used| < |r.wavelengths|
    modifies r
    ensures ok && r.used == old(r.used)
  {
    ok := r.Lock(wl);
  }

  /** Releasing twice is releasing once. */
  method ReleaseTwice(r: Resource, wl: nat)
    requires r.Valid()
    modifies r
    ensures r.used == old(r.used) - {wl}
  {
    r.Release(wl);
    r.Release(wl);
  }

  /** Locking a wavelength that was not locked and releasing it again restores the resource. */
  method LockThenRelease(r: Resource, wl: nat) returns (ok: bool)
    requires r.Valid() && wl !in r.used
    modifies r
    ensures ok == old(r.CanUse(wl))
    ensures r.used == old(r.used)
  {
    ok := r.Lock(wl);
    r.Release(wl);
  }

  /** Locking available wavelengths one at a time until none is left locks every wavelength. */
  method DrainAvailable(r: Resource)
    requires r.Valid()
    modifies r
    ensures r.Valid() && r.used == r.wavelengths
  {
    var available := r.AvailableWavelengths();
    while available != {}
      invariant r.Valid() && available == r.wavelengths - r.used
      decreases available
    {
      var wl :| wl in available;
      assert r.CanUse(wl);
      var _ := r.Lock(wl);
      available := r.AvailableWavelengths();
    }
    forall wl | wl in r.wavelengths
      ensures wl in r.used
    {
      assert wl !in available;
    }
  }
}
