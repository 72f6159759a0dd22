/**
 * Events of the discrete-event simulation: an arrival (START), a departure
 * (END) carrying the path and wavelength to release, a blocked arrival
 * (BLOCK), and the DUMMY of a default-built event.
 */
module Events {

  /** The time of an event that was never scheduled. */
  const UNSET: real := -1.0
  /** The wavelength of an event that carries none. */
  const WL_UNSET: nat := 0

  datatype EventType = Start | End | Block | Dummy

  /**
   * An event. The datatype constructor is the full constructor of the
   * source: it stores source, destination, type, time, path and wavelength
   * as given.
   */
  datatype Event = Event(src: nat, dst: nat, kind: EventType, time: real, path: seq<nat>, wavelength: nat)

  /** The default event: a DUMMY between vertex 0 and itself at UNSET time. */
  function Default(): (e: Event)
    ensures e.kind == Dummy && e.time == UNSET && e.time < 0.0
    ensures e.src == 0 && e.dst == 0 && e.path == [] && e.wavelength == WL_UNSET
  {
    Event(0, 0, Dummy, UNSET, [], WL_UNSET)
  }

  /** An event of the given type and time between vertex 0 and itself, without a path. */
  function Timed(kind: EventType, time: real): (e: Event)
    ensures e.kind == kind && e.time == time
    ensures e.src == 0 && e.dst == 0 && e.path == [] && e.wavelength == WL_UNSET
  {
    Event(0, 0, kind, time, [], WL_UNSET)
  }

  /** An event between `src` and `dst` of the given type and time, without a path. */
  function Between(src: nat, dst: nat, kind: EventType, time: real): (e: Event)
    ensures e.src == src && e.dst == dst && e.kind == kind && e.time == time
    ensures e.path == [] && e.wavelength == WL_UNSET
  {
    Event(src, dst, kind, time, [], WL_UNSET)
  }

  /** `operator==`: same time and same type; endpoints, path and wavelength are ignored. */
  predicate Equal(x: Event, y: Event)
    ensures Equal(x, y) <==> Timed(x.kind, x.time) == Timed(y.kind, y.time)
  {
    x.time == y.time && x.kind == y.kind
  }

  /** `operator!=`: exactly the negation of `==`. */
  predicate NotEqual(x: Event, y: Event)
    ensures NotEqual(x, y) <==> !Equal(x, y)
  {
    x.time != y.time || x.kind != y.kind
  }

  /** `operator>`: later in time, the converse of `<`. */
  predicate Greater(x: Event, y: Event)
    ensures Greater(x, y) <==> Less(y, x)
  {
    x.time > y.time
  }

  /** `operator<`: earlier in time; never between `==` events or events that share a time. */
  predicate Less(x: Event, y: Event)
    ensures Less(x, y) ==> !Equal(x, y) && !Equal(y, x)
    ensures x.time == y.time ==> !Less(x, y)
  {
    x.time < y.time
  }

  /** `==` is an equivalence relation. */
  lemma EqualIsEquivalence(x: Event, y: Event, z: Event)
    ensures Equal(x, x)
    ensures Equal(x, y) ==> Equal(y, x)
    ensures Equal(x, y) && Equal(y, z) ==> Equal(x, z)
  {
  }

  /**
   * `<` is a strict weak order on time: irreflexive, transitive, and two
   * events are incomparable exactly when they share a time, whatever their
   * types; so incomparable events need not be `==`.
   */
  lemma LessIsStrictWeakOrder(x: Event, y: Event, z: Event)
    ensures !Less(x, x)
    ensures Less(x, y) && Less(y, z) ==> Less(x, z)
    ensures (!Less(x, y) && !Less(y, x)) <==> x.time == y.time
    ensures Equal(x, y) ==> !Less(x, y) && !Less(y, x)
  {
  }

  /**
   * `==` does not look at the payload: every event is `==` to each event of
   * its type and time, whatever the endpoints, path and wavelength, among
   * them events it differs from.
   */
  lemma EqualIgnoresPayload(x: Event, src: nat, dst: nat, path: seq<nat>, wl: nat)
    ensures Equal(x, Event(src, dst, x.kind, x.time, path, wl))
    ensures Equal(x, x.(wavelength := x.wavelength + 1)) && x != x.(wavelength := x.wavelength + 1)
  {
  }

  /**
   * Events at the same time are incomparable yet not `==` when their types
   * differ, and every event has such a partner.
   */
  lemma IncomparableNotEqual(x: Event, y: Event)
    ensures x.time == y.time && x.kind != y.kind ==> !Less(x, y) && !Less(y, x) && !Equal(x, y)
    ensures var z := Timed(if x.kind == Start then Block else Start, x.time);
      !Less(x, z) && !Less(z, x) && !Equal(x, z)
  {
  }
}
