/**
 * Markings and the classical firing rule of place/transition nets, as the
 * playout engine uses them: the enabled set of a marking, firing an enabled
 * transition, and structural equality of markings.
 */
module PetriNets {
  import opened Wrappers

  /** A place is nothing but its identity. */
  type Place = nat

  /** Tokens per place; a place absent from the map holds no token. */
  type Marking = map<Place, nat>

  /** Arc weights per place: from input places, or to output places. */
  type Arcs = map<Place, nat>

  /** A transition with an optional visible label (`activity`); `None` marks a silent transition. */
  datatype Transition = Transition(name: string, activity: Option<string>, inArcs: Arcs, outArcs: Arcs)

  /** A net is fixed during playout; its transitions are listed in a fixed order. */
  datatype Net = Net(transitions: seq<Transition>)

  /** The count stored for `p`, zero when `p` is absent. */
  function At(m: map<Place, nat>, p: Place): nat
  {
    if p in m then m[p] else 0
  }

  /** Every input place holds at least the weight of its arc. */
  predicate IsEnabled(t: Transition, m: Marking)
    ensures IsEnabled(t, m) <==> forall p :: At(t.inArcs, p) <= At(m, p)
  {
    forall p | p in t.inArcs :: t.inArcs[p] <= At(m, p)
  }

  /** The enabled transitions among `ts`, in the order of `ts`. */
  function EnabledAmong(ts: seq<Transition>, m: Marking): (r: seq<Transition>)
    ensures forall t :: t in r <==> t in ts && IsEnabled(t, m)
    ensures |r| <= |ts|
  {
    if ts == [] then []
    else (if IsEnabled(ts[0], m) then [ts[0]] else []) + EnabledAmong(ts[1..], m)
  }

  /** The enabled set of a marking, recomputed from scratch on every call. */
  function Enabled(net: Net, m: Marking): (r: seq<Transition>)
    ensures forall t :: t in r <==> t in net.transitions && IsEnabled(t, m)
  {
    EnabledAmong(net.transitions, m)
  }

  /**
   * Firing an enabled transition: each input place loses its arc weight and
   * each output place gains its arc weight. Places left with no token are
   * dropped from the result, so a fired marking never stores a zero count.
   */
  function Fire(t: Transition, m: Marking): (r: Marking)
    requires IsEnabled(t, m)
    ensures forall p :: At(r, p) + At(t.inArcs, p) == At(m, p) + At(t.outArcs, p)
    ensures forall p | p in r :: r[p] > 0
  {
    map p | p in m.Keys + t.inArcs.Keys + t.outArcs.Keys && At(m, p) + At(t.outArcs, p) > At(t.inArcs, p)
      :: At(m, p) - At(t.inArcs, p) + At(t.outArcs, p)
  }

  /** Structural equality of markings: the same count on every place. */
  predicate SameMarking(m1: Marking, m2: Marking)
    ensures SameMarking(m1, m2) <==> forall p :: At(m1, p) == At(m2, p)
  {
    forall p | p in m1.Keys + m2.Keys :: At(m1, p) == At(m2, p)
  }

  /** No transition of the net is silent. */
  predicate AllLabelled(net: Net)
  {
    forall t | t in net.transitions :: t.activity.Some?
  }

  /** `a` is the visible label of some transition of the net. */
  ghost predicate IsLabelOf(net: Net, a: string)
  {
    exists t :: t in net.transitions && t.activity == Some(a)
  }
}
