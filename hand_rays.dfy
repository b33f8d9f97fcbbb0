/**
  The bookkeeping of the fingertip ray caster (HandRaycaster): the finger
  names and their indices, the ray keys "Left_Index", the slot of each ray's
  line renderer, and the keyed container of per-joint smoothing filters.
  The One Euro smoothing itself, the physics ray cast and the rendering are
  not part of this model; a filter is modelled by the two parameters it
  carries.
*/
module HandRays {
  import opened EngineMath
  import opened Wrappers
  import opened Strings

  const FingerCount: int := 5
  /** The shortest ray SetRayDistance allows. */
  const MinRayDistance: real := 0.1

  /** GetFingerName: the names of fingers 0..4, "Unknown" for every other index. */
  function FingerName(fingerIndex: int): (name: string)
    ensures 0 <= fingerIndex < FingerCount <==> name != "Unknown"
  {
    match fingerIndex
    case 0 => "Thumb"
    case 1 => "Index"
    case 2 => "Middle"
    case 3 => "Ring"
    case 4 => "Little"
    case _ => "Unknown"
  }

  /** FingerName2index: the lower-cased name looked up among the five; a null or unknown name gives -1. */
  function FingerIndex(fingerName: Option<string>): (i: int)
    ensures -1 <= i < FingerCount
    ensures fingerName.None? ==> i == -1
  {
    if fingerName.None? then -1
    else
      match ToLower(fingerName.value)
      case "thumb" => 0
      case "index" => 1
      case "middle" => 2
      case "ring" => 3
      case "little" => 4
      case _ => -1
  }

  /** The index of a finger's name is that finger: FingerName2index inverts GetFingerName on 0..4. */
  lemma FingerNameRoundTrip(fingerIndex: int)
    requires 0 <= fingerIndex < FingerCount
    ensures FingerIndex(Some(FingerName(fingerIndex))) == fingerIndex
  {
    var name := FingerName(fingerIndex);
    var lower := ToLower(name);
    if fingerIndex == 0 { assert lower == "thumb"; }
    else if fingerIndex == 1 { assert lower == "index"; }
    else if fingerIndex == 2 { assert lower == "middle"; }
    else if fingerIndex == 3 { assert lower == "ring"; }
    else { assert lower == "little"; }
  }

  /** The lookup ignores case: an upper-cased name finds the same finger. */
  lemma FingerIndexIgnoresCase(name: string)
    ensures FingerIndex(Some(ToUpper(name))) == FingerIndex(Some(name))
  {
    ToLowerOfToUpper(name);
  }

  /** A known name belongs to exactly that finger: it lower-cases to the lower-cased name of its index. */
  lemma FingerIndexKnown(name: string)
    requires FingerIndex(Some(name)) != -1
    ensures ToLower(name) == ToLower(FingerName(FingerIndex(Some(name))))
  {
    var i := FingerIndex(Some(name));
    if i == 0 { assert ToLower(FingerName(0)) == "thumb"; }
    else if i == 1 { assert ToLower(FingerName(1)) == "index"; }
    else if i == 2 { assert ToLower(FingerName(2)) == "middle"; }
    else if i == 3 { assert ToLower(FingerName(3)) == "ring"; }
    else { assert ToLower(FingerName(4)) == "little"; }
  }

  /** The name PerformHandRaycast gives a hand. */
  function HandName(left: bool): string {
    if left then "Left" else "Right"
  }

  /** The key of a finger's ray, hit record and sphere: hand name, "_", finger name. */
  function RayKey(left: bool, fingerIndex: int): string {
    HandName(left) + "_" + FingerName(fingerIndex)
  }

  /** The line renderer of a ray: left-hand fingers use slots 0..4, right-hand fingers 5..9. */
  function LineIndex(left: bool, fingerIndex: int): (index: int)
    ensures 0 <= fingerIndex < FingerCount ==> 0 <= index < 2 * FingerCount
    ensures 0 <= fingerIndex < FingerCount ==> (index < FingerCount <==> left)
  {
    (if left then 0 else 5) + fingerIndex
  }

  /** A slot determines its ray: the hand is the slot below 5, the finger the slot modulo 5. */
  lemma LineIndexInverse(left: bool, fingerIndex: int)
    requires 0 <= fingerIndex < FingerCount
    ensures (LineIndex(left, fingerIndex) < FingerCount) == left
    ensures LineIndex(left, fingerIndex) % FingerCount == fingerIndex
  {
  }

  /** Different rays never share a line renderer. */
  lemma LineIndexInjective(left1: bool, finger1: int, left2: bool, finger2: int)
    requires 0 <= finger1 < FingerCount && 0 <= finger2 < FingerCount
    requires LineIndex(left1, finger1) == LineIndex(left2, finger2)
    ensures left1 == left2 && finger1 == finger2
  {
    LineIndexInverse(left1, finger1);
    LineIndexInverse(left2, finger2);
  }

  /**
    TryGetFingerJointPositions without the smoothing: no positions for a
    finger index outside 0..4, else the tip and distal positions when the
    tracker reports both.
  */
  function FingerJoints(fingerIndex: int, tip: Option<Vec3>, distal: Option<Vec3>): (r: Option<(Vec3, Vec3)>)
    ensures r.Some? <==> 0 <= fingerIndex < FingerCount && tip.Some? && distal.Some?
    ensures r.Some? ==> r.value == (tip.value, distal.value)
  {
    if fingerIndex < 0 || fingerIndex >= FingerCount then None
    else if tip.Some? && distal.Some? then Some((tip.value, distal.value))
    else None
  }

  /** One smoothing filter (OneEuroFilter3D), reduced to the two parameters it carries. */
  class EuroFilter {
    var minCutoff: real
    var beta: real

    constructor (minCutoff: real, beta: real)
      ensures this.minCutoff == minCutoff && this.beta == beta
    {
      this.minCutoff, this.beta := minCutoff, beta;
    }

    /** UpdateParams: every axis takes the new parameters. */
    method UpdateParams(minCutoff: real, beta: real)
      modifies this
      ensures this.minCutoff == minCutoff && this.beta == beta
    {
      this.minCutoff, this.beta := minCutoff, beta;
    }
  }

  /** OneEuroFilter3DContainer: a filter per key, created on first use with the current defaults. */
  class FilterContainer {
    var filters: map<string, EuroFilter>
    var minCutoff: real
    var beta: real

    constructor (minCutoff: real, beta: real)
      ensures filters == map[] && this.minCutoff == minCutoff && this.beta == beta
    {
      filters := map[];
      this.minCutoff, this.beta := minCutoff, beta;
    }

    /** GetFilter: the key's filter if there is one, else a fresh filter with the defaults, stored under the key. */
    method GetFilter(key: string) returns (filter: EuroFilter)
      modifies this`filters
      ensures key in filters && filters[key] == filter
      ensures filters.Keys == old(filters.Keys) + {key}
      ensures key in old(filters) ==> filters == old(filters)
      ensures key !in old(filters) ==>
                && fresh(filter) && filters == old(filters)[key := filter]
                && filter.minCutoff == minCutoff && filter.beta == beta
    {
      if key in filters {
        filter := filters[key];
      } else {
        filter := new EuroFilter(minCutoff, beta);
        filters := filters[key := filter];
      }
    }

    /** UpdateAllParams: new defaults, and every stored filter takes the new parameters. */
    method UpdateAllParams(minCutoff: real, beta: real)
      modifies this`minCutoff, this`beta, filters.Values
      ensures this.minCutoff == minCutoff && this.beta == beta
      ensures filters == old(filters)
      ensures forall key :: key in filters ==> filters[key].minCutoff == minCutoff && filters[key].beta == beta
    {
      this.minCutoff, this.beta := minCutoff, beta;
      var remaining := filters.Keys;
      while remaining != {}
        invariant remaining <= filters.Keys
        invariant this.minCutoff == minCutoff && this.beta == beta
        invariant forall key :: key in filters && key !in remaining ==>
                    filters[key].minCutoff == minCutoff && filters[key].beta == beta
        decreases remaining
      {
        var key :| key in remaining;
        filters[key].UpdateParams(minCutoff, beta);
        remaining := remaining - {key};
      }
    }
  }

  /** The ray caster's settings and its filter container. */
  class Raycaster {
    var rayDistance: real
    var useFiltering: bool
    var minCutoff: real
    var beta: real
    const container: FilterContainer

    constructor (rayDistance: real, useFiltering: bool, minCutoff: real, beta: real)
      ensures this.rayDistance == rayDistance && this.useFiltering == useFiltering
      ensures this.minCutoff == minCutoff && this.beta == beta
      ensures fresh(container) && container.filters == map[]
      ensures container.minCutoff == minCutoff && container.beta == beta
    {
      this.rayDistance, this.useFiltering := rayDistance, useFiltering;
      this.minCutoff, this.beta := minCutoff, beta;
      container := new FilterContainer(minCutoff, beta);
    }

    /** SetRayDistance: rays are at least 0.1 long. */
    method SetRayDistance(distance: real)
      modifies this`rayDistance
      ensures rayDistance >= MinRayDistance
      ensures distance >= MinRayDistance ==> rayDistance == distance
      ensures distance < MinRayDistance ==> rayDistance == MinRayDistance
    {
      rayDistance := Max(MinRayDistance, distance);
    }

    method SetFilteringEnabled(enable: bool)
      modifies this`useFiltering
      ensures useFiltering == enable
    {
      useFiltering := enable;
    }

    /** UpdateFilterParams: the new parameters become the settings, the defaults and every filter's. */
    method UpdateFilterParams(newMinCutoff: real, newBeta: real)
      modifies this`minCutoff, this`beta, container, container.filters.Values
      ensures minCutoff == newMinCutoff && beta == newBeta
      ensures container.minCutoff == newMinCutoff && container.beta == newBeta
      ensures container.filters == old(container.filters)
      ensures forall key :: key in container.filters ==>
                container.filters[key].minCutoff == newMinCutoff && container.filters[key].beta == newBeta
    {
      minCutoff, beta := newMinCutoff, newBeta;
      container.UpdateAllParams(minCutoff, beta);
    }
  }
}
